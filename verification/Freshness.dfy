/**
 Transparency of serialised runs (app/proxy.py:145-213, app/cache.py:71-97,
 app/esi_client.py:180-191, 236-242): what is served as MISS is what upstream held when
 it answered the execution that the reply rests on, to leaders and waiters alike.
 */
module Freshness {
  import opened Common
  import opened Cache
  import opened Dispatch
  import opened DispatchRuns
  import Breaker

  // ---------------------------------------------------------------- the invariant

  /** A body is the one an execution stands for. */
  ghost predicate Carries(u: Setup, k: Key, f: Fetch, body: Bytes) {
    body == if f.resp.pageCount <= 1 then u.held(k, f.span.at).body else f.resp.body
  }

  ghost predicate TagFits(u: Setup, k: Key, f: Fetch, etag: Option<string>) {
    Truthy(etag) ==> f.resp.pageCount <= 1 && etag == u.held(k, f.span.at).etag
  }

  /** A `set` pairs a body with the ETag upstream had for it. */
  ghost predicate StoredSound(u: Setup, k: Key, x: Stored) {
    Carries(u, k, x.basis, x.args.body) && TagFits(u, k, x.basis, x.args.etag)
  }

  /** The ETag a task has read is still that of the last `set`. */
  ghost predicate TagStands(k: Key, last: map<Key, Stored>, sent: Option<string>) {
    Truthy(sent) ==> k in last && last[k].args.etag == sent
  }

  /** The last `set` stores the very body that upstream held at `at`. */
  ghost predicate BodyStands(u: Setup, k: Key, last: map<Key, Stored>, at: Time) {
    k in last && last[k].args.body == u.held(k, at).body
  }

  /** What a served task was promised. */
  ghost predicate ReplySound(u: Setup, k: Key, reply: Reply, basis: Option<Fetch>) {
    reply.Reply? && reply.cache == MISS ==>
      basis.Some? && (reply.status == 200 ==> Carries(u, k, basis.value, reply.body))
  }

  ghost predicate TaskSound(u: Setup, k: Key, p: Phase, futures: map<Call, Fetch>, last: map<Key, Stored>) {
    match p
    case Ready(again, sent) => !again ==> TagStands(k, last, sent)
    case Fetching(trip) => !trip.again ==> TagStands(k, last, trip.sent)
    case Returning(trip, r, at) => !trip.again && r.notModified ==> BodyStands(u, k, last, at)
    case Waiting(c) =>
      c in futures && !c.again && futures[c].resp.notModified ==> BodyStands(u, k, last, futures[c].span.at)
    case Reviving(f, _) => BodyStands(u, k, last, f.span.at)
    case Held(f, _, b) => Carries(u, k, f, b)
    case Writing(w, f) => w.Putting? ==> Carries(u, k, f, w.body) && TagFits(u, k, f, w.etag)
    case Finished(reply, basis, _) => ReplySound(u, k, reply, basis)
    case _ => true
  }

  ghost predicate TasksSound(u: Setup, w: World) {
    forall t :: t in w.tasks ==> TaskSound(u, w.tasks[t].key, w.tasks[t].phase, w.futures, w.last)
  }

  ghost predicate StoresSound(u: Setup, w: World) {
    && (forall k :: k in w.last ==> StoredSound(u, k, w.last[k]))
    && (forall k :: k in w.hot ==> StoredSound(u, k, w.hot[k]))
  }

  ghost predicate Inv(u: Setup, w: World) {
    OneBodyPerTag(u.held) && CacheInv(u, w) && StoresSound(u, w) && TasksSound(u, w)
  }

  lemma EmptyInv(u: Setup, now: Time)
    requires OneBodyPerTag(u.held) && RoundTrips(u.cfg.codec)
    ensures Inv(u, Empty(now))
  {
    EmptyCacheInv(u, now);
  }

  // -------------------------------------------------------------- the moving task

  /** A 304 validates the body that a sound `set` stored under the ETag that was sent. */
  lemma TagValidates(u: Setup, k: Key, x: Stored, r: Resp, sent: Option<string>, at: Time)
    requires OneBodyPerTag(u.held) && StoredSound(u, k, x) && x.args.etag == sent
    requires Answers(r, sent, u.held(k, at)) && r.notModified
    ensures x.args.body == u.held(k, at).body
  {
    assert u.held(k, x.basis.span.at).etag == sent == u.held(k, at).etag;
  }

  lemma SettleSound(u: Setup, k: Key, f: Fetch, leads: bool, now: Time, futures: map<Call, Fetch>,
                    last: map<Key, Stored>)
    requires Fetched(u, k, f, now)
    requires f.resp.notModified && !f.call.again ==> BodyStands(u, k, last, f.span.at)
    ensures TaskSound(u, k, Settle(u.st, f, leads), futures, last)
  {
  }

  lemma ReviveSound(u: Setup, k: Key, f: Fetch, leads: bool, b: Bytes, ttl: int, now: Time,
                    futures: map<Call, Fetch>, last: map<Key, Stored>)
    requires Fetched(u, k, f, now) && f.resp.notModified && Carries(u, k, f, b)
    ensures TaskSound(u, k, Revive(f, leads, b, ttl), futures, last)
  {
  }

  lemma TagReadStands(u: Setup, w: World, k: Key, at: Time)
    requires CacheInv(u, w) && w.now <= at
    ensures TagStands(k, w.last, Live(w.store.etag, k, at))
  {
    assert KeySound(u, w, k);
    assert Live(w.store.etag, k, at) == if TaggedUntil(ArgsIn(w.last, k), at) then w.last[k].args.etag else None;
  }

  lemma AdvanceSound(u: Setup, w: World, t: TaskId, at: Time, fb: Fallback)
    requires Inv(u, w) && t in w.tasks && OnItsOwn(w.tasks[t].phase) && w.now <= at
    ensures var k, p := w.tasks[t].key, w.tasks[t].phase;
            forall last :: p.Writing? || last == w.last ==>
              TaskSound(u, k, Advance(u.cfg, u.st, k, w.store, p, at, fb), w.futures, last)
  {
    var k, p := w.tasks[t].key, w.tasks[t].phase;
    assert TaskSound(u, k, p, w.futures, w.last) && PhaseFits(u, k, p, w.now);
    match p
    case Unread => TagReadStands(u, w, k, at);
    case Reviving(f, leads) =>
      BasisFetched(u, w, t);
      StaleIsLast(u, w, k, at);
      var b := StaleCopy(u.cfg, w.store, k, at);
      if b.Some? && f.resp.maxAge.Some? {
        ReviveSound(u, k, f, leads, b.value, f.resp.maxAge.value, w.now, w.futures, w.last);
      }
    case Held(f, leads, b) =>
      BasisFetched(u, w, t);
      ReviveSound(u, k, f, leads, b, Breaker.Or(Live(w.store.ttl, k, at), 300), w.now, w.futures, w.last);
    case _ =>
  }

  /** The moving task keeps its promise. */
  lemma OwnTaskSound(u: Setup, w: World, x: Tick)
    requires Inv(u, w) && Legal(u, w, x)
    ensures var w' := Step(u, w, x); TaskSound(u, KeyOf(w, x.e), w'.tasks[x.e.t].phase, w'.futures, w'.last)
  {
    var k, w' := KeyOf(w, x.e), Step(u, w, x);
    if x.e.t in w.tasks {
      assert TaskSound(u, k, w.tasks[x.e.t].phase, w.futures, w.last);
      assert PhaseFits(u, k, w.tasks[x.e.t].phase, w.now) && Grounded(w, x.e.t);
    }
    match x.e
    case Proceed(t, fb) => AdvanceSound(u, w, t, x.at, fb);
    case Answer(t, r) =>
      if !w.tasks[t].phase.trip.again && r.notModified {
        TagValidates(u, k, w.last[k], r, w.tasks[t].phase.trip.sent, x.at);
      }
    case Receive(t) => SettleSound(u, k, Completed(w, x).value, true, x.at, w'.futures, w'.last);
    case Wake(t) =>
      assert FutureFits(u, w, w.tasks[t].phase.call);
      SettleSound(u, k, w.futures[w.tasks[t].phase.call], false, x.at, w'.futures, w'.last);
    case Join(t, l) => assert Grounded(w, l);
    case _ =>
  }

  // -------------------------------------------------------------- the other tasks

  /** Those who wait for an execution learn of it what its leader has learnt. */
  lemma OthersSeeReceipt(u: Setup, w: World, x: Tick, o: TaskId)
    requires Inv(u, w) && Possible(u, w, x) && x.e.Receive? && o in w.tasks && o != x.e.t
    ensures var w' := Step(u, w, x); TaskSound(u, w.tasks[o].key, w.tasks[o].phase, w'.futures, w'.last)
  {
    assert TaskSound(u, w.tasks[o].key, w.tasks[o].phase, w.futures, w.last);
    assert TaskSound(u, w.tasks[x.e.t].key, w.tasks[x.e.t].phase, w.futures, w.last);
    assert Grounded(w, o);
  }

  /** A serialised `set` leaves every exposed task's ETag and validated body standing. */
  lemma SetLeavesSound(u: Setup, k: Key, p: Phase, mine: Task, futures: map<Call, Fetch>, last: map<Key, Stored>,
                       x: Stored)
    requires TaskSound(u, k, p, futures, last) && TaskSound(u, mine.key, mine.phase, futures, last)
    requires mine.phase.Writing? && mine.phase.w.Putting? && x.basis == mine.phase.f && x.args.body == mine.phase.w.body
    requires x.basis.call in futures && futures[x.basis.call] == x.basis
    requires p.Reviving? ==> p.f.call in futures && futures[p.f.call] == p.f && p.f.resp.notModified
    requires x.basis.resp.notModified ==> x.basis.resp.pageCount <= 1
    requires k == mine.key ==> !Exposed(futures, p, mine.phase.f.call)
    ensures TaskSound(u, k, p, futures, last[mine.key := x])
  {
  }

  lemma OthersSeeSet(u: Setup, w: World, x: Tick, o: TaskId)
    requires Inv(u, w) && Legal(u, w, x) && EventEffect(u, w, x).DidSet? && o in w.tasks && o != x.e.t
    ensures var w' := Step(u, w, x); TaskSound(u, w.tasks[o].key, w.tasks[o].phase, w'.futures, w'.last)
  {
    var mine := w.tasks[x.e.t];
    var stored := Stored(EventEffect(u, w, x).args, mine.phase.f);
    assert TaskSound(u, w.tasks[o].key, w.tasks[o].phase, w.futures, w.last);
    assert TaskSound(u, mine.key, mine.phase, w.futures, w.last);
    assert Grounded(w, o) && PhaseFits(u, w.tasks[o].key, w.tasks[o].phase, w.now);
    BasisFetched(u, w, x.e.t);
    assert w.tasks[o].key == mine.key ==> !Exposed(w.futures, w.tasks[o].phase, mine.phase.f.call);
    SetLeavesSound(u, w.tasks[o].key, w.tasks[o].phase, mine, w.futures, w.last, stored);
  }

  lemma OtherTaskSound(u: Setup, w: World, x: Tick, o: TaskId)
    requires Inv(u, w) && Legal(u, w, x) && o in w.tasks && o != x.e.t
    ensures var w' := Step(u, w, x);
            w'.tasks[o] == w.tasks[o] && TaskSound(u, w.tasks[o].key, w.tasks[o].phase, w'.futures, w'.last)
  {
    if x.e.Receive? {
      OthersSeeReceipt(u, w, x, o);
    } else if EventEffect(u, w, x).DidSet? {
      OthersSeeSet(u, w, x, o);
    } else {
      assert TaskSound(u, w.tasks[o].key, w.tasks[o].phase, w.futures, w.last);
    }
  }

  // ------------------------------------------------------------------- every step

  lemma StepKeepsStores(u: Setup, w: World, x: Tick)
    requires Inv(u, w) && Possible(u, w, x)
    ensures StoresSound(u, Step(u, w, x))
  {
    if EventEffect(u, w, x).DidSet? {
      assert TaskSound(u, w.tasks[x.e.t].key, w.tasks[x.e.t].phase, w.futures, w.last);
    }
  }

  lemma StepKeepsInv(u: Setup, w: World, x: Tick)
    requires Inv(u, w) && Legal(u, w, x)
    ensures Inv(u, Step(u, w, x))
  {
    var w' := Step(u, w, x);
    StepKeepsCacheInv(u, w, x);
    StepKeepsStores(u, w, x);
    forall o | o in w'.tasks ensures TaskSound(u, w'.tasks[o].key, w'.tasks[o].phase, w'.futures, w'.last) {
      if o == x.e.t {
        OwnTaskSound(u, w, x);
      } else {
        OtherTaskSound(u, w, x, o);
      }
    }
  }

  lemma {:induction false} RunKeepsInv(u: Setup, w: World, xs: seq<Tick>, w': World)
    requires Inv(u, w) && SerialRuns(u, w, xs, w')
    ensures Inv(u, w')
    decreases |xs|
  {
    if xs != [] {
      StepKeepsInv(u, w, xs[0]);
      RunKeepsInv(u, Step(u, w, xs[0]), xs[1..], w');
    }
  }

  // ----------------------------------------------------------------- main claims

  ghost predicate ServedMiss(w: World, t: TaskId) {
    && t in w.tasks && w.tasks[t].phase.Finished?
    && var reply := w.tasks[t].phase.reply; reply.Reply? && reply.cache == MISS && reply.status == 200
  }

  /**
   The execution f began when its leader, a task of the same key, was there already, was
   then answered, and came back while task t was there.
   */
  ghost predicate WhileOpen(w: World, t: TaskId, f: Fetch)
    requires t in w.tasks
  {
    && f.call.leader in w.tasks && w.tasks[f.call.leader].key == w.tasks[t].key
    && w.tasks[f.call.leader].arrived <= f.span.since <= f.span.at <= f.span.received <= w.now
    && w.tasks[t].arrived <= f.span.received
  }

  /**
   Transparency: a 200 marked MISS, given to a leader or to a waiter, rests on an
   execution that was under way while the request was open, and its body is what
   upstream held when it answered that execution, be it a 200, a 304 and the stale copy,
   or a refetch after a 304.  To the leader itself it was answered while its request was
   open; a waiter may have joined when the answer was on its way already.  A merged
   multi-page body is passed on as it was merged.
   */
  lemma Transparency(u: Setup, w: World, t: TaskId)
    requires Inv(u, w) && ServedMiss(w, t)
    ensures w.tasks[t].phase.basis.Some?
    ensures var task, f := w.tasks[t], w.tasks[t].phase.basis.value;
            && WhileOpen(w, t, f)
            && task.phase.reply.body == if f.resp.pageCount <= 1 then u.held(task.key, f.span.at).body else f.resp.body
  {
    assert TaskSound(u, w.tasks[t].key, w.tasks[t].phase, w.futures, w.last);
    BasisFetched(u, w, t);
  }

  /** So it is in every run from an empty cache that serialises the operations on each key. */
  lemma RunTransparency(u: Setup, start: Time, xs: seq<Tick>, w: World, t: TaskId)
    requires OneBodyPerTag(u.held) && RoundTrips(u.cfg.codec) && SerialRuns(u, Empty(start), xs, w)
    requires ServedMiss(w, t)
    ensures w.tasks[t].phase.basis.Some?
    ensures var task, f := w.tasks[t], w.tasks[t].phase.basis.value;
            && WhileOpen(w, t, f)
            && task.phase.reply.body == if f.resp.pageCount <= 1 then u.held(task.key, f.span.at).body else f.resp.body
  {
    EmptyInv(u, start);
    RunKeepsInv(u, Empty(start), xs, w);
    Transparency(u, w, t);
  }

  /** What the cache holds for a key is what upstream held when the last `set`s were answered. */
  lemma CachedIsHeld(u: Setup, start: Time, xs: seq<Tick>, w: World, k: Key)
    requires OneBodyPerTag(u.held) && RoundTrips(u.cfg.codec) && SerialRuns(u, Empty(start), xs, w)
    ensures k in w.hot && w.hot[k].basis.resp.pageCount <= 1 ==>
              w.hot[k].args.body == u.held(k, w.hot[k].basis.span.at).body
    ensures k in w.last && w.last[k].basis.resp.pageCount <= 1 ==>
              w.last[k].args.body == u.held(k, w.last[k].basis.span.at).body
    ensures k in w.last && Truthy(w.last[k].args.etag) ==>
              w.last[k].basis.resp.pageCount <= 1 && w.last[k].args.etag == u.held(k, w.last[k].basis.span.at).etag
  {
    EmptyInv(u, start);
    RunKeepsInv(u, Empty(start), xs, w);
  }
}
