/**
 How long entries live and how old served bodies are (app/cache.py:71-131,
 app/proxy.py:134-173, 215-220, 240-247, 311-314).  Nothing here needs operations on a
 key to be serialised.
 */
module Lifetimes {
  import opened Common
  import opened Cache
  import opened Dispatch
  import opened DispatchRuns
  import Breaker

  /** The phase a task gets to by its own round trip. */
  function After(u: Setup, w: World, x: Tick): Phase
    requires Enabled(w, x.e)
  {
    Step(u, w, x).tasks[x.e.t].phase
  }

  /** A task at phase `p` takes its round trip. */
  ghost predicate Takes(u: Setup, w: World, x: Tick) {
    Possible(u, w, x) && x.e.Proceed?
  }

  /**
   A body is served as a HIT exactly while the last `set` that stored one is younger than
   its TTL; it is the body of that `set`, which upstream had answered for no later.
   */
  lemma HitAge(u: Setup, w: World, x: Tick)
    requires CacheInv(u, w) && Takes(u, w, x) && w.tasks[x.e.t].phase.Looking?
    ensures var k := KeyOf(w, x.e);
            After(u, w, x).Finished? <==> k in w.hot && x.at < w.hot[k].args.at + w.hot[k].args.ttl as real
    ensures After(u, w, x).Finished? ==>
              var hot := w.hot[KeyOf(w, x.e)];
              && After(u, w, x).reply == Reply(200, hot.args.body, HIT, None)
              && hot.basis.span.at <= hot.args.at <= x.at
              && x.at - hot.basis.span.at < hot.args.ttl as real + (hot.args.at - hot.basis.span.at)
  {
    var k := KeyOf(w, x.e);
    assert KeySound(u, w, k);
    assert Live(w.store.body, k, x.at)
           == if HotUntil(ArgsIn(w.hot, k), x.at) then Some(Encode(u.cfg, w.hot[k].args.body)) else None;
    if k in w.hot { EncodeReadsBack(u.cfg, w.hot[k].args.body); }
  }

  /**
   A body is served as STALE exactly while the last `set` is younger than its TTL plus
   the stale window and its body was not too large to keep.
   */
  lemma StaleAge(u: Setup, w: World, x: Tick)
    requires CacheInv(u, w) && Takes(u, w, x) && w.tasks[x.e.t].phase.Degraded?
    ensures var k, st := KeyOf(w, x.e), u.st;
            After(u, w, x).reply.cache == STALE <==>
              && k in w.last && st.staleCacheSeconds > 0
              && (st.staleCacheMaxBodyBytes > 0 ==> |w.last[k].args.body| <= st.staleCacheMaxBodyBytes)
              && x.at < w.last[k].args.at + (w.last[k].args.ttl + st.staleCacheSeconds) as real
    ensures After(u, w, x).reply.cache == STALE ==>
              var last := w.last[KeyOf(w, x.e)];
              && After(u, w, x).reply == Reply(200, last.args.body, STALE, None)
              && last.basis.span.at <= last.args.at <= x.at
              && (u.st.staleCacheMaxBodyBytes > 0 ==> |last.args.body| <= u.st.staleCacheMaxBodyBytes)
  {
    assert KeySound(u, w, KeyOf(w, x.e));
    StaleIsLast(u, w, KeyOf(w, x.e), x.at);
  }

  /**
   A 4xx is served as a HIT exactly while the last `set_negative`, if no `set` came after
   it, is younger than its TTL.  Body and status are both those of one response that
   upstream gave no later, never a 420 or 429; the TTL is that response's max-age, or
   else the configured one.
   */
  lemma NegativeHitAge(u: Setup, w: World, x: Tick)
    requires CacheInv(u, w) && Takes(u, w, x) && w.tasks[x.e.t].phase.Missed?
    ensures var k := KeyOf(w, x.e);
            After(u, w, x).Finished? <==> k in w.neg && x.at < w.neg[k].args.at + w.neg[k].args.ttl as real
    ensures After(u, w, x).Finished? ==>
              var k := KeyOf(w, x.e);
              var f, n := w.neg[k].basis, w.neg[k].args;
              && After(u, w, x).reply == Reply(f.resp.status, f.resp.body, HIT, None)
              && Answers(f.resp, f.sent, u.held(k, f.span.at))
              && 400 <= f.resp.status < 500 && f.resp.status != 420 && f.resp.status != 429
              && n.ttl == (if f.resp.maxAge.Some? then f.resp.maxAge.value else u.st.negativeCacheTtlSeconds)
              && f.span.at <= n.at <= x.at
              && x.at - f.span.at < n.ttl as real + (n.at - f.span.at)
  {
    var k := KeyOf(w, x.e);
    assert KeySound(u, w, k);
    assert Live(w.store.negBody, k, x.at)
           == if RefusedUntil(RefusedIn(w.neg, k), x.at) then Some(w.neg[k].args.body) else None;
    assert Live(w.store.negStatus, k, x.at)
           == if RefusedUntil(RefusedIn(w.neg, k), x.at) then Some(w.neg[k].args.status) else None;
  }

  /** An oversize body leaves no stale copy behind, whatever was there before it. */
  lemma OversizeLeavesNoStale(u: Setup, w: World, x: Tick, t: Time)
    requires CacheInv(u, w) && Possible(u, w, x) && EventEffect(u, w, x).DidSet?
    requires 0 < u.st.staleCacheMaxBodyBytes < |EventEffect(u, w, x).args.body| && x.at <= t
    ensures StaleCopy(u.cfg, Step(u, w, x).store, KeyOf(w, x.e), t) == None
  {
    StepKeepsCacheInv(u, w, x);
    StaleIsLast(u, Step(u, w, x), KeyOf(w, x.e), t);
  }

  /** The ETag and the TTL entry are live together, and while they are they are those of the last `set`. */
  lemma KeyLifetimes(u: Setup, w: World, k: Key, t: Time)
    requires CacheInv(u, w) && w.now <= t
    ensures Live(w.store.etag, k, t).Some? <==> Live(w.store.ttl, k, t).Some?
    ensures Live(w.store.etag, k, t).Some? ==>
              && k in w.last && Live(w.store.etag, k, t) == w.last[k].args.etag
              && Live(w.store.ttl, k, t) == Some(w.last[k].args.ttl)
              && (StaleCopy(u.cfg, w.store, k, t).Some? ==>
                  StaleCopy(u.cfg, w.store, k, t).value == w.last[k].args.body)
    ensures Live(w.store.negBody, k, t).Some? <==> Live(w.store.negStatus, k, t).Some?
  {
    assert KeySound(u, w, k);
    StaleIsLast(u, w, k, t);
    assert Live(w.store.etag, k, t) == if TaggedUntil(ArgsIn(w.last, k), t) then w.last[k].args.etag else None;
    assert Live(w.store.ttl, k, t) == if TaggedUntil(ArgsIn(w.last, k), t) then Some(w.last[k].args.ttl) else None;
  }

  // ------------------------------------------------------------------- restoring

  /** After two misses a request asks with the ETag of the last `set` while that lives, else with none. */
  lemma TagSent(u: Setup, w: World, x: Tick)
    requires CacheInv(u, w) && Takes(u, w, x) && w.tasks[x.e.t].phase.Unread?
    ensures var k := KeyOf(w, x.e);
            After(u, w, x) == Ready(false, if TaggedUntil(ArgsIn(w.last, k), x.at) then w.last[k].args.etag else None)
  {
    var k := KeyOf(w, x.e);
    assert KeySound(u, w, k);
    assert Live(w.store.etag, k, x.at) == if TaggedUntil(ArgsIn(w.last, k), x.at) then w.last[k].args.etag else None;
  }

  /** What it asks with is what it has read, from its asking to its answer. */
  lemma AsksAsRead(u: Setup, w: World, x: Tick)
    requires Possible(u, w, x) && x.e.Lead?
    ensures var p := w.tasks[x.e.t].phase;
            After(u, w, x) == Fetching(Trip(p.again, true, p.sent, x.at))
  {
  }

  /**
   A restore under a 304 without freshness information keeps the TTL of the last `set`
   exactly when the TTL entry is still live when it is read, which is after the fetch,
   and is not zero; otherwise the TTL becomes the default of 300 seconds.
   */
  lemma RestoreKeepsTtl(u: Setup, w: World, x: Tick)
    requires CacheInv(u, w) && Takes(u, w, x) && w.tasks[x.e.t].phase.Held? && w.tasks[x.e.t].phase.leads
    ensures var k, p := KeyOf(w, x.e), After(u, w, x);
            && p.Writing? && p.w.Putting? && p.w.body == w.tasks[x.e.t].phase.body
            && p.w.ttl == if TaggedUntil(ArgsIn(w.last, k), x.at) && w.last[k].args.ttl != 0
                          then w.last[k].args.ttl else 300
  {
    var k := KeyOf(w, x.e);
    assert KeySound(u, w, k);
    assert Live(w.store.ttl, k, x.at)
           == if TaggedUntil(ArgsIn(w.last, k), x.at) then Some(w.last[k].args.ttl) else None;
  }

  /** A store ends in an exception exactly when it restores a body under a 304 that says max-age=0. */
  lemma RaisesIffZeroMaxAge(u: Setup, w: World, x: Tick)
    requires CacheInv(u, w) && Takes(u, w, x) && w.tasks[x.e.t].phase.Writing?
    ensures var p := w.tasks[x.e.t].phase;
            After(u, w, x).reply.Raised? <==> p.w.Putting? && p.f.resp.notModified && p.f.resp.maxAge == Some(0)
  {
    assert PhaseFits(u, KeyOf(w, x.e), w.tasks[x.e.t].phase, w.now);
  }

  // ---------------------------------------------------------------------- chains

  /** It brings no new body: not a 200, and a 304 only without Cache-Control. */
  ghost predicate Revalidates(r: Resp) {
    r.status != 200 && (r.notModified ==> r.maxAge == None)
  }

  /** On key k upstream only ever answers 304 without Cache-Control, or not 200 at all, and TTLs are read in time. */
  ghost predicate Unchanging(w: World, x: Tick, k: Key)
    requires Enabled(w, x.e)
  {
    KeyOf(w, x.e) == k ==>
      && (x.e.Answer? ==> Revalidates(x.e.resp))
      && (x.e.Proceed? && w.tasks[x.e.t].phase.Held? ==> TaggedUntil(ArgsIn(w.last, k), x.at))
  }

  ghost predicate UnchangingRun(u: Setup, w: World, xs: seq<Tick>, k: Key)
    decreases |xs|
  {
    xs != [] ==>
      Enabled(w, xs[0].e) && Unchanging(w, xs[0], k) && UnchangingRun(u, Step(u, w, xs[0]), xs[1..], k)
  }

  /** Nobody on k is under way to writing anything but this body, ETag and TTL. */
  ghost predicate OnCourse(p: Phase, a: SetArgs) {
    match p
    case Ready(again, sent) => !again && Truthy(sent) ==> sent == a.etag
    case Fetching(trip) => !trip.again && Truthy(trip.sent) ==> trip.sent == a.etag
    case Returning(trip, r, _) => Revalidates(r) && (!trip.again && Truthy(trip.sent) ==> trip.sent == a.etag)
    case Reviving(f, leads) => f.resp.maxAge == None && (leads ==> f.sent == f.resp.etag == a.etag && Truthy(a.etag))
    case Held(f, leads, b) => leads ==> f.sent == f.resp.etag == a.etag && Truthy(a.etag) && b == a.body
    case Writing(w, _) => w.Putting? ==> w.body == a.body && w.ttl == a.ttl && w.etag == a.etag
    case _ => true
  }

  ghost predicate Course(w: World, k: Key, a: SetArgs) {
    && k in w.last && SameCourse(w.last[k].args, a)
    && (forall t :: t in w.tasks && w.tasks[t].key == k ==>
          OnCourse(w.tasks[t].phase, a) && Joined(w.futures, w.tasks[t].phase))
  }

  predicate SameCourse(b: SetArgs, a: SetArgs) {
    b.body == a.body && b.ttl == a.ttl && b.etag == a.etag
  }

  /** Executions that are waited for did not bring a new body. */
  ghost predicate Joined(futures: map<Call, Fetch>, p: Phase) {
    p.Waiting? && p.call in futures ==> Revalidates(futures[p.call].resp)
  }

  lemma AdvanceOnCourse(u: Setup, w: World, x: Tick, a: SetArgs)
    requires CacheInv(u, w) && Takes(u, w, x) && Unchanging(w, x, KeyOf(w, x.e)) && a.ttl > 0
    requires KeyOf(w, x.e) in w.last && SameCourse(w.last[KeyOf(w, x.e)].args, a) && OnCourse(w.tasks[x.e.t].phase, a)
    ensures OnCourse(After(u, w, x), a) && !After(u, w, x).Waiting?
  {
    var k, p := KeyOf(w, x.e), w.tasks[x.e.t].phase;
    assert KeySound(u, w, k);
    StaleIsLast(u, w, k, x.at);
    match p
    case Unread =>
      assert Live(w.store.etag, k, x.at) == if TaggedUntil(ArgsIn(w.last, k), x.at) then w.last[k].args.etag else None;
    case Held(_, _, _) =>
      assert Live(w.store.ttl, k, x.at) == Some(w.last[k].args.ttl);
    case _ =>
  }

  lemma OwnCourse(u: Setup, w: World, x: Tick, k: Key, a: SetArgs)
    requires CacheInv(u, w) && Possible(u, w, x) && Unchanging(w, x, k) && Course(w, k, a) && a.ttl > 0
    requires KeyOf(w, x.e) == k
    ensures var w' := Step(u, w, x); OnCourse(w'.tasks[x.e.t].phase, a) && Joined(w'.futures, w'.tasks[x.e.t].phase)
  {
    if x.e.t in w.tasks {
      assert OnCourse(w.tasks[x.e.t].phase, a) && Joined(w.futures, w.tasks[x.e.t].phase);
    }
    match x.e
    case Proceed(_, _) => AdvanceOnCourse(u, w, x, a);
    case Join(t, l) => assert Grounded(w, l);
    case _ =>
  }

  /** What a task waits for does not change but by an answer on its own key. */
  lemma OtherJoined(u: Setup, w: World, x: Tick, k: Key, a: SetArgs, o: TaskId)
    requires CacheInv(u, w) && Possible(u, w, x) && Unchanging(w, x, k) && Course(w, k, a)
    requires o in w.tasks && w.tasks[o].key == k && o != x.e.t
    ensures Joined(Step(u, w, x).futures, w.tasks[o].phase)
  {
    assert Joined(w.futures, w.tasks[o].phase) && Grounded(w, o);
    if x.e.Receive? && KeyOf(w, x.e) == k { assert OnCourse(w.tasks[x.e.t].phase, a); }
  }

  lemma StepKeepsCourse(u: Setup, w: World, x: Tick, k: Key, a: SetArgs)
    requires CacheInv(u, w) && Possible(u, w, x) && Unchanging(w, x, k) && Course(w, k, a) && a.ttl > 0
    ensures Course(Step(u, w, x), k, a)
  {
    var w' := Step(u, w, x);
    if EventEffect(u, w, x).DidSet? && KeyOf(w, x.e) == k {
      assert OnCourse(w.tasks[x.e.t].phase, a);
    }
    forall t | t in w'.tasks && w'.tasks[t].key == k
      ensures OnCourse(w'.tasks[t].phase, a) && Joined(w'.futures, w'.tasks[t].phase) {
      if t == x.e.t {
        OwnCourse(u, w, x, k, a);
      } else {
        assert OnCourse(w.tasks[t].phase, a);
        OtherJoined(u, w, x, k, a, t);
      }
    }
  }

  lemma {:induction false} RunKeepsCourse(u: Setup, w: World, xs: seq<Tick>, w': World, k: Key, a: SetArgs)
    requires CacheInv(u, w) && Runs(u, w, xs, w') && UnchangingRun(u, w, xs, k) && Course(w, k, a) && a.ttl > 0
    ensures Course(w', k, a)
    decreases |xs|
  {
    if xs != [] {
      StepKeepsCacheInv(u, w, xs[0]);
      StepKeepsCourse(u, w, xs[0], k, a);
      RunKeepsCourse(u, Step(u, w, xs[0]), xs[1..], w', k, a);
    }
  }

  /**
   As long as upstream only revalidates, a chain of restores of any length, by any number
   of concurrent requests, keeps the original body, ETag and TTL.
   */
  lemma RestoreChainKeepsTtl(u: Setup, w: World, xs: seq<Tick>, w': World, k: Key)
    requires CacheInv(u, w) && Runs(u, w, xs, w') && UnchangingRun(u, w, xs, k)
    requires k in w.last && w.last[k].args.ttl > 0
    requires forall t :: t in w.tasks && w.tasks[t].key == k ==>
               var p := w.tasks[t].phase; p.Looking? || p.Missed? || p.Unread? || p.Finished?
    ensures k in w'.last && SameCourse(w'.last[k].args, w.last[k].args)
  {
    RunKeepsCourse(u, w, xs, w', k, w.last[k].args);
  }
}
