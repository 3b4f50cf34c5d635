/**
 When operations on one key do overlap (app/proxy.py:148-173 against
 app/collector.py:57): what a restore then does, and a run in which it goes wrong.
 */
module Interleaving {
  import opened Common
  import opened Cache
  import opened Dispatch
  import opened DispatchRuns
  import opened Scenarios
  import Breaker
  import Freshness
  import Lifetimes

  /** Task l has read this ETag and sends, or has sent, no other with its conditional fetch. */
  ghost predicate Sends(w: World, l: TaskId, tag: Option<string>) {
    && l in w.tasks
    && (match w.tasks[l].phase
        case Looking => false
        case Missed => false
        case Unread => false
        case Ready(again, sent) => !again ==> sent == tag
        case Fetching(trip) => !trip.again ==> trip.sent == tag
        case Returning(trip, _, _) => !trip.again ==> trip.sent == tag
        case _ => true)
    && (Call(l, false) in w.futures ==> w.futures[Call(l, false)].sent == tag)
  }

  lemma StepKeepsSends(u: Setup, w: World, x: Tick, l: TaskId, tag: Option<string>)
    requires Possible(u, w, x) && Sends(w, l, tag)
    ensures Sends(Step(u, w, x), l, tag) && Step(u, w, x).tasks[l].key == w.tasks[l].key
  {
  }

  lemma {:induction false} RunKeepsSends(u: Setup, w: World, xs: seq<Tick>, w': World, l: TaskId, tag: Option<string>)
    requires Runs(u, w, xs, w') && Sends(w, l, tag)
    ensures Sends(w', l, tag) && w'.tasks[l].key == w.tasks[l].key
    decreases |xs|
  {
    if xs != [] {
      StepKeepsSends(u, w, xs[0], l, tag);
      RunKeepsSends(u, Step(u, w, xs[0]), xs[1..], w', l, tag);
    }
  }

  /**
   A task reads its ETag in world w0, where the last `set` paired a body with upstream's
   ETag for it.  Whatever runs after that, serialised or not: if its execution is answered
   304 and it, or a waiter of that execution, finds a stale copy, then that is the body
   the 304 validates exactly when the last `set` by then has the body that the last `set`
   had in w0.
   */
  lemma OverlappedRestore(u: Setup, w0: World, x0: Tick, xs: seq<Tick>, w: World, x: Tick)
    requires OneBodyPerTag(u.held) && CacheInv(u, w0) && Lifetimes.Takes(u, w0, x0) && w0.tasks[x0.e.t].phase.Unread?
    requires var k := KeyOf(w0, x0.e); k in w0.last ==> Freshness.StoredSound(u, k, w0.last[k])
    requires Runs(u, Step(u, w0, x0), xs, w) && Lifetimes.Takes(u, w, x)
    requires w.tasks[x.e.t].phase.Reviving? && w.tasks[x.e.t].phase.f.call.leader == x0.e.t
    requires StaleCopy(u.cfg, w.store, KeyOf(w, x.e), x.at).Some?
    ensures KeyOf(w, x.e) in w0.last && KeyOf(w, x.e) in w.last
    ensures var k, f := KeyOf(w, x.e), w.tasks[x.e.t].phase.f;
            StaleCopy(u.cfg, w.store, k, x.at).value == u.held(k, f.span.at).body
            <==> w.last[k].args.body == w0.last[k].args.body
  {
    var k, f, w1 := KeyOf(w, x.e), w.tasks[x.e.t].phase.f, Step(u, w0, x0);
    var tag := Live(w0.store.etag, KeyOf(w0, x0.e), x0.at);
    StepKeepsCacheInv(u, w0, x0);
    RunKeepsCacheInv(u, w1, xs, w);
    assert Grounded(w0, x0.e.t);
    RunKeepsSends(u, w1, xs, w, x0.e.t, tag);
    BasisFetched(u, w, x.e.t);
    assert PhaseFits(u, k, w.tasks[x.e.t].phase, w.now);
    Freshness.TagReadStands(u, w0, k, x0.at);
    Freshness.TagValidates(u, k, w0.last[k], f.resp, f.sent, f.span.at);
    StaleIsLast(u, w, k, x.at);
  }

  /** A store that Redis takes. */
  lemma Puts(r: iset<World>, w: World, t: TaskId, at: Time) returns (w': World)
    requires Closed(Plainly(), false, r) && w in r && w.now <= at && K !in w.store.negBody
    requires t in w.tasks && w.tasks[t].key == K && w.tasks[t].phase.Writing? && w.tasks[t].phase.w.Putting?
    requires w.tasks[t].phase.w.ttl > 0
    ensures w' in r && w'.now == at && K !in w'.store.negBody
    ensures var p := w.tasks[t].phase;
            && w'.tasks == w.tasks[t := w.tasks[t].(phase := Written(SETTINGS, p.w, p.f, at))]
            && K in w'.last && w'.last[K].args == SetArgs(p.w.body, p.w.ttl, p.w.etag, 3600, at)
            && w'.hot == w.hot[K := w'.last[K]]
  {
    w' := Then(Plainly(), w, Tick(at, Proceed(t, NOTHING)));
    assert w' in r;
  }

  /** From the stale copy in hand to the restore, all at `at`. */
  lemma Restores(r: iset<World>, w: World, t: TaskId, f: Fetch, b: Bytes, at: Time) returns (w': World)
    requires Closed(Plainly(), false, r) && w in r && CacheInv(Plainly(), w) && w.now <= at && K !in w.store.negBody
    requires t in w.tasks && w.tasks[t].key == K && w.tasks[t].phase == Held(f, true, b) && Truthy(f.resp.etag)
    requires TaggedUntil(ArgsIn(w.last, K), at) && w.last[K].args.ttl > 0
    ensures w' in r && w'.now == at && K !in w'.store.negBody
    ensures w'.tasks == w.tasks[t := w.tasks[t].(phase := Finished(Reply(200, b, MISS, None), Some(f), None))]
    ensures K in w'.last && w'.last[K].args == SetArgs(b, w.last[K].args.ttl, f.resp.etag, 3600, at)
    ensures w'.hot == w.hot[K := w'.last[K]]
  {
    var u, ttl := Plainly(), w.last[K].args.ttl;
    assert KeySound(u, w, K);
    assert Live(w.store.ttl, K, at) == Some(ttl);
    var p := Revive(f, true, b, ttl);
    Reads(u, false, r, w, t, at, p);
    w' := Puts(r, With(w, t, w.tasks[t].(phase := p), at), t, at);
  }

  /** A request comes, is answered 304, finds the stale copy and restores it, all at `at`. */
  lemma Round(r: iset<World>, w: World, t: TaskId, at: Time, tag: string) returns (w': World)
    requires r == Reachable(Plainly(), false, 0.0) && w in r && Expired(Plainly(), w, K, at, tag) && tag != ""
    requires t !in w.tasks && w.last[K].args.ttl > 0 && StaleUntil(ArgsIn(w.last, K), at)
    ensures w' in r && w'.now == at
    ensures t in w'.tasks && w'.tasks[t].key == K && w'.tasks[t].arrived == at
    ensures w'.tasks[t].phase
            == Finished(Reply(200, w.last[K].args.body, MISS, None), Some(Revalidation(t, at, tag, None)), None)
  {
    var f, b := Revalidation(t, at, tag, None), w.last[K].args.body;
    ReachableClosed(Plainly(), false, 0.0);
    Revalidates(Plainly(), false, r, w, t, K, at, tag, None);
    var v := With(w, t, Task(K, at, Reviving(f, true)), at).(futures := w.futures[f.call := f]);
    ReachableSound(false, v);
    var found := Finds(false, r, v, t, f, at);
    ReachableSound(false, found);
    w' := Restores(r, found, t, f, b, at);
  }

  const ASKED := Revalidation(1, 310.0, "a", None)

  /** OLD is stored at 0; a request is answered 304 at 310, when upstream holds OLD. */
  lemma Asked() returns (w: World)
    ensures w in Reachable(Plainly(), false, 0.0) && w.now == 310.0 && K !in w.store.negBody
    ensures w.tasks.Keys == {0, 1} && w.tasks[0].phase.Finished? && w.tasks[1] == Task(K, 310.0, Reviving(ASKED, true))
  {
    var u, r := Plainly(), Reachable(Plainly(), false, 0.0);
    ReachableClosed(u, false, 0.0);
    var v := Gathers(false, r, Empty(0.0), 0, 0.0, Full(OLD, "a", None));
    ReachableSound(false, v);
    Revalidates(u, false, r, v, 1, K, 310.0, "a", None);
    w := With(v, 1, Task(K, 310.0, Reviving(ASKED, true)), 310.0).(futures := v.futures[ASKED.call := ASKED]);
  }

  /** Before it reads the stale copy at 312, a collector has stored NEW. */
  lemma Overtaken() returns (w: World)
    ensures w in Reachable(Plainly(), false, 0.0) && w.now == 312.0 && K !in w.store.negBody && CacheInv(Plainly(), w)
    ensures w.tasks.Keys == {0, 1, 2} && w.tasks[0].phase.Finished? && w.tasks[2].phase.Finished?
    ensures w.tasks[1] == Task(K, 310.0, Held(ASKED, true, NEW))
    ensures K in w.last && w.last[K].args == SetArgs(NEW, 300, Some("b"), 3600, 311.0)
  {
    var r := Reachable(Plainly(), false, 0.0);
    ReachableClosed(Plainly(), false, 0.0);
    var asked := Asked();
    var stored := Gathers(false, r, asked, 2, 311.0, Full(NEW, "b", None));
    ReachableSound(false, stored);
    w := Finds(false, r, stored, 1, ASKED, 312.0);
    ReachableSound(false, w);
  }

  /** So it restores NEW under the ETag of OLD. */
  lemma Overlaps() returns (w: World)
    ensures w in Reachable(Plainly(), false, 0.0) && w.now == 312.0 && K !in w.store.negBody
    ensures w.tasks.Keys == {0, 1, 2} && forall t :: t in w.tasks ==> w.tasks[t].phase.Finished?
    ensures K in w.last && w.last[K].args == SetArgs(NEW, 300, Some("a"), 3600, 312.0)
    ensures K in w.hot && w.hot[K] == w.last[K]
  {
    ReachableClosed(Plainly(), false, 0.0);
    var v := Overtaken();
    w := Restores(Reachable(Plainly(), false, 0.0), v, 1, ASKED, NEW, 312.0);
  }

  lemma OverlapExpires(w: World)
    requires CacheInv(Plainly(), w) && w.now == 312.0 && K !in w.store.negBody
    requires forall t :: t in w.tasks ==> w.tasks[t].phase.Finished?
    requires K in w.last && w.last[K].args == SetArgs(NEW, 300, Some("a"), 3600, 312.0)
    requires K in w.hot && w.hot[K] == w.last[K]
    ensures Expired(Plainly(), w, K, 650.0, "a") && StaleUntil(ArgsIn(w.last, K), 650.0)
  {
  }

  /**
   Later, with upstream back at OLD, a request that overlaps nothing is answered NEW, a
   body upstream held at no moment while that request was open.
   */
  lemma OverlapBreaksTransparency() returns (u: Setup, w: World, t: TaskId)
    ensures OneBodyPerTag(u.held) && RoundTrips(u.cfg.codec) && w in Reachable(u, false, 0.0)
    ensures t in w.tasks && w.tasks[t].phase.Finished? && w.tasks[t].phase.reply == Reply(200, NEW, MISS, None)
    ensures w.tasks[t].phase.basis.Some? && w.tasks[t].phase.basis.value.resp.pageCount == 1
    ensures forall m :: w.tasks[t].arrived <= m <= w.now ==> u.held(w.tasks[t].key, m).body != NEW
  {
    var v := Overlaps();
    ReachableSound(false, v);
    OverlapExpires(v);
    u, t := Plainly(), 3;
    w := Round(Reachable(u, false, 0.0), v, 3, 650.0, "a");
  }
}
