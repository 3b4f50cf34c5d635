/**
 Concrete serialised runs in which the cache does less than it is meant to
 (app/proxy.py:134-173, 240-247, app/coalesce.py:26-44): a TTL read too late is lost, a
 304 with max-age=0 ends in an exception, a 4xx is stored over a live body, and a late
 waiter is given what upstream held before it came.
 */
module Scenarios {
  import opened Common
  import opened Cache
  import opened Dispatch
  import opened DispatchRuns
  import Exclusion
  import Lifetimes
  import Breaker

  /** A set of worlds that no step leaves; with `serial`, no step that serialises the operations on each key. */
  ghost predicate Closed(u: Setup, serial: bool, r: iset<World>) {
    forall v, x {:trigger Then(u, v, x)} :: v in r && Possible(u, v, x) && (serial ==> Legal(u, v, x)) ==>
      Then(u, v, x) in r
  }

  /** One more step, if it can be taken. */
  function Then(u: Setup, w: World, x: Tick): World {
    if Enabled(w, x.e) then Step(u, w, x) else w
  }

  ghost predicate RunsTo(u: Setup, serial: bool, start: Time, xs: seq<Tick>, v: World) {
    if serial then SerialRuns(u, Empty(start), xs, v) else Runs(u, Empty(start), xs, v)
  }

  ghost predicate Reached(u: Setup, serial: bool, start: Time, v: World) {
    exists xs :: RunsTo(u, serial, start, xs, v)
  }

  /** Everything that runs from an empty cache lead to. */
  ghost function Reachable(u: Setup, serial: bool, start: Time): iset<World> {
    iset v | Reached(u, serial, start, v)
  }

  lemma ReachableClosed(u: Setup, serial: bool, start: Time)
    ensures Empty(start) in Reachable(u, serial, start) && Closed(u, serial, Reachable(u, serial, start))
  {
    assert RunsTo(u, serial, start, [], Empty(start));
    forall v, x | v in Reachable(u, serial, start) && Possible(u, v, x) && (serial ==> Legal(u, v, x))
      ensures Then(u, v, x) in Reachable(u, serial, start)
    {
      var xs :| RunsTo(u, serial, start, xs, v);
      if serial {
        SerialRunsFurther(u, Empty(start), xs, v, x);
      } else {
        RunsFurther(u, Empty(start), xs, v, x);
      }
      assert RunsTo(u, serial, start, xs + [x], Then(u, v, x));
    }
  }

  // ----------------------------------------------------------------- single steps

  const NOTHING := Fallback(None, [])

  /** The world with a task at some phase. */
  function With(w: World, t: TaskId, task: Task, at: Time): World {
    w.(tasks := w.tasks[t := task], now := at)
  }

  lemma Arrives(u: Setup, serial: bool, r: iset<World>, w: World, t: TaskId, k: Key, at: Time)
    requires Closed(u, serial, r) && w in r && w.now <= at && t !in w.tasks
    ensures With(w, t, Task(k, at, Looking), at) in r
  {
    assert Then(u, w, Tick(at, Arrive(t, k))) in r;
  }

  /** A round trip that writes nothing. */
  lemma Reads(u: Setup, serial: bool, r: iset<World>, w: World, t: TaskId, at: Time, p: Phase)
    requires Closed(u, serial, r) && w in r && w.now <= at && t in w.tasks
    requires OnItsOwn(w.tasks[t].phase) && !w.tasks[t].phase.Writing?
    requires p == Advance(u.cfg, u.st, w.tasks[t].key, w.store, w.tasks[t].phase, at, NOTHING)
    ensures With(w, t, w.tasks[t].(phase := p), at) in r
  {
    assert Then(u, w, Tick(at, Proceed(t, NOTHING))) in r;
  }

  lemma Leads(u: Setup, serial: bool, r: iset<World>, w: World, t: TaskId, at: Time)
    requires Closed(u, serial, r) && w in r && w.now <= at && t in w.tasks && w.tasks[t].phase.Ready?
    requires !InFlight(w, w.tasks[t].key, w.tasks[t].phase.again)
    ensures var p := w.tasks[t].phase;
            With(w, t, w.tasks[t].(phase := Fetching(Trip(p.again, true, p.sent, at))), at) in r
  {
    assert Then(u, w, Tick(at, Lead(t))) in r;
  }

  lemma Answered(u: Setup, serial: bool, r: iset<World>, w: World, t: TaskId, at: Time, resp: Resp)
    requires Closed(u, serial, r) && w in r && w.now <= at && t in w.tasks && w.tasks[t].phase.Fetching?
    requires Answers(resp, w.tasks[t].phase.trip.sent, u.held(w.tasks[t].key, at))
    ensures With(w, t, w.tasks[t].(phase := Returning(w.tasks[t].phase.trip, resp, at)), at) in r
  {
    assert Then(u, w, Tick(at, Answer(t, resp))) in r;
  }

  lemma Received(u: Setup, serial: bool, r: iset<World>, w: World, t: TaskId, at: Time, f: Fetch)
    requires Closed(u, serial, r) && w in r && w.now <= at && t in w.tasks && w.tasks[t].phase.Returning?
    requires var p := w.tasks[t].phase;
             f == Fetch(Call(t, p.trip.again), p.trip.sent, p.resp, Span(p.trip.since, p.at, at))
    ensures var p := Deliver(u.st, f, w.tasks[t].phase.trip.shared);
            With(w, t, w.tasks[t].(phase := p), at).(futures := w.futures[f.call := f]) in r
  {
    assert Then(u, w, Tick(at, Receive(t))) in r;
  }

  lemma Joins(u: Setup, serial: bool, r: iset<World>, w: World, t: TaskId, l: TaskId, at: Time)
    requires Closed(u, serial, r) && w in r && w.now <= at && t in w.tasks && w.tasks[t].phase.Ready? && l in w.tasks
    requires w.tasks[l].key == w.tasks[t].key && Flying(w.tasks[l].phase, w.tasks[t].phase.again)
    ensures With(w, t, w.tasks[t].(phase := Waiting(Call(l, w.tasks[t].phase.again))), at) in r
  {
    assert Then(u, w, Tick(at, Join(t, l))) in r;
  }

  lemma Wakes(u: Setup, serial: bool, r: iset<World>, w: World, t: TaskId, at: Time)
    requires Closed(u, serial, r) && w in r && w.now <= at && t in w.tasks
    requires w.tasks[t].phase.Waiting? && w.tasks[t].phase.call in w.futures
    ensures var p := Settle(u.st, w.futures[w.tasks[t].phase.call], false);
            With(w, t, w.tasks[t].(phase := p), at) in r
  {
    assert Then(u, w, Tick(at, Wake(t))) in r;
  }

  function NotModified(etag: string, maxAge: Option<int>): Resp {
    Esi.ESIResponse(304, [], Some(etag), maxAge, true, 1, None)
  }

  /** What a leader's execution comes to that begins, is answered and is back at `at`. */
  function Revalidation(t: TaskId, at: Time, tag: string, maxAge: Option<int>): Fetch {
    Fetch(Call(t, false), Some(tag), NotModified(tag, maxAge), Span(at, at, at))
  }

  // --------------------------------------------------------------- a revalidation

  /** Nobody fetches the key, its body has expired, its ETag is live, and upstream still has it. */
  ghost predicate Expired(u: Setup, w: World, k: Key, at: Time, tag: string) {
    && CacheInv(u, w) && w.now <= at && k !in w.store.negBody
    && !InFlight(w, k, false)
    && !HotUntil(ArgsIn(w.hot, k), at) && TaggedUntil(ArgsIn(w.last, k), at) && w.last[k].args.etag == Some(tag)
    && u.held(k, at).etag == Some(tag)
  }

  lemma ExpiredReads(u: Setup, w: World, k: Key, at: Time, tag: string)
    requires Expired(u, w, k, at, tag)
    ensures Live(w.store.body, k, at) == None && Live(w.store.etag, k, at) == Some(tag)
  {
    assert KeySound(u, w, k);
  }

  /** The lookups of a request that finds nothing. */
  lemma Misses(u: Setup, serial: bool, r: iset<World>, w: World, t: TaskId, k: Key, at: Time)
    requires Closed(u, serial, r) && w in r && w.now <= at && t !in w.tasks
    requires Live(w.store.body, k, at) == None && k !in w.store.negBody
    ensures With(w, t, Task(k, at, Unread), at) in r
  {
    var look, miss := With(w, t, Task(k, at, Looking), at), With(w, t, Task(k, at, Missed), at);
    Arrives(u, serial, r, w, t, k, at);
    Reads(u, serial, r, look, t, at, Missed);
    assert With(look, t, look.tasks[t].(phase := Missed), at) == miss;
    Reads(u, serial, r, miss, t, at, Unread);
    assert With(miss, t, miss.tasks[t].(phase := Unread), at) == With(w, t, Task(k, at, Unread), at);
  }

  /** It reads the ETag entry. */
  lemma Recalls(u: Setup, serial: bool, r: iset<World>, w: World, t: TaskId, k: Key, at: Time, sent: Option<string>)
    requires Closed(u, serial, r) && With(w, t, Task(k, at, Unread), at) in r && Live(w.store.etag, k, at) == sent
    ensures With(w, t, Task(k, at, Ready(false, sent)), at) in r
  {
    var unread := With(w, t, Task(k, at, Unread), at);
    Reads(u, serial, r, unread, t, at, Ready(false, sent));
    assert With(unread, t, unread.tasks[t].(phase := Ready(false, sent)), at)
           == With(w, t, Task(k, at, Ready(false, sent)), at);
  }

  /** And leads. */
  lemma Asks(u: Setup, serial: bool, r: iset<World>, w: World, t: TaskId, k: Key, at: Time, sent: Option<string>)
    requires Closed(u, serial, r) && With(w, t, Task(k, at, Unread), at) in r
    requires Live(w.store.etag, k, at) == sent && t !in w.tasks && !InFlight(w, k, false)
    ensures With(w, t, Task(k, at, Fetching(Trip(false, true, sent, at))), at) in r
  {
    var ready, asks := With(w, t, Task(k, at, Ready(false, sent)), at), Fetching(Trip(false, true, sent, at));
    Recalls(u, serial, r, w, t, k, at, sent);
    Leads(u, serial, r, ready, t, at);
    assert With(ready, t, ready.tasks[t].(phase := asks), at) == With(w, t, Task(k, at, asks), at);
  }

  /** Upstream's answer is back at once. */
  lemma Replies(u: Setup, serial: bool, r: iset<World>, w: World,
                t: TaskId, k: Key, trip: Trip, at: Time, resp: Resp)
    requires Closed(u, serial, r) && With(w, t, Task(k, trip.since, Fetching(trip)), trip.since) in r
    requires trip.since <= at && Answers(resp, trip.sent, u.held(k, at))
    ensures var f := Fetch(Call(t, trip.again), trip.sent, resp, Span(trip.since, at, at));
            With(w, t, Task(k, trip.since, Deliver(u.st, f, trip.shared)), at).(futures := w.futures[f.call := f]) in r
  {
    var asked := With(w, t, Task(k, trip.since, Fetching(trip)), trip.since);
    var told := With(w, t, Task(k, trip.since, Returning(trip, resp, at)), at);
    Answered(u, serial, r, asked, t, at, resp);
    assert With(asked, t, asked.tasks[t].(phase := Returning(trip, resp, at)), at) == told;
    var f := Fetch(Call(t, trip.again), trip.sent, resp, Span(trip.since, at, at));
    var p := Deliver(u.st, f, trip.shared);
    Received(u, serial, r, told, t, at, f);
    assert With(told, t, told.tasks[t].(phase := p), at) == With(w, t, Task(k, trip.since, p), at);
  }

  /** A request that upstream answers 304. */
  lemma Revalidates(u: Setup, serial: bool, r: iset<World>, w: World,
                    t: TaskId, k: Key, at: Time, tag: string, maxAge: Option<int>)
    requires Closed(u, serial, r) && w in r && Expired(u, w, k, at, tag) && t !in w.tasks
    requires tag != "" && (maxAge.Some? ==> maxAge.value >= 0)
    ensures var f := Revalidation(t, at, tag, maxAge);
            With(w, t, Task(k, at, Reviving(f, true)), at).(futures := w.futures[f.call := f]) in r
  {
    ExpiredReads(u, w, k, at, tag);
    Misses(u, serial, r, w, t, k, at);
    Asks(u, serial, r, w, t, k, at, Some(tag));
    Replies(u, serial, r, w, t, k, Trip(false, true, Some(tag), at), at, NotModified(tag, maxAge));
  }

  // ------------------------------------------------------------------ the cast

  const K: Key := "k"
  const OLD: Bytes := [1]
  const NEW: Bytes := [2]
  const SETTINGS := Settings(3600, 0, 60)

  /** Upstream holds OLD, but for a while, from 311 to 313, NEW. */
  function Wavering(k: Key, t: Time): Version {
    if 311.0 <= t < 313.0 then Version(NEW, Some("b")) else Version(OLD, Some("a"))
  }

  function Plainly(): Setup {
    Setup(Config(Codec(true, b => b, b => b, b => b), 65536), SETTINGS, Wavering)
  }

  function Full(body: Bytes, etag: string, maxAge: Option<int>): Resp {
    Esi.ESIResponse(200, body, Some(etag), maxAge, false, 1, None)
  }

  lemma ReachableSound(serial: bool, w: World)
    requires w in Reachable(Plainly(), serial, 0.0)
    ensures CacheInv(Plainly(), w)
  {
    var u := Plainly();
    var xs :| RunsTo(u, serial, 0.0, xs, w);
    EmptyCacheInv(u, 0.0);
    if serial {
      SerialRunIsRun(u, Empty(0.0), xs, w);
    }
    RunKeepsCacheInv(u, Empty(0.0), xs, w);
  }

  lemma {:induction false} SerialRunIsRun(u: Setup, w: World, xs: seq<Tick>, w': World)
    requires SerialRuns(u, w, xs, w')
    ensures Runs(u, w, xs, w')
    decreases |xs|
  {
    if xs != [] {
      SerialRunIsRun(u, Step(u, w, xs[0]), xs[1..], w');
    }
  }

  function Collecting(w: World, t: TaskId): World {
    w.(collectors := w.collectors + {t})
  }

  /** A collector asks and is answered with a 200. */
  lemma Gathered(serial: bool, r: iset<World>, w: World, t: TaskId, at: Time, resp: Resp) returns (w': World)
    requires Closed(Plainly(), serial, r) && w in r && w.now <= at && t !in w.tasks
    requires resp.status == 200 && Answers(resp, None, Wavering(K, at))
    ensures var f := Fetch(Call(t, false), None, resp, Span(at, at, at));
            w' in r && w' == With(Collecting(w, t), t, Task(K, at, Writing(Keeping(resp), f)), at)
                             .(futures := w.futures[f.call := f])
  {
    var u, trip := Plainly(), Trip(false, false, None, at);
    assert Then(u, w, Tick(at, Gather(t, K))) == With(Collecting(w, t), t, Task(K, at, Fetching(trip)), at);
    Replies(u, serial, r, Collecting(w, t), t, K, trip, at, resp);
    var f := Fetch(Call(t, false), None, resp, Span(at, at, at));
    w' := With(Collecting(w, t), t, Task(K, at, Writing(Keeping(resp), f)), at).(futures := w.futures[f.call := f]);
  }

  /** A collector is answered and stores. */
  lemma Gathers(serial: bool, r: iset<World>, w: World, t: TaskId, at: Time, resp: Resp) returns (w': World)
    requires Closed(Plainly(), serial, r) && w in r && w.now <= at && t !in w.tasks && K !in w.store.negBody
    requires resp.status == 200 && Answers(resp, None, Wavering(K, at)) && Breaker.Or(resp.maxAge, 300) > 0
    requires serial ==> forall o :: o in w.tasks ==> !Exposed(w.futures, w.tasks[o].phase, Call(t, false))
    ensures w' in r && w'.now == at && K !in w'.store.negBody
    ensures t in w'.tasks && w'.tasks[t].phase.Finished? && w'.tasks == w.tasks[t := w'.tasks[t]]
    ensures var stored := Stored(SetArgs(resp.body, Breaker.Or(resp.maxAge, 300), resp.etag, 3600, at),
                                 Fetch(Call(t, false), None, resp, Span(at, at, at)));
            w'.last == w.last[K := stored] && w'.hot == w.hot[K := stored]
  {
    var v := Gathered(serial, r, w, t, at, resp);
    w' := Then(Plainly(), v, Tick(at, Proceed(t, NOTHING)));
    assert w' in r;
  }

  /** A task whose 304 found the stale copy, still to read the stored TTL if the 304 gave none. */
  lemma Finds(serial: bool, r: iset<World>, w: World, t: TaskId, f: Fetch, at: Time) returns (w': World)
    requires Closed(Plainly(), serial, r) && w in r && CacheInv(Plainly(), w) && w.now <= at
    requires t in w.tasks && w.tasks[t].key == K && w.tasks[t].phase == Reviving(f, true)
    requires StaleUntil(ArgsIn(w.last, K), at)
    ensures var b := w.last[K].args.body;
            w' in r
            && w' == With(w, t, w.tasks[t].(phase := if f.resp.maxAge.Some? then Revive(f, true, b, f.resp.maxAge.value)
                                                            else Held(f, true, b)), at)
  {
    var u := Plainly();
    StaleIsLast(u, w, K, at);
    var p := Advance(u.cfg, u.st, K, w.store, w.tasks[t].phase, at, NOTHING);
    Reads(u, serial, r, w, t, at, p);
    w' := With(w, t, w.tasks[t].(phase := p), at);
  }

  /** One snapshot, stored at 0 with a TTL of 100, and a request that upstream answers 304 at 150. */
  lemma Revalidated(maxAge: Option<int>) returns (w: World)
    requires maxAge.Some? ==> maxAge.value >= 0
    ensures w in Reachable(Plainly(), true, 0.0) && w.now == 150.0
    ensures K in w.last && w.last[K].args == SetArgs(OLD, 100, Some("a"), 3600, 0.0)
    ensures w.tasks.Keys == {0, 1} && w.tasks[0].phase.Finished?
    ensures w.tasks[1] == Task(K, 150.0, Reviving(Revalidation(1, 150.0, "a", maxAge), true))
  {
    var u, r := Plainly(), Reachable(Plainly(), true, 0.0);
    ReachableClosed(u, true, 0.0);
    var v := Gathers(true, r, Empty(0.0), 0, 0.0, Full(OLD, "a", Some(100)));
    ReachableSound(true, v);
    Revalidates(u, true, r, v, 1, K, 150.0, "a", maxAge);
    var f := Revalidation(1, 150.0, "a", maxAge);
    w := With(v, 1, Task(K, 150.0, Reviving(f, true)), 150.0).(futures := v.futures[f.call := f]);
  }

  /** It finds the stale copy at once. */
  lemma Found(maxAge: Option<int>) returns (w: World)
    requires maxAge.Some? ==> maxAge.value >= 0
    ensures w in Reachable(Plainly(), true, 0.0) && w.now == 150.0 && CacheInv(Plainly(), w)
    ensures K in w.last && w.last[K].args == SetArgs(OLD, 100, Some("a"), 3600, 0.0)
    ensures w.tasks.Keys == {0, 1} && w.tasks[0].phase.Finished? && w.tasks[1].key == K
    ensures var f := Revalidation(1, 150.0, "a", maxAge);
            w.tasks[1].phase == if maxAge.Some? then Revive(f, true, OLD, maxAge.value) else Held(f, true, OLD)
  {
    var v := Revalidated(maxAge);
    ReachableClosed(Plainly(), true, 0.0);
    ReachableSound(true, v);
    w := Finds(true, Reachable(Plainly(), true, 0.0), v, 1, v.tasks[1].phase.f, 150.0);
    ReachableSound(true, w);
  }

  // ------------------------------------------------------------- runs on one entry

  /** The TTL entry, live when the ETag was read at 150, has expired when it is read at 170: 100 becomes 300. */
  lemma TtlFallsBack() returns (u: Setup, w: World, x: Tick)
    ensures w in Reachable(u, true, 0.0) && Legal(u, w, x) && OneBodyPerTag(u.held)
    ensures x.e.t in w.tasks && w.tasks[x.e.t].phase.Held? && w.tasks[x.e.t].phase.leads
    ensures K in w.last && w.last[K].args.ttl == 100
    ensures Lifetimes.After(u, w, x).Writing?
            && Lifetimes.After(u, w, x).w.Putting? && Lifetimes.After(u, w, x).w.ttl == 300
  {
    u, x := Plainly(), Tick(170.0, Proceed(1, NOTHING));
    w := Found(None);
    Lifetimes.RestoreKeepsTtl(u, w, x);
  }

  /** A 304 with max-age=0: the leader that restores the stale copy ends in an exception. */
  lemma ZeroMaxAgeRaises() returns (u: Setup, w: World, x: Tick)
    ensures w in Reachable(u, true, 0.0) && Legal(u, w, x) && OneBodyPerTag(u.held)
    ensures x.e.t in w.tasks && w.tasks[x.e.t].phase.Writing?
    ensures w.tasks[x.e.t].phase.f.resp == NotModified("a", Some(0))
    ensures Lifetimes.After(u, w, x).Finished? && Lifetimes.After(u, w, x).reply == Raised
  {
    u, x := Plainly(), Tick(155.0, Proceed(1, NOTHING));
    w := Found(Some(0));
    Lifetimes.RaisesIffZeroMaxAge(u, w, x);
  }

  // --------------------------------------------------------- runs of two requests

  /** The first request ever on the key asks at `at`, without an ETag. */
  lemma FirstAsks(at: Time) returns (w: World)
    requires at >= 0.0
    ensures w in Reachable(Plainly(), true, 0.0)
    ensures w == With(Empty(0.0), 1, Task(K, at, Fetching(Trip(false, true, None, at))), at)
  {
    var u, r := Plainly(), Reachable(Plainly(), true, 0.0);
    ReachableClosed(u, true, 0.0);
    Misses(u, true, r, Empty(0.0), 1, K, at);
    Asks(u, true, r, Empty(0.0), 1, K, at, None);
    w := With(Empty(0.0), 1, Task(K, at, Fetching(Trip(false, true, None, at))), at);
  }

  const GONE: Resp := Esi.ESIResponse(404, [], None, None, false, 1, None)

  /** It asks at 0; a collector stores OLD at 1. */
  lemma StoredMeanwhile() returns (w: World)
    ensures w in Reachable(Plainly(), true, 0.0) && w.now == 1.0 && w.tasks.Keys == {1, 2}
    ensures w.tasks[2].phase.Finished? && w.tasks[1] == Task(K, 0.0, Fetching(Trip(false, true, None, 0.0)))
    ensures K in w.hot && w.hot[K].args == SetArgs(OLD, 300, Some("a"), 3600, 1.0)
  {
    ReachableClosed(Plainly(), true, 0.0);
    var asks := FirstAsks(0.0);
    w := Gathers(true, Reachable(Plainly(), true, 0.0), asks, 2, 1.0, Full(OLD, "a", None));
  }

  /** Then it is answered 404, at 2. */
  lemma Refusing404() returns (w: World)
    ensures w in Reachable(Plainly(), true, 0.0) && w.now == 2.0 && w.tasks.Keys == {1, 2}
    ensures w.tasks[2].phase.Finished? && w.tasks[1].key == K
    ensures w.tasks[1].phase == Writing(Refusing([], 404, 60), Fetch(Call(1, false), None, GONE, Span(0.0, 2.0, 2.0)))
    ensures K in w.hot && w.hot[K].args == SetArgs(OLD, 300, Some("a"), 3600, 1.0)
  {
    var u, r := Plainly(), Reachable(Plainly(), true, 0.0);
    ReachableClosed(u, true, 0.0);
    var v := StoredMeanwhile();
    Answered(u, true, r, v, 1, 2.0, GONE);
    var told := With(v, 1, v.tasks[1].(phase := Returning(v.tasks[1].phase.trip, GONE, 2.0)), 2.0);
    var f := Fetch(Call(1, false), None, GONE, Span(0.0, 2.0, 2.0));
    Received(u, true, r, told, 1, 2.0, f);
    w := With(told, 1, told.tasks[1].(phase := Settle(u.st, f, true)), 2.0).(futures := told.futures[f.call := f]);
  }

  /** So it stores the 404, at 3, over the body: for a minute both entries are live. */
  lemma BothLive() returns (u: Setup, w: World)
    ensures w in Reachable(u, true, 0.0) && OneBodyPerTag(u.held)
    ensures Live(w.store.body, K, w.now).Some? && Live(w.store.negBody, K, w.now).Some?
    ensures !Exclusion.Exclusive(w, K)
  {
    u := Plainly();
    ReachableClosed(u, true, 0.0);
    var v := Refusing404();
    ReachableSound(true, v);
    assert KeySound(u, v, K);
    w := Then(u, v, Tick(3.0, Proceed(1, NOTHING)));
    assert w in Reachable(u, true, 0.0);
    assert Live(w.store.body, K, 3.0) == Live(v.store.body, K, 3.0);
    assert !Exclusion.ExclusiveAt(w, K, w.now);
  }

  /** It asks at 310 and is answered OLD at once. */
  lemma AnsweredOld() returns (w: World)
    ensures w in Reachable(Plainly(), true, 0.0) && K !in w.store.body && K !in w.store.negBody && K !in w.store.etag
    ensures w.now == 310.0 && w.tasks
            == map[1 := Task(K, 310.0, Returning(Trip(false, true, None, 310.0), Full(OLD, "a", None), 310.0))]
  {
    var u, full := Plainly(), Full(OLD, "a", None);
    ReachableClosed(u, true, 0.0);
    var asks := FirstAsks(310.0);
    Answered(u, true, Reachable(u, true, 0.0), asks, 1, 310.0, full);
    w := With(asks, 1, asks.tasks[1].(phase := Returning(asks.tasks[1].phase.trip, full, 310.0)), 310.0);
  }

  /** While that is on its way a second request joins, at 311. */
  lemma JoinsLate() returns (w: World)
    ensures w in Reachable(Plainly(), true, 0.0) && w.now == 311.0 && w.tasks.Keys == {1, 2}
    ensures w.tasks[1]
            == Task(K, 310.0, Returning(Trip(false, true, None, 310.0), Full(OLD, "a", None), 310.0))
    ensures w.tasks[2] == Task(K, 311.0, Waiting(Call(1, false)))
  {
    var u, r := Plainly(), Reachable(Plainly(), true, 0.0);
    ReachableClosed(u, true, 0.0);
    var told := AnsweredOld();
    Misses(u, true, r, told, 2, K, 311.0);
    Recalls(u, true, r, told, 2, K, 311.0, None);
    var ready := With(told, 2, Task(K, 311.0, Ready(false, None)), 311.0);
    Joins(u, true, r, ready, 2, 1, 311.0);
    w := With(ready, 2, Task(K, 311.0, Waiting(Call(1, false))), 311.0);
  }

  /** The answer is back at 312, and the second request is served OLD, which upstream held at no moment of its own. */
  lemma LateWaiterGetsOlder() returns (u: Setup, w: World, t: TaskId)
    ensures w in Reachable(u, true, 0.0) && OneBodyPerTag(u.held) && t in w.tasks
    ensures w.tasks[t].phase.Finished? && w.tasks[t].phase.reply == Reply(200, OLD, MISS, None)
    ensures forall m :: w.tasks[t].arrived <= m <= w.now ==> u.held(w.tasks[t].key, m).body != OLD
  {
    u, t := Plainly(), 2;
    ReachableClosed(u, true, 0.0);
    var v := JoinsLate();
    var f := Fetch(Call(1, false), None, Full(OLD, "a", None), Span(310.0, 310.0, 312.0));
    Received(u, true, Reachable(u, true, 0.0), v, 1, 312.0, f);
    var back := With(v, 1, v.tasks[1].(phase := Settle(u.st, f, true)), 312.0).(futures := v.futures[f.call := f]);
    Wakes(u, true, Reachable(u, true, 0.0), back, 2, 312.0);
    w := With(back, 2, back.tasks[2].(phase := Settle(u.st, f, false)), 312.0);
  }
}
