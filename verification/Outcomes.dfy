/**
 What every request is told and what it leaves behind, whatever runs beside it
 (app/proxy.py:134-248, app/collector.py:48-57).

 Each finished task is accounted for in terms of the answer it rests on: its reply, its
 one cache write and what it hands to the archive.
 */
module Outcomes {
  import opened Common
  import opened Cache
  import opened Dispatch
  import opened DispatchRuns
  import Breaker

  // ------------------------------------------------------------------ the account

  /** How long a body is kept beyond its TTL: not at all if it is over a positive size limit. */
  predicate Window(st: Settings, body: Bytes, staleTtl: int) {
    if 0 < st.staleCacheMaxBodyBytes < |body| then staleTtl == 0 else staleTtl == st.staleCacheSeconds
  }

  /** The TTL of a 200: its max-age, unless that is absent or zero. */
  predicate FreshFor(r: Resp, ttl: int) {
    match r.maxAge
    case None => ttl == 300
    case Some(n) => ttl == if n == 0 then 300 else n
  }

  /** Nothing was written by t. */
  predicate Unwritten(w: World, t: TaskId) {
    t !in w.wrote
  }

  /** Task t has stored this body, under this ETag, for a TTL, since the answer was back. */
  predicate Kept(u: Setup, w: World, t: TaskId, f: Fetch, body: Bytes, etag: Option<string>) {
    && t in w.wrote && w.wrote[t].DidSet?
    && var a := w.wrote[t].args;
       a.body == body && a.etag == etag && Window(u.st, body, a.staleTtl) && f.span.received <= a.at <= w.now
  }

  /** Task t has stored this refusal for so long, since the answer was back. */
  predicate KeptRefusal(w: World, t: TaskId, f: Fetch, ttl: int) {
    && t in w.wrote && w.wrote[t].DidSetNegative?
    && var n := w.wrote[t].refused;
       n.body == f.resp.body && n.status == f.resp.status && n.ttl == ttl && f.span.received <= n.at <= w.now
  }

  /** A 200: passed on; its leader, a request or a collector, stores and archives it, nobody else does. */
  predicate ToldFull(u: Setup, w: World, t: TaskId, f: Fetch, reply: Reply, archives: Option<Bytes>) {
    && reply == Reply(200, f.resp.body, MISS, None)
    && if t == f.call.leader then
         archives == Some(f.resp.body) && Kept(u, w, t, f, f.resp.body, f.resp.etag)
         && FreshFor(f.resp, w.wrote[t].args.ttl)
       else archives == None && Unwritten(w, t)
  }

  /**
   A 304 to the conditional fetch: a body is served as a 200 and never archived; the
   leader stores it anew under the ETag it sent, for the new max-age if there is one, and
   fails if that is zero.
   */
  predicate ToldUnchanged(u: Setup, w: World, t: TaskId, f: Fetch, reply: Reply, archives: Option<Bytes>) {
    && archives == None && !f.call.again
    && if t == f.call.leader then
         && t in w.wrote && w.wrote[t].DidSet? && Kept(u, w, t, f, w.wrote[t].args.body, f.sent)
         && (f.resp.maxAge.Some? ==> w.wrote[t].args.ttl == f.resp.maxAge.value)
         && reply == if f.resp.maxAge == Some(0) then Raised else Reply(200, w.wrote[t].args.body, MISS, None)
       else Unwritten(w, t) && reply.Reply? && reply == Reply(200, reply.body, MISS, None)
  }

  /** A 420 or a server error: a stale or archived body as a 200, or an error of the same status. */
  predicate ToldDegraded(w: World, t: TaskId, f: Fetch, reply: Reply, archives: Option<Bytes>) {
    && archives == None && Unwritten(w, t) && reply.Reply? && reply.location == None
    && (reply.cache == STALE || reply.cache == ARCHIVE_FALLBACK || reply.cache == ERROR)
    && reply.status == if reply.cache == ERROR then f.resp.status else 200
  }

  /** How long a refusal is kept: its max-age, else as configured. */
  function RefusedFor(st: Settings, r: Resp): int {
    match r.maxAge
    case None => st.negativeCacheTtlSeconds
    case Some(n) => n
  }

  /** Any other status: passed on; a client error but a 429 is remembered, by everyone who gets it. */
  predicate ToldOther(u: Setup, w: World, t: TaskId, f: Fetch, reply: Reply, archives: Option<Bytes>) {
    var r, ttl := f.resp, RefusedFor(u.st, f.resp);
    && archives == None
    && reply == Reply(r.status, r.body, MISS, if 300 <= r.status <= 399 then r.location else None)
    && if 400 <= r.status <= 499 && r.status != 429 && ttl > 0 then KeptRefusal(w, t, f, ttl) else Unwritten(w, t)
  }

  /** A collector does nothing with anything but a 200. */
  predicate ToldCollector(w: World, t: TaskId, reply: Reply, archives: Option<Bytes>) {
    reply == Skipped && archives == None && Unwritten(w, t)
  }

  /** A reply that rests on no answer: a hit, or the task was cancelled. */
  predicate ToldAtOnce(w: World, t: TaskId, reply: Reply, archives: Option<Bytes>) {
    && archives == None && Unwritten(w, t)
    && (reply == Raised
        || (reply.Reply? && reply.cache == HIT && (reply.status == 200 || 400 <= reply.status <= 499)))
  }

  ghost predicate Accounted(u: Setup, w: World, t: TaskId)
    requires t in w.tasks && w.tasks[t].phase.Finished?
  {
    var reply, archives := w.tasks[t].phase.reply, w.tasks[t].phase.archives;
    match w.tasks[t].phase.basis
    case None => ToldAtOnce(w, t, reply, archives)
    case Some(f) =>
      var status := f.resp.status;
      if status == 200 then ToldFull(u, w, t, f, reply, archives)
      else if t in w.collectors then ToldCollector(w, t, reply, archives)
      else if status == 304 then ToldUnchanged(u, w, t, f, reply, archives)
      else if status == 420 || status >= 500 then ToldDegraded(w, t, f, reply, archives)
      else ToldOther(u, w, t, f, reply, archives)
  }

  // ------------------------------------------------------------------ on the way

  /** A refetch asks without an ETag. */
  predicate Asks(again: bool, sent: Option<string>) {
    again ==> sent == None
  }

  /** A collector asks on its own and without an ETag, a request on behalf of all who wait. */
  predicate TripFits(trip: Trip, collector: bool) {
    Asks(trip.again, trip.sent) && trip.shared == !collector && (collector ==> !trip.again && trip.sent == None)
  }

  predicate LeadsOwn(t: TaskId, f: Fetch, leads: bool) {
    leads <==> f.call.leader == t
  }

  /** What a task of this kind is about to do. */
  ghost predicate OnTrack(t: TaskId, collector: bool, p: Phase) {
    match p
    case Ready(again, sent) => !collector && Asks(again, sent)
    case Fetching(trip) => TripFits(trip, collector)
    case Returning(trip, _, _) => TripFits(trip, collector)
    case Waiting(c) => !collector && c.leader != t
    case Reviving(f, leads) => !collector && LeadsOwn(t, f, leads)
    case Held(f, leads, _) => !collector && LeadsOwn(t, f, leads)
    case Degraded(f) => !collector && (f.resp.status == 420 || f.resp.status >= 500)
    case Writing(w, f) => AboutToWrite(t, collector, w, f)
    case Finished(_, _, _) => true
    case _ => !collector
  }

  ghost predicate AboutToWrite(t: TaskId, collector: bool, w: Pending, f: Fetch) {
    match w
    case Putting(body, ttl, etag, isNew) =>
      && f.call.leader == t
      && (if f.resp.status == 200 then isNew && body == f.resp.body && etag == f.resp.etag && FreshFor(f.resp, ttl)
          else
            && f.resp.status == 304 && !collector && !isNew && etag == f.sent && !f.call.again
            && (f.resp.maxAge.Some? ==> ttl == f.resp.maxAge.value))
    case Refusing(_, _, _) => !collector
  }

  ghost predicate TaskFits(u: Setup, w: World, t: TaskId) {
    t in w.tasks ==>
      && OnTrack(t, t in w.collectors, w.tasks[t].phase)
      && (if w.tasks[t].phase.Finished? then Accounted(u, w, t) else Unwritten(w, t))
  }

  ghost predicate FutureAsks(w: World, c: Call) {
    c in w.futures ==> Asks(c.again, w.futures[c].sent)
  }

  ghost predicate AccountInv(u: Setup, w: World) {
    && CacheInv(u, w)
    && (forall t :: t in w.collectors || t in w.wrote ==> t in w.tasks)
    && (forall t :: TaskFits(u, w, t))
    && (forall c :: FutureAsks(w, c))
  }

  // ------------------------------------------------------------------- every step

  lemma SettleOnTrack(st: Settings, t: TaskId, k: Key, u: Setup, f: Fetch, leads: bool, now: Time)
    requires Fetched(u, k, f, now) && st == u.st && LeadsOwn(t, f, leads) && Asks(f.call.again, f.sent)
    ensures OnTrack(t, false, Settle(st, f, leads))
  {
  }

  /** What settles a task at once accounts for it. */
  lemma SettleAccounts(u: Setup, w: World, t: TaskId, k: Key, f: Fetch, leads: bool)
    requires Fetched(u, k, f, w.now) && LeadsOwn(t, f, leads) && Asks(f.call.again, f.sent)
    requires t in w.tasks && w.tasks[t].phase == Settle(u.st, f, leads) && t !in w.collectors && Unwritten(w, t)
    ensures w.tasks[t].phase.Finished? ==> Accounted(u, w, t)
  {
  }

  lemma ReviveOnTrack(t: TaskId, k: Key, u: Setup, f: Fetch, leads: bool, b: Bytes, ttl: int, now: Time)
    requires Fetched(u, k, f, now) && f.resp.notModified && !f.call.again && LeadsOwn(t, f, leads)
    requires f.resp.maxAge.Some? ==> ttl == f.resp.maxAge.value
    ensures OnTrack(t, false, Revive(f, leads, b, ttl))
  {
  }

  lemma ReviveAccounts(u: Setup, w: World, t: TaskId, k: Key, f: Fetch, leads: bool, b: Bytes, ttl: int)
    requires Fetched(u, k, f, w.now) && f.resp.notModified && !f.call.again && LeadsOwn(t, f, leads)
    requires t in w.tasks && w.tasks[t].phase == Revive(f, leads, b, ttl) && t !in w.collectors && Unwritten(w, t)
    ensures w.tasks[t].phase.Finished? ==> Accounted(u, w, t)
  {
  }

  /** The one write of a task, and what it is told with it. */
  lemma WriteAccounts(u: Setup, w: World, x: Tick)
    requires AccountInv(u, w) && Possible(u, w, x) && x.e.Proceed? && w.tasks[x.e.t].phase.Writing?
    ensures var w' := Step(u, w, x); w'.tasks[x.e.t].phase.Finished? && Accounted(u, w', x.e.t)
  {
    var t, w' := x.e.t, Step(u, w, x);
    BasisFetched(u, w, t);
    assert TaskFits(u, w, t) && PhaseFits(u, w.tasks[t].key, w.tasks[t].phase, w.now);
    var f := w.tasks[t].phase.f;
    match w.tasks[t].phase.w
    case Putting(body, ttl, etag, isNew) =>
      var a := ArgsOf(u.st, w.tasks[t].phase.w, x.at);
      assert w'.wrote[t] == DidSet(a) && Window(u.st, body, a.staleTtl);
      assert Rejected(a) <==> ttl == 0;
    case Refusing(body, status, ttl) =>
      assert w'.wrote[t] == DidSetNegative(NegArgs(body, status, ttl, x.at));
  }

  /** After a 304 with max-age the stale copy settles it. */
  lemma RevivalAccounts(u: Setup, w: World, x: Tick)
    requires AccountInv(u, w) && Possible(u, w, x) && x.e.Proceed? && w.tasks[x.e.t].phase.Reviving?
    ensures TaskFits(u, Step(u, w, x), x.e.t)
  {
    var t, w' := x.e.t, Step(u, w, x);
    var k, f, leads := w.tasks[t].key, w.tasks[t].phase.f, w.tasks[t].phase.leads;
    assert TaskFits(u, w, t) && PhaseFits(u, k, w.tasks[t].phase, w.now);
    BasisFetched(u, w, t);
    var b := StaleCopy(u.cfg, w.store, k, x.at);
    if b.Some? && f.resp.maxAge.Some? {
      ReviveOnTrack(t, k, u, f, leads, b.value, f.resp.maxAge.value, w.now);
      ReviveAccounts(u, w', t, k, f, leads, b.value, f.resp.maxAge.value);
    }
  }

  /** Without max-age, the stored TTL. */
  lemma HeldAccounts(u: Setup, w: World, x: Tick)
    requires AccountInv(u, w) && Possible(u, w, x) && x.e.Proceed? && w.tasks[x.e.t].phase.Held?
    ensures TaskFits(u, Step(u, w, x), x.e.t)
  {
    var t, w' := x.e.t, Step(u, w, x);
    var k, f, leads := w.tasks[t].key, w.tasks[t].phase.f, w.tasks[t].phase.leads;
    assert TaskFits(u, w, t) && PhaseFits(u, k, w.tasks[t].phase, w.now);
    BasisFetched(u, w, t);
    var ttl := Breaker.Or(Live(w.store.ttl, k, x.at), 300);
    ReviveOnTrack(t, k, u, f, leads, w.tasks[t].phase.body, ttl, w.now);
    ReviveAccounts(u, w', t, k, f, leads, w.tasks[t].phase.body, ttl);
  }

  /** The lookups, and the fallback reads. */
  lemma LookupAccounts(u: Setup, w: World, x: Tick)
    requires AccountInv(u, w) && Possible(u, w, x) && x.e.Proceed?
    requires var p := w.tasks[x.e.t].phase; p.Looking? || p.Missed? || p.Unread? || p.Degraded?
    ensures TaskFits(u, Step(u, w, x), x.e.t)
  {
    var t := x.e.t;
    assert TaskFits(u, w, t);
    if w.tasks[t].phase.Missed? { assert KeySound(u, w, w.tasks[t].key); }
    if w.tasks[t].phase.Degraded? { BasisFetched(u, w, t); }
  }

  lemma ReceiptAccounts(u: Setup, w: World, x: Tick)
    requires AccountInv(u, w) && Possible(u, w, x) && x.e.Receive?
    ensures TaskFits(u, Step(u, w, x), x.e.t)
  {
    var t, w' := x.e.t, Step(u, w, x);
    var k, f := w.tasks[t].key, Completed(w, x).value;
    assert TaskFits(u, w, t) && PhaseFits(u, k, w.tasks[t].phase, w.now);
    if t !in w.collectors {
      SettleOnTrack(u.st, t, k, u, f, true, x.at);
      SettleAccounts(u, w', t, k, f, true);
    }
  }

  lemma WakingAccounts(u: Setup, w: World, x: Tick)
    requires AccountInv(u, w) && Possible(u, w, x) && x.e.Wake?
    ensures TaskFits(u, Step(u, w, x), x.e.t)
  {
    var t, w' := x.e.t, Step(u, w, x);
    var k, c := w.tasks[t].key, w.tasks[t].phase.call;
    assert TaskFits(u, w, t) && Grounded(w, t) && FutureFits(u, w, c) && FutureAsks(w, c);
    SettleOnTrack(u.st, t, k, u, w.futures[c], false, x.at);
    SettleAccounts(u, w', t, k, w.futures[c], false);
  }

  lemma OwnAccount(u: Setup, w: World, x: Tick)
    requires AccountInv(u, w) && Possible(u, w, x)
    ensures TaskFits(u, Step(u, w, x), x.e.t)
  {
    assert TaskFits(u, w, x.e.t);
    match x.e
    case Proceed(t, _) =>
      var p := w.tasks[t].phase;
      if p.Writing? {
        WriteAccounts(u, w, x);
      } else if p.Reviving? {
        RevivalAccounts(u, w, x);
      } else if p.Held? {
        HeldAccounts(u, w, x);
      } else {
        LookupAccounts(u, w, x);
      }
    case Receive(_) => ReceiptAccounts(u, w, x);
    case Wake(_) => WakingAccounts(u, w, x);
    case _ =>
  }

  lemma OtherAccount(u: Setup, w: World, x: Tick, o: TaskId)
    requires AccountInv(u, w) && Possible(u, w, x) && o != x.e.t
    ensures TaskFits(u, Step(u, w, x), o)
  {
    assert TaskFits(u, w, o);
  }

  lemma StepKeepsAccount(u: Setup, w: World, x: Tick)
    requires AccountInv(u, w) && Possible(u, w, x)
    ensures AccountInv(u, Step(u, w, x))
  {
    var w' := Step(u, w, x);
    StepKeepsCacheInv(u, w, x);
    assert TaskFits(u, w, x.e.t);
    forall o ensures TaskFits(u, w', o) {
      if o == x.e.t {
        OwnAccount(u, w, x);
      } else {
        OtherAccount(u, w, x, o);
      }
    }
    forall c ensures FutureAsks(w', c) {
      assert FutureAsks(w, c);
    }
  }

  lemma {:induction false} RunKeepsAccount(u: Setup, w: World, xs: seq<Tick>, w': World)
    requires AccountInv(u, w) && Runs(u, w, xs, w')
    ensures AccountInv(u, w')
    decreases |xs|
  {
    if xs != [] {
      StepKeepsAccount(u, w, xs[0]);
      RunKeepsAccount(u, Step(u, w, xs[0]), xs[1..], w');
    }
  }

  // ------------------------------------------------------------------ main claims

  /** In every run from an empty cache, whatever the interleaving, every finished task is accounted for. */
  lemma EveryTaskAccounted(u: Setup, start: Time, xs: seq<Tick>, w: World, t: TaskId)
    requires RoundTrips(u.cfg.codec) && Runs(u, Empty(start), xs, w) && t in w.tasks
    ensures if w.tasks[t].phase.Finished? then Accounted(u, w, t) else Unwritten(w, t)
  {
    EmptyCacheInv(u, start);
    RunKeepsAccount(u, Empty(start), xs, w);
    assert TaskFits(u, w, t);
  }

  predicate Refetches(p: Phase) {
    (p.Fetching? || p.Returning?) && p.trip.again
  }

  /** A refetch is unconditional, so it is never answered 304: under way, on its way back or completed. */
  lemma RefetchUnconditional(u: Setup, start: Time, xs: seq<Tick>, w: World)
    requires RoundTrips(u.cfg.codec) && Runs(u, Empty(start), xs, w)
    ensures forall t :: t in w.tasks && Refetches(w.tasks[t].phase) ==>
              var p := w.tasks[t].phase; p.trip.sent == None && (p.Returning? ==> p.resp.status != 304)
    ensures forall c :: c in w.futures && c.again ==> w.futures[c].sent == None && w.futures[c].resp.status != 304
  {
    EmptyCacheInv(u, start);
    RunKeepsAccount(u, Empty(start), xs, w);
    forall t | t in w.tasks && Refetches(w.tasks[t].phase)
      ensures var p := w.tasks[t].phase; p.trip.sent == None && (p.Returning? ==> p.resp.status != 304) {
      assert TaskFits(u, w, t) && PhaseFits(u, w.tasks[t].key, w.tasks[t].phase, w.now);
    }
    forall c | c in w.futures && c.again ensures w.futures[c].sent == None && w.futures[c].resp.status != 304 {
      assert FutureAsks(w, c) && FutureFits(u, w, c);
    }
  }

  /** No request is ever answered with a 304. */
  lemma NeverServed304(u: Setup, start: Time, xs: seq<Tick>, w: World, t: TaskId)
    requires RoundTrips(u.cfg.codec) && Runs(u, Empty(start), xs, w)
    requires t in w.tasks && w.tasks[t].phase.Finished? && w.tasks[t].phase.reply.Reply?
    ensures w.tasks[t].phase.reply.status != 304
  {
    EveryTaskAccounted(u, start, xs, w, t);
  }

  // ---------------------------------------------------------- one at a time

  /** Request t has asked upstream for its key, or asked again, and the answer is not back. */
  predicate IsAsking(w: World, t: TaskId, again: bool) {
    && t in w.tasks && t !in w.collectors
    && (w.tasks[t].phase.Fetching? || w.tasks[t].phase.Returning?) && w.tasks[t].phase.trip.again == again
  }

  /** At most one request at a time asks for a key, and at most one asks again. */
  ghost predicate OneAsks(w: World) {
    forall t, o, again :: IsAsking(w, t, again) && IsAsking(w, o, again) && w.tasks[t].key == w.tasks[o].key ==> t == o
  }

  lemma StepKeepsOneAsks(u: Setup, w: World, x: Tick)
    requires AccountInv(u, w) && Possible(u, w, x) && OneAsks(w)
    ensures OneAsks(Step(u, w, x))
  {
    var w' := Step(u, w, x);
    forall t, o, again | IsAsking(w', t, again) && IsAsking(w', o, again) && w'.tasks[t].key == w'.tasks[o].key
      ensures t == o
    {
      AskedBefore(u, w, x, t, again);
      AskedBefore(u, w, x, o, again);
    }
  }

  /** Who asks now asked before, or is the first to ask. */
  lemma AskedBefore(u: Setup, w: World, x: Tick, t: TaskId, again: bool)
    requires AccountInv(u, w) && Possible(u, w, x) && IsAsking(Step(u, w, x), t, again)
    ensures t in w.tasks && Step(u, w, x).tasks[t].key == w.tasks[t].key
    ensures || IsAsking(w, t, again)
            || (x.e == Lead(t) && forall o :: IsAsking(w, o, again) ==> w.tasks[o].key != w.tasks[t].key)
  {
    if x.e == Lead(t) {
      forall o | IsAsking(w, o, again) ensures w.tasks[o].key != w.tasks[t].key {
        assert TaskFits(u, w, o);
      }
    }
  }

  /** A request that is about to coalesce leads if nobody asks for its key, and joins whoever does. */
  lemma LeadsOrJoins(u: Setup, w: World, t: TaskId, l: TaskId)
    requires AccountInv(u, w) && t in w.tasks && w.tasks[t].phase.Ready?
    ensures var k, again := w.tasks[t].key, w.tasks[t].phase.again;
            && (Enabled(w, Lead(t)) <==> forall o :: IsAsking(w, o, again) ==> w.tasks[o].key != k)
            && (Enabled(w, Join(t, l)) <==> IsAsking(w, l, again) && w.tasks[l].key == k)
  {
    var k, again := w.tasks[t].key, w.tasks[t].phase.again;
    assert TaskFits(u, w, l);
    forall o | o in w.tasks && w.tasks[o].key == k ensures Flying(w.tasks[o].phase, again) <==> IsAsking(w, o, again) {
      assert TaskFits(u, w, o);
    }
  }

  /** So it is in every run from an empty cache. */
  lemma {:induction false} AtMostOneAsks(u: Setup, w: World, xs: seq<Tick>, w': World)
    requires AccountInv(u, w) && OneAsks(w) && Runs(u, w, xs, w')
    ensures OneAsks(w')
    decreases |xs|
  {
    if xs != [] {
      StepKeepsAccount(u, w, xs[0]);
      StepKeepsOneAsks(u, w, xs[0]);
      AtMostOneAsks(u, Step(u, w, xs[0]), xs[1..], w');
    }
  }
}
