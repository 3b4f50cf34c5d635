/**
 Whole runs of dispatches and collector stores over the hot cache, in every
 interleaving (app/proxy.py:134-248, app/coalesce.py:26-47, app/collector.py:48-57).

 Any number of tasks, on any keys, take their round trips one at a time and in any
 order; waiters join the executions of leaders until the answer is back.  Upstream is a
 history: what it held for every key at every moment.
 */
module DispatchRuns {
  import opened Common
  import opened Cache
  import opened Dispatch
  import Breaker

  // -------------------------------------------------------------------- upstream

  /** What upstream holds for a key at some moment. */
  datatype Version = Version(body: Bytes, etag: Option<string>)

  type History = (Key, Time) -> Version

  datatype Setup = Setup(cfg: Config, st: Settings, held: History)

  /** Upstream never uses one ETag for two bodies of one resource. */
  ghost predicate OneBodyPerTag(held: History) {
    forall k, t, t' :: Truthy(held(k, t).etag) && held(k, t').etag == held(k, t).etag ==>
      held(k, t').body == held(k, t).body
  }

  /**
   `r` answers a request that sent `sent` when upstream held `v`.  A 304 only ever
   answers a matching ETag (sections 13.1.2 and 15.4.5 of RFC 9110); a single-page 200
   carries the version, a merged one carries no ETag; other statuses are free.
   */
  predicate Answers(r: Resp, sent: Option<string>, v: Version) {
    && (r.notModified <==> r.status == 304)
    && (r.notModified ==> Truthy(sent) && sent == v.etag && r.etag == sent && r.pageCount == 1)
    && (r.status == 200 && r.pageCount <= 1 ==> r.body == v.body && (r.etag == v.etag || r.etag == None))
    && (r.status == 200 && r.pageCount > 1 ==> r.etag == None)
    && (r.maxAge.Some? ==> r.maxAge.value >= 0)
    && Plain(r.body)
  }

  // ----------------------------------------------------------------------- worlds

  datatype Task = Task(key: Key, arrived: Time, phase: Phase)

  /** A `set` that was made, and the execution it stores. */
  datatype Stored = Stored(args: SetArgs, basis: Fetch)

  /** A `set_negative` that was made, and the execution it rests on. */
  datatype Refused = Refused(args: NegArgs, basis: Fetch)

  /** Redis, the tasks, the coalesced executions so far, and per key its last writes. */
  datatype World = World(
    store: Store,
    tasks: map<TaskId, Task>,
    futures: map<Call, Fetch>,
    hot: map<Key, Stored>,       // the last `set` whose body Redis took
    last: map<Key, Stored>,      // the last `set`
    neg: map<Key, Refused>,      // the last `set_negative`, if no `set` came after it
    collectors: set<TaskId>,     // the tasks that are collectors, not requests
    wrote: map<TaskId, Effect>,  // the cache write each task has made
    now: Time)

  datatype Event =
    | Arrive(t: TaskId, key: Key)
    | Proceed(t: TaskId, fb: Fallback)         // its next round trip to Redis
    | Lead(t: TaskId)
    | Join(t: TaskId, leader: TaskId)
    | Gather(t: TaskId, key: Key)              // a collector asks upstream
    | Answer(t: TaskId, resp: Resp)            // upstream answers a leader or a collector
    | Receive(t: TaskId)                       // the answer is back
    | Wake(t: TaskId)
    | Abort(t: TaskId)

  datatype Tick = Tick(at: Time, e: Event)

  /** Leads an execution from which nobody has heard yet. */
  predicate Flying(p: Phase, again: bool) {
    (p.Fetching? || p.Returning?) && p.trip.shared && p.trip.again == again
  }

  predicate Enabled(w: World, e: Event) {
    if e.Arrive? || e.Gather? then e.t !in w.tasks
    else
      e.t in w.tasks
      && var task := w.tasks[e.t];
         match e
         case Proceed(_, _) => OnItsOwn(task.phase)
         case Lead(_) => task.phase.Ready? && !InFlight(w, task.key, task.phase.again)
         case Join(_, l) =>
           && task.phase.Ready? && l in w.tasks && w.tasks[l].key == task.key
           && Flying(w.tasks[l].phase, task.phase.again)
         case Answer(_, _) => task.phase.Fetching?
         case Receive(_) => task.phase.Returning?
         case Wake(_) => task.phase.Waiting? && task.phase.call in w.futures
         case Abort(_) => !task.phase.Finished?
  }

  predicate InFlight(w: World, k: Key, again: bool) {
    exists l :: l in w.tasks && w.tasks[l].key == k && Flying(w.tasks[l].phase, again)
  }

  function KeyOf(w: World, e: Event): Key
    requires Enabled(w, e)
  {
    if e.Arrive? || e.Gather? then e.key else w.tasks[e.t].key
  }

  /** Upstream's answers are honest about what it holds at that moment. */
  predicate Honest(u: Setup, w: World, x: Tick)
    requires Enabled(w, x.e)
  {
    x.e.Answer? ==> Answers(x.e.resp, w.tasks[x.e.t].phase.trip.sent, u.held(w.tasks[x.e.t].key, x.at))
  }

  ghost predicate Possible(u: Setup, w: World, x: Tick) {
    w.now <= x.at && Enabled(w, x.e) && Honest(u, w, x)
  }

  /** The execution whose answer is back with this event. */
  function Completed(w: World, x: Tick): Option<Fetch>
    requires Enabled(w, x.e)
  {
    if x.e.Receive? then
      var p := w.tasks[x.e.t].phase;
      Some(Fetch(Call(x.e.t, p.trip.again), p.trip.sent, p.resp, Span(p.trip.since, p.at, x.at)))
    else None
  }

  /** What the answer is to whoever asked: a collector stores a 200 and skips anything else. */
  function Deliver(st: Settings, f: Fetch, shared: bool): Phase {
    if shared then Settle(st, f, true)
    else if f.resp.status == 200 then Writing(Keeping(f.resp), f)
    else Finished(Skipped, Some(f), None)
  }

  function NextPhase(u: Setup, w: World, x: Tick): Phase
    requires Enabled(w, x.e)
  {
    match x.e
    case Arrive(_, _) => Looking
    case Proceed(t, fb) => Advance(u.cfg, u.st, w.tasks[t].key, w.store, w.tasks[t].phase, x.at, fb)
    case Lead(t) => Fetching(Trip(w.tasks[t].phase.again, true, w.tasks[t].phase.sent, x.at))
    case Join(t, l) => Waiting(Call(l, w.tasks[t].phase.again))
    case Gather(_, _) => Fetching(Trip(false, false, None, x.at))
    case Answer(t, r) => Returning(w.tasks[t].phase.trip, r, x.at)
    case Receive(t) => Deliver(u.st, Completed(w, x).value, w.tasks[t].phase.trip.shared)
    case Wake(t) => Settle(u.st, w.futures[w.tasks[t].phase.call], false)
    case Abort(_) => Finished(Raised, None, None)
  }

  /** The cache write of an event. */
  function EventEffect(u: Setup, w: World, x: Tick): Effect
    requires Enabled(w, x.e)
  {
    if x.e.Proceed? then EffectOf(u.st, w.tasks[x.e.t].phase, x.at) else NoEffect
  }

  function NextNeg(w: World, k: Key, t: TaskId, e: Effect): map<Key, Refused>
    requires e.DidSetNegative? ==> t in w.tasks && w.tasks[t].phase.Writing?
  {
    match e
    case NoEffect => w.neg
    case DidSet(_) => w.neg - {k}
    case DidSetNegative(n) => w.neg[k := Refused(n, w.tasks[t].phase.f)]
  }

  function Step(u: Setup, w: World, x: Tick): World
    requires Enabled(w, x.e)
  {
    var k, f, e := KeyOf(w, x.e), Completed(w, x), EventEffect(u, w, x);
    var arrived := if x.e.t in w.tasks then w.tasks[x.e.t].arrived else x.at;
    World(
      Apply(u.cfg, w.store, k, e),
      w.tasks[x.e.t := Task(k, arrived, NextPhase(u, w, x))],
      if f.Some? then w.futures[f.value.call := f.value] else w.futures,
      if e.DidSet? && e.args.ttl > 0 then w.hot[k := Stored(e.args, w.tasks[x.e.t].phase.f)] else w.hot,
      if e.DidSet? then w.last[k := Stored(e.args, w.tasks[x.e.t].phase.f)] else w.last,
      NextNeg(w, k, x.e.t, e),
      if x.e.Gather? then w.collectors + {x.e.t} else w.collectors,
      if e.NoEffect? then w.wrote else w.wrote[x.e.t := e],
      x.at)
  }

  function Empty(now: Time): World {
    World(Store(map[], map[], map[], map[], map[], map[]), map[], map[], map[], map[], map[], {}, map[], now)
  }

  // ---------------------------------------------------------------- serialisation

  /** Between its ETag read and its read of the stale copy, unless it takes part in execution `call`. */
  predicate Exposed(futures: map<Call, Fetch>, p: Phase, call: Call) {
    match p
    case Ready(again, sent) => !again && Truthy(sent)
    case Fetching(trip) => !trip.again && Truthy(trip.sent)
    case Returning(trip, r, _) => !trip.again && r.notModified
    case Waiting(c) => !c.again && c != call && c in futures && futures[c].resp.notModified
    case Reviving(f, _) => f.call != call
    case _ => false
  }

  /**
   The operations on one key are serialised: nobody stores a body under it while another
   task of that key, not served by the very execution being stored, is between its read
   of the ETag and its read of the stale copy.  Nothing is asked of other keys.
   */
  ghost predicate Serial(w: World, e: Event)
    requires Enabled(w, e)
  {
    e.Proceed? && w.tasks[e.t].phase.Writing? && w.tasks[e.t].phase.w.Putting? ==>
      forall o :: o in w.tasks && o != e.t && w.tasks[o].key == w.tasks[e.t].key ==>
        !Exposed(w.futures, w.tasks[o].phase, w.tasks[e.t].phase.f.call)
  }

  /** A task of another key never stands in the way of a step, wherever it is. */
  lemma SerialIgnoresOtherKeys(w: World, e: Event, t: TaskId)
    requires Enabled(w, e) && t in w.tasks && t != e.t && w.tasks[t].key != KeyOf(w, e)
    ensures var w' := w.(tasks := w.tasks - {t});
            Enabled(w', e) && KeyOf(w', e) == KeyOf(w, e) && (Serial(w', e) <==> Serial(w, e))
  {
    var w' := w.(tasks := w.tasks - {t});
    if e.Proceed? && w.tasks[e.t].phase.Writing? && w.tasks[e.t].phase.w.Putting? && Serial(w', e) {
      forall o | o in w.tasks && o != e.t && w.tasks[o].key == w.tasks[e.t].key
        ensures !Exposed(w.futures, w.tasks[o].phase, w.tasks[e.t].phase.f.call)
      {
        assert o in w'.tasks && w'.tasks[o] == w.tasks[o];
      }
    }
  }

  ghost predicate Legal(u: Setup, w: World, x: Tick) {
    Possible(u, w, x) && Serial(w, x.e)
  }

  // ----------------------------------------------- what every interleaving keeps

  function ArgsIn(m: map<Key, Stored>, k: Key): Option<SetArgs> {
    if k in m then Some(m[k].args) else None
  }

  function RefusedIn(m: map<Key, Refused>, k: Key): Option<NegArgs> {
    if k in m then Some(m[k].args) else None
  }

  /** Upstream answered this execution, on this key, when it says, and it is back by now. */
  ghost predicate Fetched(u: Setup, k: Key, f: Fetch, now: Time) {
    && Answers(f.resp, f.sent, u.held(k, f.span.at))
    && f.span.since <= f.span.at <= f.span.received <= now
  }

  /** A body, its stale window and what it rests on are of one kind. */
  ghost predicate StoredFits(u: Setup, k: Key, x: Stored) {
    Fetched(u, k, x.basis, x.args.at) && Plain(x.args.body) && x.args.staleTtl == StaleTtlFor(u.st, x.args.body)
  }

  /** A response that is worth a negative entry, and for how long. */
  ghost predicate Refusable(st: Settings, r: Resp, body: Bytes, status: int, ttl: int) {
    && body == r.body && status == r.status
    && 400 <= status < 500 && status != 420 && status != 429
    && 0 < ttl == if r.maxAge.Some? then r.maxAge.value else st.negativeCacheTtlSeconds
  }

  ghost predicate RefusedFits(u: Setup, k: Key, x: Refused) {
    Fetched(u, k, x.basis, x.args.at) && Refusable(u.st, x.basis.resp, x.args.body, x.args.status, x.args.ttl)
  }

  ghost predicate KeySound(u: Setup, w: World, k: Key) {
    && BodyProjects(u.cfg, w.store, k, ArgsIn(w.hot, k), w.now)
    && RestProjects(u.cfg, w.store, k, ArgsIn(w.last, k), w.now)
    && NegativeProjects(w.store, k, RefusedIn(w.neg, k), w.now)
    && (k in w.hot ==> StoredFits(u, k, w.hot[k]))
    && (k in w.last ==> StoredFits(u, k, w.last[k]))
    && (k in w.neg ==> RefusedFits(u, k, w.neg[k]))
  }

  /** A write that is about to be made is one this service would make. */
  ghost predicate PendingFits(st: Settings, w: Pending, r: Resp) {
    match w
    case Putting(b, ttl, _, _) => Plain(b) && ttl >= 0 && (ttl == 0 <==> r.notModified && r.maxAge == Some(0))
    case Refusing(b, status, ttl) => Refusable(st, r, b, status, ttl)
  }

  ghost predicate PhaseFits(u: Setup, k: Key, p: Phase, now: Time) {
    match p
    case Fetching(trip) => trip.since <= now
    case Returning(trip, r, at) => trip.since <= at <= now && Answers(r, trip.sent, u.held(k, at))
    case Reviving(f, _) => f.resp.notModified && !f.call.again
    case Held(f, _, b) => f.resp.notModified && !f.call.again && f.resp.maxAge == None && Plain(b)
    case Writing(w, f) => PendingFits(u.st, w, f.resp)
    case _ => true
  }

  /** The execution a task has the answer of. */
  function BasisOf(p: Phase): Option<Fetch> {
    match p
    case Reviving(f, _) => Some(f)
    case Held(f, _, _) => Some(f)
    case Degraded(f) => Some(f)
    case Writing(_, f) => Some(f)
    case Finished(_, basis, _) => basis
    case _ => None
  }

  /** Execution f was on this task's key, and came back while the task was there. */
  ghost predicate Based(w: World, task: Task, f: Fetch) {
    && f.call in w.futures && w.futures[f.call] == f
    && f.call.leader in w.tasks && w.tasks[f.call.leader].key == task.key
    && task.arrived <= f.span.received
  }

  /** Whom a task waits for is a task of the same key, which comes back later than the waiter came. */
  ghost predicate Waits(w: World, task: Task, call: Call) {
    && call.leader in w.tasks && w.tasks[call.leader].key == task.key
    && (call in w.futures ==> task.arrived <= w.futures[call].span.received)
  }

  /** The executions a task has yet to lead are not there yet. */
  ghost predicate Unled(t: TaskId, p: Phase, futures: map<Call, Fetch>) {
    && (p.Looking? || p.Missed? || p.Unread?
        || (p.Ready? && !p.again) || ((p.Fetching? || p.Returning?) && !p.trip.again) ==>
          Call(t, false) !in futures && Call(t, true) !in futures)
    && ((p.Waiting? && !p.call.again) || p.Reviving? || p.Held? || p.Ready? || p.Fetching? || p.Returning? ==>
          Call(t, true) !in futures)
  }

  ghost predicate Grounded(w: World, t: TaskId) {
    t in w.tasks ==>
      var task := w.tasks[t];
      && task.arrived <= w.now && Unled(t, task.phase, w.futures)
      && (task.phase.Waiting? ==> Waits(w, task, task.phase.call))
      && (task.phase.Fetching? || task.phase.Returning? ==> task.arrived <= task.phase.trip.since)
      && (BasisOf(task.phase).Some? ==> Based(w, task, BasisOf(task.phase).value))
  }

  /** An execution is named after its leader, who was there when it began. */
  ghost predicate FutureFits(u: Setup, w: World, c: Call) {
    c in w.futures ==>
      && w.futures[c].call == c && c.leader in w.tasks
      && Fetched(u, w.tasks[c.leader].key, w.futures[c], w.now)
      && w.tasks[c.leader].arrived <= w.futures[c].span.since
  }

  ghost predicate CacheInv(u: Setup, w: World) {
    && RoundTrips(u.cfg.codec)
    && (forall k :: KeySound(u, w, k))
    && (forall t :: t in w.tasks ==> PhaseFits(u, w.tasks[t].key, w.tasks[t].phase, w.now))
    && (forall c :: FutureFits(u, w, c))
    && (forall t :: Grounded(w, t))
  }

  lemma EmptyCacheInv(u: Setup, now: Time)
    requires RoundTrips(u.cfg.codec)
    ensures CacheInv(u, Empty(now))
  {
  }

  /** What a task rests on was answered as it says. */
  lemma BasisFetched(u: Setup, w: World, t: TaskId)
    requires CacheInv(u, w) && t in w.tasks && BasisOf(w.tasks[t].phase).Some?
    ensures var f := BasisOf(w.tasks[t].phase).value;
            && Based(w, w.tasks[t], f) && Fetched(u, w.tasks[t].key, f, w.now)
            && w.tasks[f.call.leader].arrived <= f.span.since
  {
    assert Grounded(w, t);
    assert FutureFits(u, w, BasisOf(w.tasks[t].phase).value.call);
  }

  /** A live stale copy is the body of the last `set`. */
  lemma StaleIsLast(u: Setup, w: World, k: Key, t: Time)
    requires CacheInv(u, w) && w.now <= t
    ensures StaleCopy(u.cfg, w.store, k, t)
            == if StaleUntil(ArgsIn(w.last, k), t) then Some(w.last[k].args.body) else None
  {
    assert KeySound(u, w, k);
    assert Live(w.store.stale, k, t)
           == if StaleUntil(ArgsIn(w.last, k), t) then Some(Encode(u.cfg, w.last[k].args.body)) else None;
    if k in w.last { EncodeReadsBack(u.cfg, w.last[k].args.body); }
  }

  // ------------------------------------------------------------------ its phases

  lemma SettleFits(u: Setup, k: Key, f: Fetch, leads: bool, now: Time)
    requires Fetched(u, k, f, now)
    ensures PhaseFits(u, k, Settle(u.st, f, leads), now)
  {
  }

  lemma AdvanceFits(u: Setup, w: World, t: TaskId, at: Time, fb: Fallback)
    requires CacheInv(u, w) && t in w.tasks && OnItsOwn(w.tasks[t].phase) && w.now <= at
    ensures PhaseFits(u, w.tasks[t].key, Advance(u.cfg, u.st, w.tasks[t].key, w.store, w.tasks[t].phase, at, fb), at)
  {
    var k := w.tasks[t].key;
    assert PhaseFits(u, k, w.tasks[t].phase, w.now) && KeySound(u, w, k);
    StaleIsLast(u, w, k, at);
    if w.tasks[t].phase.Reviving? { BasisFetched(u, w, t); }
    assert Live(w.store.ttl, k, at).Some? ==> Live(w.store.ttl, k, at).value >= 0;
  }

  lemma NextPhaseFits(u: Setup, w: World, x: Tick)
    requires CacheInv(u, w) && Possible(u, w, x)
    ensures PhaseFits(u, KeyOf(w, x.e), NextPhase(u, w, x), x.at)
  {
    var k := KeyOf(w, x.e);
    if x.e.t in w.tasks { assert PhaseFits(u, k, w.tasks[x.e.t].phase, w.now); }
    match x.e
    case Proceed(t, fb) => AdvanceFits(u, w, t, x.at, fb);
    case Receive(t) => SettleFits(u, k, Completed(w, x).value, true, x.at);
    case Wake(t) =>
      assert FutureFits(u, w, w.tasks[t].phase.call) && Grounded(w, t);
      SettleFits(u, k, w.futures[w.tasks[t].phase.call], false, x.at);
    case _ =>
  }

  // ------------------------------------------------------------------- its entries

  lemma UntouchedSound(u: Setup, w: World, w': World, k: Key)
    requires KeySound(u, w, k) && KeyUntouched(w.store, w'.store, k) && w.now <= w'.now
    requires Untouched(w.hot, w'.hot, k) && Untouched(w.last, w'.last, k) && Untouched(w.neg, w'.neg, k)
    ensures KeySound(u, w', k)
  {
    UntouchedProjects(u.cfg, w.store, w'.store, k, ArgsIn(w.hot, k), ArgsIn(w.last, k), RefusedIn(w.neg, k),
                      w.now, w'.now);
  }

  lemma StepKeepsKey(u: Setup, w: World, x: Tick, k: Key)
    requires CacheInv(u, w) && Possible(u, w, x)
    ensures KeySound(u, Step(u, w, x), k)
  {
    var e, key := EventEffect(u, w, x), KeyOf(w, x.e);
    if k == key && !e.NoEffect? {
      EffectKeepsKey(u, w, x);
    } else {
      assert KeySound(u, w, k);
      if e.DidSet? {
        SetElsewhere(u.cfg, w.store, key, e.args, k);
      } else if e.DidSetNegative? {
        SetNegativeElsewhere(w.store, key, e.refused, k);
      }
      UntouchedSound(u, w, Step(u, w, x), k);
    }
  }

  lemma EffectKeepsKey(u: Setup, w: World, x: Tick)
    requires CacheInv(u, w) && Possible(u, w, x) && !EventEffect(u, w, x).NoEffect?
    ensures KeySound(u, Step(u, w, x), KeyOf(w, x.e))
  {
    var k := KeyOf(w, x.e);
    assert KeySound(u, w, k) && PhaseFits(u, k, w.tasks[x.e.t].phase, w.now);
    BasisFetched(u, w, x.e.t);
    match EventEffect(u, w, x)
    case DidSet(a) => SetProjects(u.cfg, w.store, k, ArgsIn(w.hot, k), ArgsIn(w.last, k), w.now, a);
    case DidSetNegative(n) =>
      SetNegativeProjects(u.cfg, w.store, k, ArgsIn(w.hot, k), ArgsIn(w.last, k), w.now, n);
  }

  // ---------------------------------------------------------------- its executions

  lemma StepKeepsFuture(u: Setup, w: World, x: Tick, c: Call)
    requires CacheInv(u, w) && Possible(u, w, x)
    ensures FutureFits(u, Step(u, w, x), c)
  {
    assert FutureFits(u, w, c);
    if x.e.Receive? {
      assert Grounded(w, x.e.t) && PhaseFits(u, w.tasks[x.e.t].key, w.tasks[x.e.t].phase, w.now);
    }
  }

  lemma SettleUnled(st: Settings, t: TaskId, f: Fetch, leads: bool, futures: map<Call, Fetch>)
    requires !f.call.again ==> Call(t, true) !in futures
    ensures Unled(t, Settle(st, f, leads), futures)
  {
  }

  lemma AdvanceUnled(u: Setup, k: Key, s: Store, t: TaskId, p: Phase, at: Time, fb: Fallback, futures: map<Call, Fetch>)
    requires OnItsOwn(p) && Unled(t, p, futures)
    ensures Unled(t, Advance(u.cfg, u.st, k, s, p, at, fb), futures)
  {
  }

  /** No task comes back to leading an execution it has led. */
  lemma OwnUnled(u: Setup, w: World, x: Tick)
    requires CacheInv(u, w) && Possible(u, w, x)
    ensures var w' := Step(u, w, x); Unled(x.e.t, w'.tasks[x.e.t].phase, w'.futures)
  {
    var t := x.e.t;
    assert Grounded(w, t) && FutureFits(u, w, Call(t, false)) && FutureFits(u, w, Call(t, true));
    match x.e
    case Proceed(_, fb) => AdvanceUnled(u, w.tasks[t].key, w.store, t, w.tasks[t].phase, x.at, fb, w.futures);
    case Receive(_) => SettleUnled(u.st, t, Completed(w, x).value, true, Step(u, w, x).futures);
    case Wake(_) =>
      assert FutureFits(u, w, w.tasks[t].phase.call);
      SettleUnled(u.st, t, w.futures[w.tasks[t].phase.call], false, w.futures);
    case _ =>
  }

  /** A task comes by its answer by receiving it or by waking up to it, and then keeps to it. */
  lemma BasisComes(u: Setup, w: World, x: Tick)
    requires Possible(u, w, x) && BasisOf(NextPhase(u, w, x)).Some?
    ensures var f := BasisOf(NextPhase(u, w, x));
            match x.e
            case Receive(_) => f == Completed(w, x)
            case Wake(t) => f == Some(w.futures[w.tasks[t].phase.call])
            case Proceed(t, _) => f == BasisOf(w.tasks[t].phase)
            case _ => false
  {
  }

  lemma OwnGrounded(u: Setup, w: World, x: Tick)
    requires CacheInv(u, w) && Possible(u, w, x)
    ensures Grounded(Step(u, w, x), x.e.t)
  {
    var t, w' := x.e.t, Step(u, w, x);
    OwnUnled(u, w, x);
    assert Grounded(w, t);
    if BasisOf(w'.tasks[t].phase).Some? {
      BasisComes(u, w, x);
      OwnBased(u, w, x);
    }
    if x.e.Join? {
      assert Grounded(w, x.e.leader);
    }
  }

  lemma OwnBased(u: Setup, w: World, x: Tick)
    requires CacheInv(u, w) && Possible(u, w, x) && BasisOf(NextPhase(u, w, x)).Some?
    ensures var w' := Step(u, w, x); Based(w', w'.tasks[x.e.t], BasisOf(NextPhase(u, w, x)).value)
  {
    BasisComes(u, w, x);
    assert Grounded(w, x.e.t);
    match x.e
    case Wake(t) => assert FutureFits(u, w, w.tasks[t].phase.call);
    case _ =>
  }

  /** The steps of others do not touch what a task rests on. */
  lemma OtherGrounded(u: Setup, w: World, x: Tick, o: TaskId)
    requires CacheInv(u, w) && Possible(u, w, x) && o != x.e.t
    ensures Grounded(Step(u, w, x), o)
  {
    assert Grounded(w, o) && Grounded(w, x.e.t);
  }

  /** Whatever the interleaving, serialised or not, each key's entries are those of its last writes. */
  lemma StepKeepsCacheInv(u: Setup, w: World, x: Tick)
    requires CacheInv(u, w) && Possible(u, w, x)
    ensures CacheInv(u, Step(u, w, x))
  {
    var w' := Step(u, w, x);
    forall k ensures KeySound(u, w', k) {
      StepKeepsKey(u, w, x, k);
    }
    forall c ensures FutureFits(u, w', c) {
      StepKeepsFuture(u, w, x, c);
    }
    forall t ensures Grounded(w', t) {
      if t == x.e.t {
        OwnGrounded(u, w, x);
      } else {
        OtherGrounded(u, w, x, t);
      }
    }
    forall t | t in w'.tasks ensures PhaseFits(u, w'.tasks[t].key, w'.tasks[t].phase, w'.now) {
      if t == x.e.t {
        NextPhaseFits(u, w, x);
      } else {
        assert PhaseFits(u, w.tasks[t].key, w.tasks[t].phase, w.now);
      }
    }
  }

  // ------------------------------------------------------------------------ runs

  /** Any interleaving. */
  ghost predicate Runs(u: Setup, w: World, xs: seq<Tick>, w': World)
    decreases |xs|
  {
    if xs == [] then w == w' else Possible(u, w, xs[0]) && Runs(u, Step(u, w, xs[0]), xs[1..], w')
  }

  /** An interleaving that serialises the operations on each key, and nothing else. */
  ghost predicate SerialRuns(u: Setup, w: World, xs: seq<Tick>, w': World)
    decreases |xs|
  {
    if xs == [] then w == w' else Legal(u, w, xs[0]) && SerialRuns(u, Step(u, w, xs[0]), xs[1..], w')
  }

  lemma {:induction false} RunKeepsCacheInv(u: Setup, w: World, xs: seq<Tick>, w': World)
    requires CacheInv(u, w) && Runs(u, w, xs, w')
    ensures CacheInv(u, w') && w.now <= w'.now
    decreases |xs|
  {
    if xs != [] {
      StepKeepsCacheInv(u, w, xs[0]);
      RunKeepsCacheInv(u, Step(u, w, xs[0]), xs[1..], w');
    }
  }

  lemma {:induction false} RunsFurther(u: Setup, w: World, xs: seq<Tick>, w': World, x: Tick)
    requires Runs(u, w, xs, w') && Possible(u, w', x)
    ensures Runs(u, w, xs + [x], Step(u, w', x))
    decreases |xs|
  {
    if xs == [] {
      assert Runs(u, Step(u, w', x), [], Step(u, w', x));
    } else {
      RunsFurther(u, Step(u, w, xs[0]), xs[1..], w', x);
      assert (xs + [x])[1..] == xs[1..] + [x];
    }
  }

  lemma {:induction false} SerialRunsFurther(u: Setup, w: World, xs: seq<Tick>, w': World, x: Tick)
    requires SerialRuns(u, w, xs, w') && Legal(u, w', x)
    ensures SerialRuns(u, w, xs + [x], Step(u, w', x))
    decreases |xs|
  {
    if xs == [] {
      assert SerialRuns(u, Step(u, w', x), [], Step(u, w', x));
    } else {
      SerialRunsFurther(u, Step(u, w, xs[0]), xs[1..], w', x);
      assert (xs + [x])[1..] == xs[1..] + [x];
    }
  }
}
