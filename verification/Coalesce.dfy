/**
 Request coalescing (app/coalesce.py) as a transition system.

 Any number of calls of `coalesce` run as tasks.  A call takes the module lock,
 joins the in-flight future of its key or registers a new one, releases the lock,
 and then either awaits the future or, as leader, runs its own coroutine, resolves
 the future, takes the lock again and pops the key.  Every line that can be
 separated from its neighbours by another task is a step of its own, so the runs
 below are all interleavings.

 A future is created by exactly one call and is named after it.  Tasks may be
 cancelled wherever they are suspended on something other than the lock (the
 critical sections never suspend): the leader inside its coroutine, a waiter at
 its shielded wait.  The source catches `Exception` only, so a cancelled leader
 leaves its future unresolved.
 */
module Coalesce {
  import opened Common

  type CallId = nat
  type Key = string

  datatype Outcome<+V> = Returned(value: V) | Raised(error: string)

  datatype Pc<+V> =
    | Want                                           // about to take the lock the first time
    | Check                                          // holds the lock, looks at the in-flight map
    | Awaiting(leader: CallId)                       // suspended on somebody else's future
    | Running                                        // leader, inside its coroutine
    | Cleanup(finished: Option<Outcome<V>>)          // left the coroutine, wants the lock again
    | Popping(finished: Option<Outcome<V>>)          // holds the lock, about to pop
    | LeaderDone(finished: Option<Outcome<V>>)       // returned or raised; None if it was cancelled
    | WaiterDone(leader: CallId, outcome: Outcome<V>)
    | WaiterCancelled(leader: CallId)

  datatype Call<+V> = Call(key: Key, pc: Pc<V>)

  datatype State<V> = State(
    calls: map<CallId, Call<V>>,
    lock: Option<CallId>,
    inflight: map<Key, CallId>,
    futures: map<CallId, Option<Outcome<V>>>)        // None while unresolved

  datatype Action<+V> =
    | Arrive(c: CallId, key: Key)
    | Acquire(c: CallId)
    | Enter(c: CallId)
    | Finish(c: CallId, outcome: Outcome<V>)
    | Cancel(c: CallId)
    | AcquireAgain(c: CallId)
    | Pop(c: CallId)
    | Wake(c: CallId)
    | CancelWaiter(c: CallId)

  predicate Enabled<V>(s: State<V>, a: Action<V>) {
    match a
    case Arrive(c, _) => c !in s.calls
    case Acquire(c) => c in s.calls && s.calls[c].pc.Want? && s.lock == None
    case Enter(c) => c in s.calls && s.calls[c].pc.Check?
    case Finish(c, _) => c in s.calls && s.calls[c].pc.Running?
    case Cancel(c) => c in s.calls && s.calls[c].pc.Running?
    case AcquireAgain(c) => c in s.calls && s.calls[c].pc.Cleanup? && s.lock == None
    case Pop(c) => c in s.calls && s.calls[c].pc.Popping?
    case Wake(c) =>
      && c in s.calls && s.calls[c].pc.Awaiting?
      && s.calls[c].pc.leader in s.futures && s.futures[s.calls[c].pc.leader].Some?
    case CancelWaiter(c) => c in s.calls && s.calls[c].pc.Awaiting?
  }

  /** Moves one call to another program point. */
  function Goto<V>(s: State<V>, c: CallId, pc: Pc<V>): State<V>
    requires c in s.calls
  {
    s.(calls := s.calls[c := Call(s.calls[c].key, pc)])
  }

  function Step<V>(s: State<V>, a: Action<V>): State<V>
    requires Enabled(s, a)
  {
    match a
    case Arrive(c, key) => s.(calls := s.calls[c := Call(key, Want)])
    case Acquire(c) => Goto(s, c, Check).(lock := Some(c))
    case Enter(c) =>
      var key := s.calls[c].key;
      if key in s.inflight then
        Goto(s, c, Awaiting(s.inflight[key])).(lock := None)
      else
        Goto(s, c, Running).(lock := None, inflight := s.inflight[key := c], futures := s.futures[c := None])
    case Finish(c, outcome) =>
      Goto(s, c, Cleanup(Some(outcome))).(futures := s.futures[c := Some(outcome)])
    case Cancel(c) => Goto(s, c, Cleanup(None))
    case AcquireAgain(c) => Goto(s, c, Popping(s.calls[c].pc.finished)).(lock := Some(c))
    case Pop(c) =>
      Goto(s, c, LeaderDone(s.calls[c].pc.finished)).(lock := None, inflight := s.inflight - {s.calls[c].key})
    case Wake(c) =>
      var f := s.calls[c].pc.leader;
      Goto(s, c, WaiterDone(f, s.futures[f].value))
    case CancelWaiter(c) => Goto(s, c, WaiterCancelled(s.calls[c].pc.leader))
  }

  function Init<V>(): State<V> {
    State(map[], None, map[], map[])
  }

  /** `acts` leads from `s` to `t`, each action enabled where it is taken. */
  ghost predicate Leads<V>(s: State<V>, acts: seq<Action<V>>, t: State<V>)
    decreases |acts|
  {
    if acts == [] then s == t
    else Enabled(s, acts[0]) && Leads(Step(s, acts[0]), acts[1..], t)
  }

  ghost predicate Reachable<V(!new)>(s: State<V>) {
    exists acts :: Leads(Init(), acts, s)
  }

  // ---------------------------------------------------------------- invariant

  /** Between registering its future and popping it, a call owns its key. */
  predicate Owns<V>(pc: Pc<V>) {
    pc.Running? || pc.Cleanup? || pc.Popping?
  }

  predicate Led<V>(pc: Pc<V>) {
    Owns(pc) || pc.LeaderDone?
  }

  /** The outcome a leader has produced so far. */
  function Produced<V>(pc: Pc<V>): Option<Outcome<V>>
    requires Led(pc)
  {
    if pc.Running? then None else pc.finished
  }

  predicate Follows<V>(pc: Pc<V>) {
    pc.Awaiting? || pc.WaiterDone? || pc.WaiterCancelled?
  }

  /** The lock is held by exactly the call that stands inside a critical section. */
  ghost predicate LockInv<V>(s: State<V>) {
    && (s.lock.Some? ==> s.lock.value in s.calls)
    && (forall c :: c in s.calls ==> (s.lock == Some(c) <==> s.calls[c].pc.Check? || s.calls[c].pc.Popping?))
  }

  /** A key is in flight exactly while some call owns it, and then it maps to that call. */
  ghost predicate FlightInv<V>(s: State<V>) {
    && (forall c :: c in s.calls && Owns(s.calls[c].pc) ==> InFlight(s, s.calls[c].key, c))
    && (forall k :: k in s.inflight ==> s.inflight[k] in s.calls && OwnsKey(s.calls[s.inflight[k]], k))
  }

  predicate InFlight<V>(s: State<V>, k: Key, c: CallId) {
    k in s.inflight && s.inflight[k] == c
  }

  predicate OwnsKey<V>(call: Call<V>, k: Key) {
    call.key == k && Owns(call.pc)
  }

  /** Futures are those of the leaders, resolved exactly with what the leader produced. */
  ghost predicate FutureInv<V>(s: State<V>) {
    && (forall f :: f in s.futures <==> f in s.calls && Led(s.calls[f].pc))
    && (forall f :: f in s.futures ==> s.futures[f] == Produced(s.calls[f].pc))
  }

  ghost predicate WaiterInv<V>(s: State<V>) {
    forall c :: c in s.calls && Follows(s.calls[c].pc) ==> Followed(s, s.calls[c])
  }

  ghost predicate Inv<V>(s: State<V>) {
    LockInv(s) && FlightInv(s) && FutureInv(s) && WaiterInv(s)
  }

  /** A waiter's future belongs to a leader of the same key, and a served waiter has its outcome. */
  ghost predicate Followed<V>(s: State<V>, call: Call<V>)
    requires Follows(call.pc)
  {
    var f := call.pc.leader;
    && f in s.futures && f in s.calls && s.calls[f].key == call.key
    && (call.pc.WaiterDone? ==> s.futures[f] == Some(call.pc.outcome))
  }

  lemma StepKeepsLockInv<V>(s: State<V>, a: Action<V>)
    requires LockInv(s) && Enabled(s, a)
    ensures LockInv(Step(s, a))
  {
  }

  lemma StepKeepsFlightInv<V>(s: State<V>, a: Action<V>)
    requires FlightInv(s) && Enabled(s, a)
    ensures FlightInv(Step(s, a))
  {
    var t := Step(s, a);
    forall c | c in t.calls && Owns(t.calls[c].pc) ensures InFlight(t, t.calls[c].key, c) {
      assert c in s.calls && Owns(s.calls[c].pc) ==> InFlight(s, s.calls[c].key, c);
      assert a.c in s.calls && Owns(s.calls[a.c].pc) ==> InFlight(s, s.calls[a.c].key, a.c);
    }
  }

  lemma StepKeepsFutureInv<V>(s: State<V>, a: Action<V>)
    requires FutureInv(s) && Enabled(s, a)
    ensures FutureInv(Step(s, a))
  {
  }

  lemma StepKeepsWaiterInv<V>(s: State<V>, a: Action<V>)
    requires FlightInv(s) && FutureInv(s) && WaiterInv(s) && Enabled(s, a)
    ensures WaiterInv(Step(s, a))
  {
    var t := Step(s, a);
    forall c | c in t.calls && Follows(t.calls[c].pc) ensures Followed(t, t.calls[c]) {
      if c == a.c {
        assert a.Enter? || Followed(s, s.calls[c]);
      } else {
        assert t.calls[c] == s.calls[c];
        assert Followed(s, s.calls[c]);
      }
    }
  }

  lemma StepKeepsInv<V>(s: State<V>, a: Action<V>)
    requires Inv(s) && Enabled(s, a)
    ensures Inv(Step(s, a))
  {
    StepKeepsLockInv(s, a);
    StepKeepsFlightInv(s, a);
    StepKeepsFutureInv(s, a);
    StepKeepsWaiterInv(s, a);
  }

  lemma {:induction false} LeadsKeepsInv<V>(s: State<V>, acts: seq<Action<V>>, t: State<V>)
    requires Inv(s) && Leads(s, acts, t)
    ensures Inv(t)
    decreases |acts|
  {
    if acts != [] {
      StepKeepsInv(s, acts[0]);
      LeadsKeepsInv(Step(s, acts[0]), acts[1..], t);
    }
  }

  lemma ReachableInv<V(!new)>(s: State<V>)
    requires Reachable(s)
    ensures Inv(s)
  {
    var acts :| Leads(Init(), acts, s);
    LeadsKeepsInv(Init(), acts, s);
  }

  // ----------------------------------------------------------------- theorems

  /** At most one coroutine runs per key, cancellations or not. */
  lemma AtMostOneExecution<V(!new)>(s: State<V>, c: CallId, d: CallId)
    requires Reachable(s) && c in s.calls && d in s.calls
    requires s.calls[c].key == s.calls[d].key && Owns(s.calls[c].pc) && Owns(s.calls[d].pc)
    ensures c == d
  {
    ReachableInv(s);
    assert InFlight(s, s.calls[c].key, c) && InFlight(s, s.calls[d].key, d);
  }

  /** A call leads exactly when no other call of its key is between registering and popping. */
  lemma LeadsIffNobodyOwns<V(!new)>(s: State<V>, c: CallId)
    requires Reachable(s) && Enabled(s, Enter(c))
    ensures var pc := Step(s, Enter(c)).calls[c].pc;
            && (pc.Running? <==> forall d :: d in s.calls && Owns(s.calls[d].pc) ==> s.calls[d].key != s.calls[c].key)
            && (!pc.Running? ==> pc.Awaiting? && pc.leader in s.calls && OwnsKey(s.calls[pc.leader], s.calls[c].key))
  {
    ReachableInv(s);
    forall d | d in s.calls && Owns(s.calls[d].pc) ensures InFlight(s, s.calls[d].key, d) {
    }
  }

  /** A leader's pop removes its own future and nothing else. */
  lemma PopRemovesOwnFuture<V(!new)>(s: State<V>, c: CallId)
    requires Reachable(s) && Enabled(s, Pop(c))
    ensures InFlight(s, s.calls[c].key, c)
    ensures var t := Step(s, Pop(c));
            && t.futures == s.futures
            && s.calls[c].key !in t.inflight
            && forall k :: k in s.inflight && s.inflight[k] != c ==> InFlight(t, k, s.inflight[k])
  {
    ReachableInv(s);
    forall k | k in s.inflight && s.inflight[k] != c
      ensures InFlight(Step(s, Pop(c)), k, s.inflight[k])
    {
      assert OwnsKey(s.calls[s.inflight[k]], k);
    }
  }

  // A future once resolved keeps its outcome; an abandoned one stays unresolved.

  ghost predicate Abandoned<V>(s: State<V>, f: CallId) {
    f in s.futures && s.futures[f] == None && f in s.calls && !s.calls[f].pc.Running?
  }

  lemma {:induction false} ResolvedForGood<V>(s: State<V>, acts: seq<Action<V>>, t: State<V>,
                                              f: CallId, o: Outcome<V>)
    requires FutureInv(s) && Leads(s, acts, t) && f in s.futures && s.futures[f] == Some(o)
    ensures f in t.futures && t.futures[f] == Some(o)
    decreases |acts|
  {
    if acts != [] {
      StepKeepsFutureInv(s, acts[0]);
      ResolvedForGood(Step(s, acts[0]), acts[1..], t, f, o);
    }
  }

  lemma {:induction false} FinishedWith<V>(s: State<V>, acts: seq<Action<V>>, t: State<V>,
                                           f: CallId, o: Outcome<V>)
    requires FutureInv(s) && Leads(s, acts, t) && !(f in s.futures && s.futures[f] == Some(o))
    ensures f in t.futures && t.futures[f] == Some(o) <==> Finish(f, o) in acts
    decreases |acts|
  {
    if acts != [] {
      var s' := Step(s, acts[0]);
      StepKeepsFutureInv(s, acts[0]);
      if acts[0] == Finish(f, o) {
        ResolvedForGood(s', acts[1..], t, f, o);
      } else {
        assert Finish(f, o) in acts <==> Finish(f, o) in acts[1..];
        FinishedWith(s', acts[1..], t, f, o);
      }
    }
  }

  /**
   A waiter returns exactly what the leader it joined, a different call of the same
   key, finished with in this run.
   */
  lemma WaiterSharesLeaderOutcome<V(!new)>(acts: seq<Action<V>>, s: State<V>, c: CallId)
    requires Leads(Init(), acts, s) && c in s.calls && s.calls[c].pc.WaiterDone?
    ensures var f, o := s.calls[c].pc.leader, s.calls[c].pc.outcome;
            && f != c && f in s.calls && s.calls[f].key == s.calls[c].key
            && Finish(f, o) in acts
            && forall o' :: Finish(f, o') in acts ==> o' == o
  {
    LeadsKeepsInv(Init(), acts, s);
    var f, o := s.calls[c].pc.leader, s.calls[c].pc.outcome;
    assert Followed(s, s.calls[c]);
    forall o' ensures s.futures[f] == Some(o') <==> Finish(f, o') in acts {
      FinishedWith(Init(), acts, s, f, o');
    }
    assert s.futures[f] == Some(o);
  }

  lemma {:induction false} AbandonedForGood<V>(s: State<V>, acts: seq<Action<V>>, t: State<V>, f: CallId)
    requires FutureInv(s) && Leads(s, acts, t) && Abandoned(s, f)
    ensures Abandoned(t, f)
    decreases |acts|
  {
    if acts != [] {
      StepKeepsFutureInv(s, acts[0]);
      AbandonedForGood(Step(s, acts[0]), acts[1..], t, f);
    }
  }

  lemma {:induction false} AbandonedBy<V>(s: State<V>, acts: seq<Action<V>>, t: State<V>, f: CallId)
    requires FutureInv(s) && Leads(s, acts, t) && !Abandoned(s, f)
    ensures Abandoned(t, f) <==> Cancel(f) in acts
    decreases |acts|
  {
    if acts != [] {
      var s' := Step(s, acts[0]);
      StepKeepsFutureInv(s, acts[0]);
      if acts[0] == Cancel(f) {
        AbandonedForGood(s', acts[1..], t, f);
      } else {
        assert Action.Cancel(f) in acts <==> Action.Cancel(f) in acts[1..];
        AbandonedBy(s', acts[1..], t, f);
      }
    }
  }

  /**
   Every unresolved future has a live leader, except exactly those whose leader was
   cancelled inside its coroutine; such a future is never resolved afterwards.
   */
  lemma OrphanedIffLeaderCancelled<V(!new)>(acts: seq<Action<V>>, s: State<V>, f: CallId)
    requires Leads(Init(), acts, s) && f in s.futures && s.futures[f] == None
    ensures f in s.calls
    ensures s.calls[f].pc.Running? <==> Cancel(f) !in acts
  {
    LeadsKeepsInv(Init(), acts, s);
    AbandonedBy(Init(), acts, s, f);
  }

  /** Whoever waits for a cancelled leader is never served. */
  lemma {:induction false} OrphanNeverServed<V>(s: State<V>, acts: seq<Action<V>>, t: State<V>, c: CallId)
    requires FutureInv(s) && Leads(s, acts, t)
    requires c in s.calls && s.calls[c].pc.Awaiting? && Abandoned(s, s.calls[c].pc.leader)
    ensures c in t.calls
    ensures t.calls[c].pc == s.calls[c].pc || t.calls[c].pc == WaiterCancelled(s.calls[c].pc.leader)
    decreases |acts|
  {
    if acts != [] {
      var s' := Step(s, acts[0]);
      StepKeepsFutureInv(s, acts[0]);
      AbandonedForGood(s, [acts[0]], s', s.calls[c].pc.leader);
      if acts[0] == CancelWaiter(c) {
        CancelledForGood(s', acts[1..], t, c);
      } else {
        OrphanNeverServed(s', acts[1..], t, c);
      }
    }
  }

  lemma {:induction false} CancelledForGood<V>(s: State<V>, acts: seq<Action<V>>, t: State<V>, c: CallId)
    requires Leads(s, acts, t) && c in s.calls && s.calls[c].pc.WaiterCancelled?
    ensures c in t.calls && t.calls[c].pc == s.calls[c].pc
    decreases |acts|
  {
    if acts != [] {
      CancelledForGood(Step(s, acts[0]), acts[1..], t, c);
    }
  }

  /** No call can take a step of its own; only arrivals and cancellations remain. */
  ghost predicate Quiet<V(!new)>(s: State<V>) {
    forall a :: Enabled(s, a) ==> a.Arrive? || a.Cancel? || a.CancelWaiter?
  }

  /** When nothing can move, nobody is in a critical section or in its coroutine. */
  lemma QuietNobodyInside<V(!new)>(s: State<V>, o: Outcome<V>, c: CallId)
    requires Quiet(s) && c in s.calls
    ensures !s.calls[c].pc.Check? && !s.calls[c].pc.Popping? && !s.calls[c].pc.Running?
    ensures s.lock == None ==> !s.calls[c].pc.Want? && !s.calls[c].pc.Cleanup?
  {
    assert !Enabled(s, Enter(c)) && !Enabled(s, Pop(c)) && !Enabled(s, Finish(c, o));
    assert !Enabled(s, Acquire(c)) && !Enabled(s, AcquireAgain(c));
  }

  lemma QuietWaitsForCancelled<V(!new)>(s: State<V>, c: CallId)
    requires Inv(s) && Quiet(s) && c in s.calls && s.calls[c].pc.Awaiting?
    ensures var f := s.calls[c].pc.leader;
            f in s.calls && Led(s.calls[f].pc) && Produced(s.calls[f].pc) == None
  {
    assert Followed(s, s.calls[c]);
    assert !Enabled(s, Wake(c));
  }

  /**
   No deadlock and no leak: when nothing can move, every call has finished or waits
   for a leader that was cancelled, the lock is free and no key is in flight.
   */
  lemma NoDeadlock<V(!new)>(s: State<V>, o: Outcome<V>)
    requires Reachable(s) && Quiet(s)
    ensures s.lock == None && s.inflight == map[]
    ensures forall c :: c in s.calls ==>
              var pc := s.calls[c].pc;
              || pc.LeaderDone? || pc.WaiterDone? || pc.WaiterCancelled?
              || (pc.Awaiting? && pc.leader in s.calls && s.calls[pc.leader].pc == LeaderDone(None))
  {
    ReachableInv(s);
    assert forall k :: k in s.inflight ==> OwnsKey(s.calls[s.inflight[k]], k);
    forall c | c in s.calls
      ensures !s.calls[c].pc.Check? && !s.calls[c].pc.Popping? && !s.calls[c].pc.Running?
      ensures s.lock == None ==> !s.calls[c].pc.Want? && !s.calls[c].pc.Cleanup?
    {
      QuietNobodyInside(s, o, c);
    }
    assert s.lock == None;
    forall c | c in s.calls && s.calls[c].pc.Awaiting?
      ensures s.calls[c].pc.leader in s.calls && s.calls[s.calls[c].pc.leader].pc == LeaderDone(None)
    {
      QuietWaitsForCancelled(s, c);
    }
  }

  // ------------------------------------------------------- a stranded waiter

  lemma {:induction false} LeadsFurther<V>(s: State<V>, acts: seq<Action<V>>, t: State<V>, a: Action<V>)
    requires Leads(s, acts, t) && Enabled(t, a)
    ensures Leads(s, acts + [a], Step(t, a))
    decreases |acts|
  {
    if acts == [] {
      assert Leads(Step(t, a), [], Step(t, a));
    } else {
      LeadsFurther(Step(s, acts[0]), acts[1..], t, a);
      assert (acts + [a])[1..] == acts[1..] + [a];
    }
  }

  /** Two calls of one key, at these points, with the lock free. */
  predicate At<V(==)>(s: State<V>, pc0: Pc<V>, pc1: Pc<V>, inflight: map<Key, CallId>) {
    && s.lock == None && s.inflight == inflight && s.calls == map[0 := Call("k", pc0), 1 := Call("k", pc1)]
  }

  lemma OneMore<V>(acts: seq<Action<V>>, s: State<V>, a: Action<V>) returns (acts': seq<Action<V>>, s': State<V>)
    requires Leads(Init(), acts, s) && Enabled(s, a)
    ensures acts' == acts + [a] && s' == Step(s, a) && Leads(Init(), acts', s')
  {
    LeadsFurther(Init(), acts, s, a);
    acts', s' := acts + [a], Step(s, a);
  }

  lemma BothArrive<V>() returns (acts: seq<Action<V>>, s: State<V>)
    ensures Leads(Init(), acts, s) && At(s, Want, Want, map[]) && s.futures == map[]
  {
    acts, s := OneMore([], Init(), Arrive(0, "k"));
    acts, s := OneMore(acts, s, Arrive(1, "k"));
  }

  lemma FirstLeads<V>() returns (acts: seq<Action<V>>, s: State<V>)
    ensures Leads(Init(), acts, s) && At(s, Running, Want, map["k" := 0]) && s.futures == map[0 := None]
  {
    acts, s := BothArrive();
    acts, s := OneMore(acts, s, Acquire(0));
    acts, s := OneMore(acts, s, Enter(0));
  }

  lemma SecondWaits<V>() returns (acts: seq<Action<V>>, s: State<V>)
    ensures Leads(Init(), acts, s) && At(s, Running, Awaiting(0), map["k" := 0]) && s.futures == map[0 := None]
  {
    acts, s := FirstLeads();
    acts, s := OneMore(acts, s, Acquire(1));
    acts, s := OneMore(acts, s, Enter(1));
  }

  /** The leader is cancelled in its coroutine and pops the key; its waiter waits for a future nobody will resolve. */
  lemma CancelledLeaderStrandsWaiter<V>() returns (acts: seq<Action<V>>, s: State<V>)
    ensures Leads(Init(), acts, s) && Cancel(0) in acts
    ensures At(s, LeaderDone(None), Awaiting(0), map[]) && s.futures == map[0 := None]
    ensures Abandoned(s, 0)
  {
    acts, s := SecondWaits();
    ghost var n := |acts|;
    acts, s := OneMore(acts, s, Cancel(0));
    assert acts[n] == Action.Cancel(0);
    acts, s := OneMore(acts, s, AcquireAgain(0));
    acts, s := OneMore(acts, s, Pop(0));
    assert acts[n] == Action.Cancel(0);
  }
}
