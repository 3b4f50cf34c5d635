/**
 Which dispatch writes (app/proxy.py:151-211 on top of app/coalesce.py).

 Any number of dispatches run over the coalescing protocol.  Each makes one
 coalesced fetch and, after a 304 whose body is gone, a second one under the
 derived refetch key; a caller that leads a call writes the cache, and the archive
 after a 200.  The writes are steps of their own, so other dispatches may run
 between a fetch and its writes and between the two writes.
 */
module LeaderEffects {
  import opened Common
  import Coalesce

  type CallId = Coalesce.CallId
  type DispatchId = nat

  /** What `_dispatch` distinguishes in an upstream response. */
  datatype Answer = NotModified | Success | Otherwise

  datatype Phase =
    | First(call: CallId)        // in the coalesced fetch
    | Second(call: CallId)       // in the coalesced refetch
    | Restoring(call: CallId)    // leader of a 304, stale copy in hand, about to set
    | Storing(call: CallId)      // leader of a 200, about to set
    | Archiving(call: CallId)    // has set, about to archive
    | Replied

  datatype State = State(
    co: Coalesce.State<Answer>,
    dispatches: map<DispatchId, Phase>,
    owner: map<CallId, DispatchId>,   // who made a coalesced call
    sets: seq<CallId>,                // positive cache writes, by the execution they store
    archives: seq<CallId>,            // archive writes, by the execution they store
    failed: set<CallId>)              // executions whose write raised

  datatype Action =
    | Protocol(a: Coalesce.Action<Answer>)
    | Begin(d: DispatchId, c: CallId, key: Coalesce.Key)
    | LeaveFirst(d: DispatchId, staleLive: bool, next: CallId)
    | LeaveSecond(d: DispatchId)
    | Write(d: DispatchId)
    | WriteRaises(d: DispatchId)

  predicate Finished(pc: Coalesce.Pc<Answer>) {
    pc.LeaderDone? || pc.WaiterDone? || pc.WaiterCancelled?
  }

  /** The answer a finished call hands to its dispatch; None when it raised or was cancelled. */
  function AnswerOf(pc: Coalesce.Pc<Answer>): Option<Answer>
    requires Finished(pc)
  {
    match pc
    case LeaderDone(Some(Returned(a))) => Some(a)
    case WaiterDone(_, Returned(a)) => Some(a)
    case _ => None
  }

  predicate Enabled(s: State, a: Action) {
    match a
    case Protocol(p) => !p.Arrive? && Coalesce.Enabled(s.co, p)
    case Begin(d, c, _) => d !in s.dispatches && c !in s.co.calls
    case LeaveFirst(d, _, next) =>
      && d in s.dispatches && s.dispatches[d].First?
      && s.dispatches[d].call in s.co.calls && Finished(s.co.calls[s.dispatches[d].call].pc)
      && next !in s.co.calls
    case LeaveSecond(d) =>
      && d in s.dispatches && s.dispatches[d].Second?
      && s.dispatches[d].call in s.co.calls && Finished(s.co.calls[s.dispatches[d].call].pc)
    case Write(d) =>
      d in s.dispatches && (s.dispatches[d].Restoring? || s.dispatches[d].Storing? || s.dispatches[d].Archiving?)
    case WriteRaises(d) =>
      d in s.dispatches && (s.dispatches[d].Restoring? || s.dispatches[d].Storing? || s.dispatches[d].Archiving?)
  }

  const REFETCH := ":refetch"

  function Issue(s: State, d: DispatchId, c: CallId, key: Coalesce.Key, phase: Phase): State
    requires c !in s.co.calls
  {
    s.(co := Coalesce.Step(s.co, Coalesce.Arrive(c, key)),
       owner := s.owner[c := d],
       dispatches := s.dispatches[d := phase])
  }

  function Step(s: State, a: Action): State
    requires Enabled(s, a)
  {
    match a
    case Protocol(p) => s.(co := Coalesce.Step(s.co, p))
    case Begin(d, c, key) => Issue(s, d, c, key, First(c))
    case LeaveFirst(d, staleLive, next) =>
      var c := s.dispatches[d].call;
      var call := s.co.calls[c];
      (match AnswerOf(call.pc)
       case Some(NotModified) =>
         if !staleLive then Issue(s, d, next, call.key + REFETCH, Second(next))
         else s.(dispatches := s.dispatches[d := if call.pc.LeaderDone? then Restoring(c) else Replied])
       case Some(Success) =>
         s.(dispatches := s.dispatches[d := if call.pc.LeaderDone? then Storing(c) else Replied])
       case _ => s.(dispatches := s.dispatches[d := Replied]))
    case LeaveSecond(d) =>
      var c := s.dispatches[d].call;
      var pc := s.co.calls[c].pc;
      s.(dispatches := s.dispatches[d :=
           if AnswerOf(pc) == Some(Success) && pc.LeaderDone? then Storing(c) else Replied])
    case Write(d) =>
      (match s.dispatches[d]
       case Storing(c) => s.(sets := s.sets + [c], dispatches := s.dispatches[d := Archiving(c)])
       case Archiving(c) => s.(archives := s.archives + [c], dispatches := s.dispatches[d := Replied])
       case phase => s.(sets := s.sets + [phase.call], dispatches := s.dispatches[d := Replied]))
    case WriteRaises(d) =>
      s.(failed := s.failed + {s.dispatches[d].call}, dispatches := s.dispatches[d := Replied])
  }

  function Init(): State {
    State(Coalesce.Init(), map[], map[], [], [], {})
  }

  ghost predicate Leads(s: State, acts: seq<Action>, t: State)
    decreases |acts|
  {
    if acts == [] then s == t
    else Enabled(s, acts[0]) && Leads(Step(s, acts[0]), acts[1..], t)
  }

  /** The leader that produced answer `a` has left `coalesce` with it. */
  predicate Led(s: State, c: CallId, a: Answer) {
    c in s.co.calls && s.co.calls[c].pc == Coalesce.LeaderDone(Some(Coalesce.Returned(a)))
  }

  /** Dispatch `d` is the one that made call `c`, and its phase fits what the call returned. */
  predicate Holds(s: State, d: DispatchId, phase: Phase) {
    !phase.Replied? ==>
      && phase.call in s.owner && s.owner[phase.call] == d && phase.call in s.co.calls
      && (phase.Restoring? ==> Led(s, phase.call, NotModified))
      && (phase.Storing? || phase.Archiving? ==> Led(s, phase.call, Success))
  }

  ghost predicate OwnerInv(s: State) {
    && (forall c :: c in s.co.calls <==> c in s.owner)
    && (forall c :: c in s.owner ==> s.owner[c] in s.dispatches)
    && (forall d :: d in s.dispatches ==> Holds(s, d, s.dispatches[d]))
  }

  /** Execution `c` has been stored and its owner will not store it again. */
  predicate Stored(s: State, c: CallId) {
    && c in s.owner && s.owner[c] in s.dispatches
    && (Led(s, c, Success) || Led(s, c, NotModified))
    && var phase := s.dispatches[s.owner[c]];
       phase.Replied? || phase.call != c || phase == Archiving(c)
  }

  predicate Archived(s: State, c: CallId) {
    && c in s.owner && s.owner[c] in s.dispatches && Led(s, c, Success)
    && var phase := s.dispatches[s.owner[c]];
       phase.Replied? || phase.call != c
  }

  predicate Distinct(cs: seq<CallId>) {
    forall i, j :: 0 <= i < j < |cs| ==> cs[i] != cs[j]
  }

  ghost predicate WriteInv(s: State) {
    && Distinct(s.sets) && Distinct(s.archives)
    && (forall i :: 0 <= i < |s.sets| ==> Stored(s, s.sets[i]))
    && (forall i :: 0 <= i < |s.archives| ==> Archived(s, s.archives[i]))
  }

  /** Some dispatch still has to store execution `c`. */
  predicate Pending(s: State, c: CallId) {
    && c in s.owner && s.owner[c] in s.dispatches
    && s.dispatches[s.owner[c]] in {First(c), Second(c), Storing(c)}
  }

  /** Every execution that succeeded, or still may, is stored, failed to store, or has its leader at work. */
  ghost predicate DueInv(s: State) {
    forall c :: Due(s, c) ==> Settled(s, c)
  }

  /** A protocol step never changes what a finished call has returned. */
  lemma ProtocolKeepsHolds(s: State, p: Coalesce.Action<Answer>, d: DispatchId, phase: Phase)
    requires Enabled(s, Protocol(p)) && Holds(s, d, phase)
    ensures Holds(Step(s, Protocol(p)), d, phase)
  {
  }

  lemma IssueKeepsOwnerInv(s: State, d: DispatchId, c: CallId, key: Coalesce.Key, phase: Phase)
    requires OwnerInv(s) && c !in s.co.calls && phase in {First(c), Second(c)}
    ensures OwnerInv(Issue(s, d, c, key, phase))
  {
    var t := Issue(s, d, c, key, phase);
    forall e | e in t.dispatches ensures Holds(t, e, t.dispatches[e]) {
      assert e in s.dispatches ==> Holds(s, e, s.dispatches[e]);
    }
  }

  lemma StepKeepsOwnerInv(s: State, a: Action)
    requires OwnerInv(s) && Enabled(s, a)
    ensures OwnerInv(Step(s, a))
  {
    var t := Step(s, a);
    match a
    case Protocol(p) =>
      forall d | d in t.dispatches ensures Holds(t, d, t.dispatches[d]) {
        ProtocolKeepsHolds(s, p, d, s.dispatches[d]);
      }
    case Begin(d, c, key) => IssueKeepsOwnerInv(s, d, c, key, First(c));
    case LeaveFirst(d, _, next) =>
      if t.dispatches[d] == Second(next) {
        IssueKeepsOwnerInv(s, d, next, s.co.calls[s.dispatches[d].call].key + REFETCH, Second(next));
      } else {
        MoveKeepsOwnerInv(s, t, d);
      }
    case LeaveSecond(d) => MoveKeepsOwnerInv(s, t, d);
    case Write(d) => MoveKeepsOwnerInv(s, t, d);
    case WriteRaises(d) => MoveKeepsOwnerInv(s, t, d);
  }

  /** A dispatch that changes phase without making a call. */
  lemma MoveKeepsOwnerInv(s: State, t: State, d: DispatchId)
    requires OwnerInv(s) && d in s.dispatches && d in t.dispatches
    requires t.co == s.co && t.owner == s.owner && t.dispatches == s.dispatches[d := t.dispatches[d]]
    requires Holds(s, d, s.dispatches[d]) ==> Holds(t, d, t.dispatches[d])
    ensures OwnerInv(t)
  {
    forall e | e in t.dispatches ensures Holds(t, e, t.dispatches[e]) {
      assert Holds(s, e, s.dispatches[e]);
      assert Holds(s, d, s.dispatches[d]);
    }
  }

  lemma ProtocolKeepsStored(s: State, p: Coalesce.Action<Answer>, c: CallId)
    requires Enabled(s, Protocol(p))
    ensures Stored(s, c) ==> Stored(Step(s, Protocol(p)), c)
    ensures Archived(s, c) ==> Archived(Step(s, Protocol(p)), c)
  {
  }

  lemma StepKeepsStored(s: State, a: Action, c: CallId)
    requires OwnerInv(s) && Enabled(s, a)
    ensures Stored(s, c) ==> Stored(Step(s, a), c)
    ensures Archived(s, c) ==> Archived(Step(s, a), c)
  {
    if a.Protocol? {
      ProtocolKeepsStored(s, a.a, c);
    } else {
      StepKeepsLed(s, a, c);
      if a.d in s.dispatches {
        assert Holds(s, a.d, s.dispatches[a.d]);
      }
    }
  }

  lemma StepKeepsLed(s: State, a: Action, c: CallId)
    requires !a.Protocol? && Enabled(s, a)
    ensures Led(s, c, Success) ==> Led(Step(s, a), c, Success)
    ensures Led(s, c, NotModified) ==> Led(Step(s, a), c, NotModified)
  {
  }

  /** A write goes to an execution not stored, or not archived, before. */
  lemma WriteIsNew(s: State, d: DispatchId, c: CallId)
    requires OwnerInv(s) && d in s.dispatches && !s.dispatches[d].Replied? && s.dispatches[d].call == c
    ensures !s.dispatches[d].Archiving? ==> !Stored(s, c)
    ensures !Archived(s, c)
  {
    assert Holds(s, d, s.dispatches[d]);
  }

  lemma StepKeepsWriteInv(s: State, a: Action)
    requires OwnerInv(s) && WriteInv(s) && Enabled(s, a)
    ensures WriteInv(Step(s, a))
  {
    var t := Step(s, a);
    if a.Write? {
      var c := s.dispatches[a.d].call;
      assert Holds(s, a.d, s.dispatches[a.d]);
      WriteIsNew(s, a.d, c);
    }
    forall i | 0 <= i < |t.sets| ensures Stored(t, t.sets[i]) {
      if i < |s.sets| { StepKeepsStored(s, a, s.sets[i]); }
    }
    forall i | 0 <= i < |t.archives| ensures Archived(t, t.archives[i]) {
      if i < |s.archives| { StepKeepsStored(s, a, s.archives[i]); }
    }
  }

  predicate Due(s: State, c: CallId) {
    c in s.co.calls && (!Finished(s.co.calls[c].pc) || Led(s, c, Success))
  }

  predicate Settled(s: State, c: CallId) {
    c in s.failed || Pending(s, c) || (c in s.sets && (c in s.archives || AboutToArchive(s, c)))
  }

  predicate AboutToArchive(s: State, c: CallId) {
    c in s.owner && s.owner[c] in s.dispatches && s.dispatches[s.owner[c]] == Archiving(c)
  }

  /** A step of the protocol leaves everyone's duties as they are. */
  lemma ProtocolKeepsSettled(s: State, p: Coalesce.Action<Answer>, c: CallId)
    requires Enabled(s, Protocol(p)) && (Due(s, c) ==> Settled(s, c)) && Due(Step(s, Protocol(p)), c)
    ensures Settled(Step(s, Protocol(p)), c)
  {
  }

  lemma StepKeepsSettled(s: State, a: Action, c: CallId)
    requires OwnerInv(s) && Enabled(s, a) && (Due(s, c) ==> Settled(s, c)) && Due(Step(s, a), c)
    ensures Settled(Step(s, a), c)
  {
    if a.Protocol? {
      ProtocolKeepsSettled(s, a.a, c);
    } else {
      MoveKeepsSettled(s, a, c);
    }
  }

  lemma MoveKeepsSettled(s: State, a: Action, c: CallId)
    requires OwnerInv(s) && Enabled(s, a) && !a.Protocol? && (Due(s, c) ==> Settled(s, c)) && Due(Step(s, a), c)
    ensures Settled(Step(s, a), c)
  {
    if Pending(s, c) || AboutToArchive(s, c) {
      assert Holds(s, s.owner[c], s.dispatches[s.owner[c]]);
    }
    if a.Write? || a.WriteRaises? {
      assert Holds(s, a.d, s.dispatches[a.d]);
    }
  }

  lemma StepKeepsDueInv(s: State, a: Action)
    requires OwnerInv(s) && DueInv(s) && Enabled(s, a)
    ensures DueInv(Step(s, a))
  {
    forall c | Due(Step(s, a), c) ensures Settled(Step(s, a), c) {
      StepKeepsSettled(s, a, c);
    }
  }

  /** Dispatches move the protocol only by its own steps, so its guarantees carry over. */
  lemma StepKeepsProtocol(s: State, a: Action)
    requires Coalesce.Inv(s.co) && Enabled(s, a)
    ensures Coalesce.Inv(Step(s, a).co)
  {
    match a
    case Protocol(p) => Coalesce.StepKeepsInv(s.co, p);
    case Begin(_, c, key) => Coalesce.StepKeepsInv(s.co, Coalesce.Arrive(c, key));
    case LeaveFirst(d, _, next) =>
      Coalesce.StepKeepsInv(s.co, Coalesce.Arrive(next, s.co.calls[s.dispatches[d].call].key + REFETCH));
    case _ =>
  }

  lemma {:induction false} LeadsKeepsInv(s: State, acts: seq<Action>, t: State)
    requires OwnerInv(s) && WriteInv(s) && DueInv(s) && Leads(s, acts, t)
    ensures OwnerInv(t) && WriteInv(t) && DueInv(t)
    ensures Coalesce.Inv(s.co) ==> Coalesce.Inv(t.co)
    decreases |acts|
  {
    if acts != [] {
      StepKeepsOwnerInv(s, acts[0]);
      StepKeepsWriteInv(s, acts[0]);
      StepKeepsDueInv(s, acts[0]);
      if Coalesce.Inv(s.co) { StepKeepsProtocol(s, acts[0]); }
      LeadsKeepsInv(Step(s, acts[0]), acts[1..], t);
    }
  }

  /**
   Over all interleavings every execution of the fetch or of the refetch is stored at
   most once and archived at most once; what is stored was answered 304 or 200 to its
   own leader, and what is archived was answered 200.
   */
  lemma WritesAtMostOncePerExecution(acts: seq<Action>, s: State)
    requires Leads(Init(), acts, s)
    ensures Distinct(s.sets) && Distinct(s.archives)
    ensures forall c :: c in s.sets ==> Led(s, c, Success) || Led(s, c, NotModified)
    ensures forall c :: c in s.archives ==> Led(s, c, Success)
    ensures Coalesce.Inv(s.co)
  {
    LeadsKeepsInv(Init(), acts, s);
    assert forall i :: 0 <= i < |s.sets| ==> Stored(s, s.sets[i]);
    assert forall i :: 0 <= i < |s.archives| ==> Archived(s, s.archives[i]);
  }

  /** Once all dispatches have replied, every successful execution was stored and archived, unless a write raised. */
  lemma SuccessIsStored(acts: seq<Action>, s: State, c: CallId)
    requires Leads(Init(), acts, s) && Led(s, c, Success)
    requires forall d :: d in s.dispatches ==> s.dispatches[d].Replied?
    ensures (c in s.sets && c in s.archives) || c in s.failed
  {
    LeadsKeepsInv(Init(), acts, s);
    assert Due(s, c);
  }

  // ------------------------------------------------------------- after a 304

  /** Execution c is stored, or failed to be, or its owner is about to store it. */
  predicate RestoreDue(s: State, c: CallId) {
    || c in s.sets || c in s.failed
    || (c in s.owner && s.owner[c] in s.dispatches && s.dispatches[s.owner[c]] == Restoring(c))
  }

  /** Execution c is not stored, and its owner has gone on to something else. */
  predicate LeftBehind(s: State, c: CallId) {
    && c !in s.sets && c in s.owner && s.owner[c] in s.dispatches
    && (s.dispatches[s.owner[c]].Replied? || s.dispatches[s.owner[c]].call != c)
  }

  lemma StepKeepsRestoring(s: State, a: Action, c: CallId)
    requires OwnerInv(s) && Enabled(s, a)
    ensures RestoreDue(s, c) ==> RestoreDue(Step(s, a), c)
    ensures LeftBehind(s, c) ==> LeftBehind(Step(s, a), c)
  {
    if !a.Protocol? && a.d in s.dispatches {
      assert Holds(s, a.d, s.dispatches[a.d]);
    }
  }

  lemma {:induction false} RunKeepsRestoring(s: State, acts: seq<Action>, t: State, c: CallId)
    requires OwnerInv(s) && Leads(s, acts, t)
    ensures OwnerInv(t)
    ensures RestoreDue(s, c) ==> RestoreDue(t, c)
    ensures LeftBehind(s, c) ==> LeftBehind(t, c)
    decreases |acts|
  {
    if acts != [] {
      StepKeepsOwnerInv(s, acts[0]);
      StepKeepsRestoring(s, acts[0], c);
      RunKeepsRestoring(Step(s, acts[0]), acts[1..], t, c);
    }
  }

  /** Dispatch d leaves its first call, answered 304. */
  predicate Unmodified(s: State, d: DispatchId, staleLive: bool, next: CallId) {
    && Enabled(s, LeaveFirst(d, staleLive, next))
    && AnswerOf(s.co.calls[s.dispatches[d].call].pc) == Some(NotModified)
  }

  /**
   After a 304 with the stale copy there, the leader's execution is stored by the time
   all have replied, unless that write raised; nobody refetches for it.
   */
  lemma UnmodifiedIsStored(before: seq<Action>, s: State, d: DispatchId, next: CallId, after: seq<Action>, t: State)
    requires Leads(Init(), before, s) && Unmodified(s, d, true, next)
    requires Leads(Step(s, LeaveFirst(d, true, next)), after, t)
    requires forall e :: e in t.dispatches ==> t.dispatches[e].Replied?
    ensures var c := s.dispatches[d].call; s.co.calls[c].pc.LeaderDone? ==> c in t.sets || c in t.failed
    ensures Step(s, LeaveFirst(d, true, next)).co == s.co
  {
    var c := s.dispatches[d].call;
    LeadsKeepsInv(Init(), before, s);
    StepKeepsOwnerInv(s, LeaveFirst(d, true, next));
    assert Holds(s, d, s.dispatches[d]);
    RunKeepsRestoring(Step(s, LeaveFirst(d, true, next)), after, t, c);
  }

  /** Without it, leader or waiter, the dispatch calls again under the refetch key; that 304 is never stored. */
  lemma UnmodifiedIsRefetched(before: seq<Action>, s: State, d: DispatchId, next: CallId, after: seq<Action>, t: State)
    requires Leads(Init(), before, s) && Unmodified(s, d, false, next)
    requires Leads(Step(s, LeaveFirst(d, false, next)), after, t)
    ensures var s', c := Step(s, LeaveFirst(d, false, next)), s.dispatches[d].call;
            && s'.dispatches[d] == Second(next) && next in s'.co.calls
            && s'.co.calls[next] == Coalesce.Call(s.co.calls[c].key + ":refetch", Coalesce.Want)
    ensures s.dispatches[d].call !in t.sets
  {
    var c := s.dispatches[d].call;
    LeadsKeepsInv(Init(), before, s);
    StepKeepsOwnerInv(s, LeaveFirst(d, false, next));
    assert Holds(s, d, s.dispatches[d]);
    forall i | 0 <= i < |s.sets| ensures s.sets[i] != c {
      assert Stored(s, s.sets[i]);
    }
    RunKeepsRestoring(Step(s, LeaveFirst(d, false, next)), after, t, c);
  }

  // ------------------------------------------------------- one fetch per miss?

  lemma {:induction false} LeadsFurther(s: State, acts: seq<Action>, t: State, a: Action)
    requires Leads(s, acts, t) && Enabled(t, a)
    ensures Leads(s, acts + [a], Step(t, a))
    decreases |acts|
  {
    if acts == [] {
      assert Leads(Step(t, a), [], Step(t, a));
    } else {
      LeadsFurther(Step(s, acts[0]), acts[1..], t, a);
      assert (acts + [a])[1..] == acts[1..] + [a];
    }
  }

  /** Nothing is stored; calls 0 and 1 are of one key and at these points; the lock is free. */
  predicate At(s: State, pc0: Coalesce.Pc<Answer>, pc1: Coalesce.Pc<Answer>, inflight: map<Coalesce.Key, CallId>) {
    && s.sets == [] && s.co.lock == None && s.co.inflight == inflight
    && s.co.calls == map[0 := Coalesce.Call("k", pc0), 1 := Coalesce.Call("k", pc1)]
  }

  /** Two dispatches have missed the cache. */
  lemma BothMiss() returns (acts: seq<Action>, s: State)
    ensures Leads(Init(), acts, s) && At(s, Coalesce.Want, Coalesce.Want, map[])
  {
    s := Step(Init(), Begin(0, 0, "k"));
    acts := [] + [Begin(0, 0, "k")];
    LeadsFurther(Init(), [], Init(), Begin(0, 0, "k"));
    LeadsFurther(Init(), acts, s, Begin(1, 1, "k"));
    acts, s := acts + [Begin(1, 1, "k")], Step(s, Begin(1, 1, "k"));
  }

  /** A protocol step at the end of a run. */
  lemma Proceeds(acts: seq<Action>, s: State, p: Coalesce.Action<Answer>) returns (acts': seq<Action>, s': State)
    requires Leads(Init(), acts, s) && !p.Arrive? && Coalesce.Enabled(s.co, p)
    ensures Leads(Init(), acts', s') && s' == s.(co := Coalesce.Step(s.co, p))
  {
    LeadsFurther(Init(), acts, s, Protocol(p));
    acts', s' := acts + [Protocol(p)], Step(s, Protocol(p));
  }

  lemma FirstRuns() returns (acts: seq<Action>, s: State)
    ensures Leads(Init(), acts, s) && At(s, Coalesce.Running, Coalesce.Want, map["k" := 0])
  {
    acts, s := BothMiss();
    acts, s := Proceeds(acts, s, Coalesce.Acquire(0));
    acts, s := Proceeds(acts, s, Coalesce.Enter(0));
  }

  lemma FirstFinishes() returns (acts: seq<Action>, s: State)
    ensures Leads(Init(), acts, s)
    ensures At(s, Coalesce.Cleanup(Some(Coalesce.Returned(Success))), Coalesce.Want, map["k" := 0])
  {
    acts, s := FirstRuns();
    acts, s := Proceeds(acts, s, Coalesce.Finish(0, Coalesce.Returned(Success)));
  }

  /** The first has been fetched for; its leader has popped the key and is about to write. */
  lemma FirstServed() returns (acts: seq<Action>, s: State)
    ensures Leads(Init(), acts, s)
    ensures At(s, Coalesce.LeaderDone(Some(Coalesce.Returned(Success))), Coalesce.Want, map[])
  {
    acts, s := FirstFinishes();
    acts, s := Proceeds(acts, s, Coalesce.AcquireAgain(0));
    acts, s := Proceeds(acts, s, Coalesce.Pop(0));
  }

  /**
   The key is popped before the leader writes, so one miss may be fetched twice: the
   first execution has succeeded and is not stored yet while the second is running.
   */
  lemma TwoFetchesForOneMiss() returns (acts: seq<Action>, s: State)
    ensures Leads(Init(), acts, s)
    ensures s.sets == [] && Led(s, 0, Success) && 1 in s.co.calls && s.co.calls[1].pc.Running?
    ensures s.co.calls[0].key == s.co.calls[1].key
  {
    acts, s := FirstServed();
    acts, s := Proceeds(acts, s, Coalesce.Acquire(1));
    acts, s := Proceeds(acts, s, Coalesce.Enter(1));
  }
}
