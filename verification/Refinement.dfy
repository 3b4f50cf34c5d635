/**
 Every request of a run is a performance of `_dispatch` (app/proxy.py:134-248): the method
 `Dispatch.Dispatch`, resumed with what the request meets in the run, gives its reply,
 hands over the same body to the archive and leaves the same store.
 */
module Refinement {
  import opened Common
  import opened Cache
  import opened Dispatch
  import opened DispatchRuns
  import opened Outcomes

  /** A script with one turn put in front. */
  function Before(turn: Turn, script: Script): Script {
    (i: nat) => if i == 0 then turn else script(i - 1)
  }

  /** A play gets nearer to its end. */
  lemma RankFalls(u: Config, st: Settings, k: Key, p: Phase, turn: Turn)
    ensures p.Ready? ==> Rank(Settle(st, Coalesced(turn, p.again, p.sent), turn.leads)) < Rank(p)
    ensures OnItsOwn(p) ==> Rank(Advance(u, st, k, turn.store, p, turn.at, turn.fb)) < Rank(p)
  {
  }

  lemma {:induction false} PlayedLater(cfg: Config, st: Settings, k: Key, p: Phase, turn: Turn, script: Script, i: nat,
                                       s: Store)
    ensures Played(cfg, st, k, p, Before(turn, script), i + 1, s) == Played(cfg, st, k, p, script, i, s)
    decreases Rank(p)
  {
    var next := script(i);
    assert Before(turn, script)(i + 1) == next;
    RankFalls(cfg, st, k, p, next);
    if p.Ready? {
      PlayedLater(cfg, st, k, Settle(st, Coalesced(next, p.again, p.sent), next.leads), turn, script, i + 1,
                  next.store);
    } else if OnItsOwn(p) {
      PlayedLater(cfg, st, k, Advance(cfg, st, k, next.store, p, next.at, next.fb), turn, script, i + 1,
                  Apply(cfg, next.store, k, EffectOf(st, p, next.at)));
    }
  }

  /** A round trip at the head of a script. */
  lemma PlayedProceeds(u: Setup, k: Key, p: Phase, turn: Turn, script: Script, s: Store)
    requires OnItsOwn(p)
    ensures Played(u.cfg, u.st, k, p, Before(turn, script), 0, s)
            == Played(u.cfg, u.st, k, Advance(u.cfg, u.st, k, turn.store, p, turn.at, turn.fb), script, 0,
                      Apply(u.cfg, turn.store, k, EffectOf(u.st, p, turn.at)))
  {
    PlayedLater(u.cfg, u.st, k, Advance(u.cfg, u.st, k, turn.store, p, turn.at, turn.fb), turn, script, 0,
                Apply(u.cfg, turn.store, k, EffectOf(u.st, p, turn.at)));
  }

  /** A coalesced call at the head of a script. */
  lemma PlayedCoalesces(u: Setup, k: Key, p: Phase, turn: Turn, script: Script, s: Store)
    requires p.Ready?
    ensures Played(u.cfg, u.st, k, p, Before(turn, script), 0, s)
            == Played(u.cfg, u.st, k, Settle(u.st, Coalesced(turn, p.again, p.sent), turn.leads), script, 0, turn.store)
  {
    PlayedLater(u.cfg, u.st, k, Settle(u.st, Coalesced(turn, p.again, p.sent), turn.leads), turn, script, 0,
                turn.store);
  }

  const NO_FALLBACK := Fallback(None, [])

  /** The turn in which a task takes a round trip. */
  function TripTurn(w: World, x: Tick): Turn {
    Turn(w.store, x.at, false, 0, None, _ => Esi.ESIResponse(0, [], None, None, false, 1, None),
         Span(x.at, x.at, x.at), if x.e.Proceed? then x.e.fb else NO_FALLBACK)
  }

  /** The turn in which a coalesced call gave f. */
  function CallTurn(f: Fetch, leads: bool, s: Store): Turn {
    Turn(s, f.span.received, leads, f.call.leader, f.sent, _ => f.resp, f.span, NO_FALLBACK)
  }

  /** What remains of a task's run is what remains of the play: `end` is its last phase and the store then. */
  ghost predicate PlaysTo(u: Setup, t: TaskId, k: Key, p: Phase, script: Script, f: Fetch, s: Store,
                          end: (Phase, Store)) {
    match p
    case Fetching(trip) =>
      f.call == Call(t, trip.again) && f.sent == trip.sent
      && Played(u.cfg, u.st, k, Settle(u.st, f, true), script, 0, s) == end
    case Returning(trip, _, _) =>
      f.call == Call(t, trip.again) && f.sent == trip.sent
      && Played(u.cfg, u.st, k, Settle(u.st, f, true), script, 0, s) == end
    case Waiting(c) => f.call == c && Played(u.cfg, u.st, k, Settle(u.st, f, false), script, 0, s) == end
    case _ => Played(u.cfg, u.st, k, p, script, 0, s) == end
  }

  /** A task that has finished takes no further step. */
  lemma {:induction false} FinishedRests(u: Setup, w: World, xs: seq<Tick>, w': World, t: TaskId)
    requires Runs(u, w, xs, w') && t in w.tasks && w.tasks[t].phase.Finished?
    ensures forall i :: 0 <= i < |xs| ==> xs[i].e.t != t
    decreases |xs|
  {
    if xs != [] {
      assert xs[0].e.t != t;
      FinishedRests(u, Step(u, w, xs[0]), xs[1..], w', t);
      forall i | 0 <= i < |xs| ensures xs[i].e.t != t {
        if i > 0 { assert xs[i] == xs[1..][i - 1]; }
      }
    }
  }

  /** Task t makes the last step of the run, and finishes with it; it is not cancelled. */
  ghost predicate Finishes(xs: seq<Tick>, w': World, t: TaskId) {
    && xs != [] && xs[|xs| - 1].e.t == t && t in w'.tasks && w'.tasks[t].phase.Finished?
    && forall i :: 0 <= i < |xs| ==> xs[i].e != Abort(t)
  }

  lemma FinishesLater(u: Setup, w: World, xs: seq<Tick>, w': World, t: TaskId)
    requires Finishes(xs, w', t) && Runs(u, w, xs, w') && |xs| > 1
    ensures Finishes(xs[1..], w', t) && Runs(u, Step(u, w, xs[0]), xs[1..], w')
    ensures t in Step(u, w, xs[0]).tasks ==> !Step(u, w, xs[0]).tasks[t].phase.Finished?
  {
    assert xs[1..][|xs| - 2] == xs[|xs| - 1];
    forall i | 0 <= i < |xs| - 1 ensures xs[1..][i].e != Abort(t) {
      assert xs[1..][i] == xs[i + 1];
    }
    if t in Step(u, w, xs[0]).tasks && Step(u, w, xs[0]).tasks[t].phase.Finished? {
      FinishedRests(u, Step(u, w, xs[0]), xs[1..], w', t);
    }
  }

  /** The rest of the play, for a task that has just made step x. */
  lemma StepPlays(u: Setup, w: World, x: Tick, script: Script, f: Fetch, s: Store, end: (Phase, Store), any: Store)
    returns (script': Script, f': Fetch, s': Store)
    requires AccountInv(u, w) && Possible(u, w, x) && x.e.t in w.tasks && !x.e.Abort? && x.e.t !in w.collectors
    requires PlaysTo(u, x.e.t, KeyOf(w, x.e), NextPhase(u, w, x), script, f, s, end)
    requires !(x.e.Lead? || x.e.Join? || x.e.Answer?) ==> s == Step(u, w, x).store
    ensures PlaysTo(u, x.e.t, KeyOf(w, x.e), w.tasks[x.e.t].phase, script', f', s', end)
    ensures !Travels(w.tasks[x.e.t].phase) ==> s' == any
  {
    var t, k, p := x.e.t, KeyOf(w, x.e), w.tasks[x.e.t].phase;
    assert TaskFits(u, w, t);
    script', f', s' := script, f, s;
    match x.e
    case Proceed(_, _) =>
      script', s' := Before(TripTurn(w, x), script), any;
      PlayedProceeds(u, k, p, TripTurn(w, x), script, any);
    case Lead(_) =>
      script', s' := Before(CallTurn(f, true, s), script), any;
      PlayedCoalesces(u, k, p, CallTurn(f, true, s), script, any);
    case Join(_, _) =>
      script', s' := Before(CallTurn(f, false, s), script), any;
      PlayedCoalesces(u, k, p, CallTurn(f, false, s), script, any);
    case Answer(_, _) =>
    case Receive(_) =>
      f' := Completed(w, x).value;
    case Wake(_) =>
      assert FutureFits(u, w, p.call);
      f' := w.futures[p.call];
    case _ =>
  }

  /** Between asking and settling. */
  predicate Travels(p: Phase) {
    p.Fetching? || p.Returning? || p.Waiting?
  }

  /** Whatever runs beside it, what is left of a request is played by some script. */
  lemma {:induction false} RunPlays(u: Setup, w: World, xs: seq<Tick>, w': World, t: TaskId, any: Store)
    returns (script: Script, f: Fetch, s: Store)
    requires AccountInv(u, w) && Runs(u, w, xs, w') && Finishes(xs, w', t)
    requires t in w.tasks && t !in w.collectors && !w.tasks[t].phase.Finished?
    ensures PlaysTo(u, t, w.tasks[t].key, w.tasks[t].phase, script, f, s, (w'.tasks[t].phase, w'.store))
    ensures !Travels(w.tasks[t].phase) ==> s == any
    decreases |xs|, 1
  {
    if |xs| == 1 {
      OnlyStep(u, w, xs, w', t);
      script, f, s := LastStep(u, w, xs[0], any);
    } else if xs[0].e.t == t {
      script, f, s := OwnStepPlays(u, w, xs, w', t, any);
    } else {
      script, f, s := OtherStepPlays(u, w, xs, w', t, any);
    }
  }

  lemma {:induction false} OwnStepPlays(u: Setup, w: World, xs: seq<Tick>, w': World, t: TaskId, any: Store)
    returns (script: Script, f: Fetch, s: Store)
    requires AccountInv(u, w) && Runs(u, w, xs, w') && Finishes(xs, w', t) && |xs| > 1 && xs[0].e.t == t
    requires t in w.tasks && t !in w.collectors && !w.tasks[t].phase.Finished?
    ensures PlaysTo(u, t, w.tasks[t].key, w.tasks[t].phase, script, f, s, (w'.tasks[t].phase, w'.store))
    ensures !Travels(w.tasks[t].phase) ==> s == any
    decreases |xs|, 0
  {
    var x, w1, end := xs[0], Step(u, w, xs[0]), (w'.tasks[t].phase, w'.store);
    StepKeepsAccount(u, w, x);
    FinishesLater(u, w, xs, w', t);
    StaysRequest(u, w, x, t);
    Arrived(u, w, x);
    script, f, s := RunPlays(u, w1, xs[1..], w', t, w1.store);
    script, f, s := StepPlays(u, w, x, script, f, s, end, any);
  }

  lemma {:induction false} OtherStepPlays(u: Setup, w: World, xs: seq<Tick>, w': World, t: TaskId, any: Store)
    returns (script: Script, f: Fetch, s: Store)
    requires AccountInv(u, w) && Runs(u, w, xs, w') && Finishes(xs, w', t) && |xs| > 1 && xs[0].e.t != t
    requires t in w.tasks && t !in w.collectors && !w.tasks[t].phase.Finished?
    ensures PlaysTo(u, t, w.tasks[t].key, w.tasks[t].phase, script, f, s, (w'.tasks[t].phase, w'.store))
    ensures !Travels(w.tasks[t].phase) ==> s == any
    decreases |xs|, 0
  {
    StepKeepsAccount(u, w, xs[0]);
    FinishesLater(u, w, xs, w', t);
    StaysRequest(u, w, xs[0], t);
    script, f, s := RunPlays(u, Step(u, w, xs[0]), xs[1..], w', t, any);
  }

  /** A round trip, a receipt and an awakening leave a task on its own. */
  lemma Arrived(u: Setup, w: World, x: Tick)
    requires Possible(u, w, x)
    ensures x.e.Proceed? || x.e.Receive? || x.e.Wake? ==> !Travels(NextPhase(u, w, x))
  {
  }

  lemma OnlyStep(u: Setup, w: World, xs: seq<Tick>, w': World, t: TaskId)
    requires |xs| == 1 && Runs(u, w, xs, w') && Finishes(xs, w', t) && t in w.tasks
    ensures Step(u, w, xs[0]) == w' && xs[0].e.t == t && NextPhase(u, w, xs[0]).Finished? && !xs[0].e.Abort?
    ensures w'.tasks[t].phase == NextPhase(u, w, xs[0]) && KeyOf(w, xs[0].e) == w.tasks[t].key
  {
    assert Runs(u, Step(u, w, xs[0]), [], w');
  }

  /** A step of anyone leaves a request a request, of the same key, and a step of another leaves it where it was. */
  lemma StaysRequest(u: Setup, w: World, x: Tick, t: TaskId)
    requires Possible(u, w, x) && t in w.tasks && t !in w.collectors
    ensures var w1 := Step(u, w, x);
            && t in w1.tasks && t !in w1.collectors && w1.tasks[t].key == w.tasks[t].key
            && w1.tasks[t].phase == if x.e.t == t then NextPhase(u, w, x) else w.tasks[t].phase
    ensures x.e.t == t ==> KeyOf(w, x.e) == w.tasks[t].key
  {
  }

  lemma LastStep(u: Setup, w: World, x: Tick, any: Store) returns (script: Script, f: Fetch, s: Store)
    requires AccountInv(u, w) && Possible(u, w, x) && x.e.t in w.tasks && !x.e.Abort? && x.e.t !in w.collectors
    requires NextPhase(u, w, x).Finished?
    ensures PlaysTo(u, x.e.t, KeyOf(w, x.e), w.tasks[x.e.t].phase, script, f, s,
                    (NextPhase(u, w, x), Step(u, w, x).store))
    ensures !Travels(w.tasks[x.e.t].phase) ==> s == any
  {
    var none := Fetch(Call(0, false), None, Esi.ESIResponse(0, [], None, None, false, 1, None), Span(0.0, 0.0, 0.0));
    var idle: Script := (i: nat) => TripTurn(w, x);
    script, f, s := StepPlays(u, w, x, idle, none, Step(u, w, x).store, (NextPhase(u, w, x), Step(u, w, x).store), any);
  }

  /**
   A request that arrives and finishes, in any run, is a performance of `Dispatch`: for
   some script, that method ends with its reply and archived body, and leaves the store
   that the run has at that moment.
   */
  lemma RequestIsDispatch(u: Setup, start: Time, before: seq<Tick>, w: World, x: Tick, xs: seq<Tick>, w': World,
                          any: Store)
    returns (script: Script)
    requires RoundTrips(u.cfg.codec) && Runs(u, Empty(start), before, w) && Possible(u, w, x) && x.e.Arrive?
    requires Runs(u, Step(u, w, x), xs, w') && Finishes(xs, w', x.e.t)
    ensures var p := w'.tasks[x.e.t].phase;
            EndsLike(Played(u.cfg, u.st, x.e.key, Looking, script, 0, any), p.reply, p.archives, w'.store)
  {
    EmptyCacheInv(u, start);
    RunKeepsAccount(u, Empty(start), before, w);
    StepKeepsAccount(u, w, x);
    assert TaskFits(u, Step(u, w, x), x.e.t);
    var f, s;
    script, f, s := RunPlays(u, Step(u, w, x), xs, w', x.e.t, any);
    KeyStays(u, Step(u, w, x), xs, w', x.e.t);
  }

  lemma {:induction false} KeyStays(u: Setup, w: World, xs: seq<Tick>, w': World, t: TaskId)
    requires Runs(u, w, xs, w') && t in w.tasks
    ensures t in w'.tasks && w'.tasks[t].key == w.tasks[t].key
    decreases |xs|
  {
    if xs != [] {
      KeyStays(u, Step(u, w, xs[0]), xs[1..], w', t);
    }
  }
}
