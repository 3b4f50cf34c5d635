/**
 Whether positive and negative entries of a key are ever live together
 (app/proxy.py:134-143, 240-247, app/cache.py:95-118): exactly when a request stores a
 4xx over a body that somebody stored since that request's own lookup missed one.
 */
module Exclusion {
  import opened Common
  import opened Cache
  import opened Dispatch
  import opened DispatchRuns

  ghost predicate ExclusiveAt(w: World, k: Key, t: Time) {
    Live(w.store.body, k, t) == None || Live(w.store.negBody, k, t) == None
  }

  /** From now on, if nothing is written. */
  ghost predicate Exclusive(w: World, k: Key) {
    forall t :: w.now <= t ==> ExclusiveAt(w, k, t)
  }

  /** A negative entry of k is written. */
  ghost predicate Refuses(u: Setup, w: World, x: Tick, k: Key) {
    Enabled(w, x.e) && EventEffect(u, w, x).DidSetNegative? && KeyOf(w, x.e) == k
  }

  /** A body of k is stored. */
  ghost predicate Stores(u: Setup, w: World, x: Tick, k: Key) {
    Enabled(w, x.e) && EventEffect(u, w, x).DidSet? && EventEffect(u, w, x).args.ttl > 0 && KeyOf(w, x.e) == k
  }

  /** Positive and negative entry get to be live together exactly when a negative one is written over a live body. */
  lemma ExclusiveUnlessOverwritten(u: Setup, w: World, x: Tick, k: Key)
    requires CacheInv(u, w) && Possible(u, w, x) && Exclusive(w, k)
    ensures Exclusive(Step(u, w, x), k) <==> !(Refuses(u, w, x, k) && Live(w.store.body, k, x.at).Some?)
  {
    var w' := Step(u, w, x);
    StepKeepsCacheInv(u, w, x);
    if Refuses(u, w, x, k) {
      assert PhaseFits(u, k, w.tasks[x.e.t].phase, w.now);
      RefusalLives(u, w, x, k);
      assert KeySound(u, w, k);
      assert ExclusiveAt(w', k, x.at) <==> Live(w.store.body, k, x.at) == None;
    }
    forall t | w'.now <= t && !(Refuses(u, w, x, k) && Live(w.store.body, k, x.at).Some?)
      ensures ExclusiveAt(w', k, t) {
      assert ExclusiveAt(w, k, t) && KeySound(u, w, k) && KeySound(u, w', k);
    }
  }

  /** A refusal leaves the body, and its own entry is live at once. */
  lemma RefusalLives(u: Setup, w: World, x: Tick, k: Key)
    requires CacheInv(u, w) && Possible(u, w, x) && Refuses(u, w, x, k)
    ensures Step(u, w, x).store.body == w.store.body && Live(Step(u, w, x).store.negBody, k, x.at).Some?
  {
    assert PhaseFits(u, k, w.tasks[x.e.t].phase, w.now);
  }

  // ------------------------------------------------------------------------ traces

  ghost predicate Moves(u: Setup, w: World, x: Tick, w': World) {
    Possible(u, w, x) && w' == Step(u, w, x)
  }

  /** All the worlds of a run from an empty cache. */
  ghost predicate Trace(u: Setup, ws: seq<World>, xs: seq<Tick>) {
    && |ws| == |xs| + 1 && ws[0] == Empty(ws[0].now) && RoundTrips(u.cfg.codec)
    && forall i {:trigger xs[i]} :: 0 <= i < |xs| ==> Moves(u, ws[i], xs[i], ws[i + 1])
  }

  lemma {:induction false} WorldsOf(u: Setup, w: World, xs: seq<Tick>, w': World) returns (ws: seq<World>)
    requires Runs(u, w, xs, w')
    ensures |ws| == |xs| + 1 && ws[0] == w && ws[|xs|] == w'
    ensures forall i {:trigger xs[i]} :: 0 <= i < |xs| ==> Moves(u, ws[i], xs[i], ws[i + 1])
    decreases |xs|
  {
    if xs == [] {
      ws := [w];
    } else {
      var rest := WorldsOf(u, Step(u, w, xs[0]), xs[1..], w');
      ws := [w] + rest;
      forall i {:trigger xs[i]} | 0 <= i < |xs| ensures Moves(u, ws[i], xs[i], ws[i + 1]) {
        if i > 0 { assert xs[1..][i - 1] == xs[i]; }
      }
    }
  }

  /** Every run from an empty cache has its trace. */
  lemma TraceOf(u: Setup, start: Time, xs: seq<Tick>, w: World) returns (ws: seq<World>)
    requires RoundTrips(u.cfg.codec) && Runs(u, Empty(start), xs, w)
    ensures Trace(u, ws, xs) && ws[0] == Empty(start) && ws[|xs|] == w
  {
    ws := WorldsOf(u, Empty(start), xs, w);
  }

  lemma {:induction false} TraceKeepsCacheInv(u: Setup, ws: seq<World>, xs: seq<Tick>, n: nat)
    requires Trace(u, ws, xs) && n <= |xs|
    ensures CacheInv(u, ws[n])
  {
    if n == 0 {
      EmptyCacheInv(u, ws[0].now);
    } else {
      TraceKeepsCacheInv(u, ws, xs, n - 1);
      assert Moves(u, ws[n - 1], xs[n - 1], ws[n]);
      StepKeepsCacheInv(u, ws[n - 1], xs[n - 1]);
    }
  }

  lemma {:induction false} TraceInOrder(u: Setup, ws: seq<World>, xs: seq<Tick>, i: nat, n: nat)
    requires Trace(u, ws, xs) && i < n <= |xs|
    ensures xs[i].at == ws[i + 1].now <= ws[n].now
    decreases n - i
  {
    assert Moves(u, ws[i], xs[i], ws[i + 1]);
    if i + 1 < n {
      TraceInOrder(u, ws, xs, i + 1, n);
    }
  }

  // ------------------------------------------------------------- the last body stored

  /** Step m stores a body of k, and no step from there to n does. */
  ghost predicate LastStore(u: Setup, ws: seq<World>, xs: seq<Tick>, k: Key, m: int, n: int)
    requires |ws| == |xs| + 1
  {
    && 0 <= m < n <= |xs| && Stores(u, ws[m], xs[m], k)
    && forall i {:trigger xs[i]} :: m < i < n ==> !Stores(u, ws[i], xs[i], k)
  }

  /** The moment at which the body that step m stores expires. */
  ghost function Expiry(u: Setup, ws: seq<World>, xs: seq<Tick>, k: Key, m: int): Time
    requires |ws| == |xs| + 1 && 0 <= m < |xs| && Stores(u, ws[m], xs[m], k)
  {
    xs[m].at + EventEffect(u, ws[m], xs[m]).args.ttl as real
  }

  lemma {:induction false} LastStoreIsHot(u: Setup, ws: seq<World>, xs: seq<Tick>, k: Key, m: int, n: int)
    requires Trace(u, ws, xs) && LastStore(u, ws, xs, k, m, n)
    ensures k in ws[n].hot && ws[n].hot[k].args == EventEffect(u, ws[m], xs[m]).args && ws[n].hot[k].args.at == xs[m].at
    decreases n
  {
    assert Moves(u, ws[n - 1], xs[n - 1], ws[n]);
    if m < n - 1 {
      LastStoreIsHot(u, ws, xs, k, m, n - 1);
      assert !Stores(u, ws[n - 1], xs[n - 1], k);
    }
  }

  lemma {:induction false} HotIsLastStore(u: Setup, ws: seq<World>, xs: seq<Tick>, k: Key, n: nat) returns (m: int)
    requires Trace(u, ws, xs) && n <= |xs| && k in ws[n].hot
    ensures LastStore(u, ws, xs, k, m, n)
  {
    if n == 0 {
      assert false;
    }
    assert Moves(u, ws[n - 1], xs[n - 1], ws[n]);
    if Stores(u, ws[n - 1], xs[n - 1], k) {
      m := n - 1;
    } else {
      m := HotIsLastStore(u, ws, xs, k, n - 1);
    }
  }

  /** A body is live exactly while the last one stored has not expired. */
  lemma LiveIffLastStore(u: Setup, ws: seq<World>, xs: seq<Tick>, k: Key, n: nat, t: Time)
    requires Trace(u, ws, xs) && n <= |xs| && ws[n].now <= t
    ensures Live(ws[n].store.body, k, t).Some? <==>
            exists m :: LastStore(u, ws, xs, k, m, n) && t < Expiry(u, ws, xs, k, m)
  {
    TraceKeepsCacheInv(u, ws, xs, n);
    assert KeySound(u, ws[n], k);
    if Live(ws[n].store.body, k, t).Some? {
      var m := HotIsLastStore(u, ws, xs, k, n);
      LastStoreIsHot(u, ws, xs, k, m, n);
    }
    forall m | LastStore(u, ws, xs, k, m, n) && t < Expiry(u, ws, xs, k, m)
      ensures Live(ws[n].store.body, k, t).Some? {
      LastStoreIsHot(u, ws, xs, k, m, n);
    }
  }

  // ------------------------------------------------------------------ missed lookups

  /** Step j is the lookup by which task t misses the body of k. */
  ghost predicate Misses(u: Setup, ws: seq<World>, xs: seq<Tick>, k: Key, j: int, t: TaskId)
    requires |ws| == |xs| + 1
  {
    && 0 <= j < |xs| && xs[j].e.Proceed? && xs[j].e.t == t
    && t in ws[j].tasks && ws[j].tasks[t].key == k && ws[j].tasks[t].phase.Looking?
    && Live(ws[j].store.body, k, xs[j].at) == None
  }

  /** A request between its missed lookup and its reply, unless it is to store a body. */
  predicate Open(p: Phase) {
    match p
    case Looking => false
    case Fetching(trip) => trip.shared
    case Returning(trip, _, _) => trip.shared
    case Writing(w, _) => w.Refusing?
    case Finished(_, _, _) => false
    case _ => true
  }

  lemma OpensByMissing(u: Setup, w: World, x: Tick)
    requires Possible(u, w, x) && Open(NextPhase(u, w, x))
    ensures x.e.t in w.tasks && (w.tasks[x.e.t].phase.Looking? || Open(w.tasks[x.e.t].phase))
    ensures w.tasks[x.e.t].phase.Looking? ==> x.e.Proceed? && Live(w.store.body, KeyOf(w, x.e), x.at) == None
  {
  }

  lemma {:induction false} HasMissed(u: Setup, ws: seq<World>, xs: seq<Tick>, n: nat, t: TaskId) returns (j: int)
    requires Trace(u, ws, xs) && n <= |xs| && t in ws[n].tasks && Open(ws[n].tasks[t].phase)
    ensures j < n && Misses(u, ws, xs, ws[n].tasks[t].key, j, t)
  {
    if n == 0 {
      assert false;
    }
    var x := xs[n - 1];
    assert Moves(u, ws[n - 1], x, ws[n]);
    if x.e.t == t {
      OpensByMissing(u, ws[n - 1], x);
      if ws[n - 1].tasks[t].phase.Looking? {
        return n - 1;
      }
    }
    j := HasMissed(u, ws, xs, n - 1, t);
  }

  /** A body that a lookup missed is live again exactly when one was stored since and has not expired. */
  lemma MissLasts(u: Setup, ws: seq<World>, xs: seq<Tick>, k: Key, j: nat, t: TaskId, n: nat, at: Time)
    requires Trace(u, ws, xs) && Misses(u, ws, xs, k, j, t) && j < n <= |xs| && ws[n].now <= at
    ensures Live(ws[n].store.body, k, at).Some? <==>
            exists m :: j < m && LastStore(u, ws, xs, k, m, n) && at < Expiry(u, ws, xs, k, m)
  {
    LiveIffLastStore(u, ws, xs, k, n, at);
    TraceInOrder(u, ws, xs, j, n);
    assert Moves(u, ws[j], xs[j], ws[j + 1]);
    forall m | LastStore(u, ws, xs, k, m, n) && at < Expiry(u, ws, xs, k, m) ensures j < m {
      if m < j {
        assert LastStore(u, ws, xs, k, m, j);
        LiveIffLastStore(u, ws, xs, k, j, xs[j].at);
        assert false;
      }
    }
  }

  // ------------------------------------------------------------------- over whole runs

  /**
   Step i stores a 4xx for k while the last body stored, by step m, has not expired; and
   step m came after the lookup, step j, by which the same request missed one.
   */
  ghost predicate Overwrites(u: Setup, ws: seq<World>, xs: seq<Tick>, k: Key, j: int, m: int, i: int)
    requires |ws| == |xs| + 1
  {
    && 0 <= j < m < i < |xs| && Refuses(u, ws[i], xs[i], k) && Misses(u, ws, xs, k, j, xs[i].e.t)
    && LastStore(u, ws, xs, k, m, i) && xs[i].at < Expiry(u, ws, xs, k, m)
  }

  /** A negative write over a live body is one over a body stored since the writer's lookup. */
  lemma RefusalOverBody(u: Setup, ws: seq<World>, xs: seq<Tick>, k: Key, i: nat)
    requires Trace(u, ws, xs) && i < |xs| && Refuses(u, ws[i], xs[i], k)
    ensures Live(ws[i].store.body, k, xs[i].at).Some? <==> exists j, m :: Overwrites(u, ws, xs, k, j, m, i)
  {
    assert Moves(u, ws[i], xs[i], ws[i + 1]);
    var j := HasMissed(u, ws, xs, i, xs[i].e.t);
    MissLasts(u, ws, xs, k, j, xs[i].e.t, i, xs[i].at);
    if Live(ws[i].store.body, k, xs[i].at).Some? {
      var m :| j < m && LastStore(u, ws, xs, k, m, i) && xs[i].at < Expiry(u, ws, xs, k, m);
      assert Overwrites(u, ws, xs, k, j, m, i);
    }
    forall j', m | Overwrites(u, ws, xs, k, j', m, i) ensures Live(ws[i].store.body, k, xs[i].at).Some? {
      LiveIffLastStore(u, ws, xs, k, i, xs[i].at);
    }
  }

  lemma {:induction false} ExclusiveUpTo(u: Setup, ws: seq<World>, xs: seq<Tick>, k: Key, n: nat)
    requires Trace(u, ws, xs) && n <= |xs|
    requires forall j, m, i :: i < n ==> !Overwrites(u, ws, xs, k, j, m, i)
    ensures Exclusive(ws[n], k)
  {
    if n == 0 {
      forall t ensures ExclusiveAt(ws[0], k, t) {
      }
    } else {
      ExclusiveUpTo(u, ws, xs, k, n - 1);
      TraceKeepsCacheInv(u, ws, xs, n - 1);
      assert Moves(u, ws[n - 1], xs[n - 1], ws[n]);
      ExclusiveUnlessOverwritten(u, ws[n - 1], xs[n - 1], k);
      if Refuses(u, ws[n - 1], xs[n - 1], k) {
        RefusalOverBody(u, ws, xs, k, n - 1);
      }
    }
  }

  /**
   Positive and negative entries of k exclude each other all through a run, whatever the
   interleaving, exactly when no request stores a 4xx for k over a live body that was
   stored between its own missed lookup and that write.
   */
  lemma ExclusiveIffNeverOverwritten(u: Setup, ws: seq<World>, xs: seq<Tick>, k: Key)
    requires Trace(u, ws, xs)
    ensures (forall n :: 0 <= n <= |xs| ==> Exclusive(ws[n], k)) <==>
            (forall j, m, i :: !Overwrites(u, ws, xs, k, j, m, i))
  {
    if forall j, m, i :: !Overwrites(u, ws, xs, k, j, m, i) {
      forall n | 0 <= n <= |xs| ensures Exclusive(ws[n], k) {
        ExclusiveUpTo(u, ws, xs, k, n);
      }
    }
    forall j, m, i | Overwrites(u, ws, xs, k, j, m, i) ensures !(Exclusive(ws[i], k) && Exclusive(ws[i + 1], k)) {
      TraceKeepsCacheInv(u, ws, xs, i);
      assert Moves(u, ws[i], xs[i], ws[i + 1]);
      RefusalOverBody(u, ws, xs, k, i);
      if Exclusive(ws[i], k) { ExclusiveUnlessOverwritten(u, ws[i], xs[i], k); }
    }
  }

  /** In particular if nobody stores a body of k between a request's missed lookup and its storing a 4xx. */
  lemma ExclusiveIfUndisturbed(u: Setup, ws: seq<World>, xs: seq<Tick>, k: Key)
    requires Trace(u, ws, xs)
    requires forall j, m, i ::
               (0 <= j < m < i < |xs| && Refuses(u, ws[i], xs[i], k) && Misses(u, ws, xs, k, j, xs[i].e.t)) ==>
                 !Stores(u, ws[m], xs[m], k)
    ensures forall n :: 0 <= n <= |xs| ==> Exclusive(ws[n], k)
  {
    ExclusiveIffNeverOverwritten(u, ws, xs, k);
  }
}
