/**
 The per-client sliding-window limiter (app/rate_limit.py).

 The class keeps what the source keeps: one trimmed deque per client key, an
 operation counter, and a periodic prune of idle keys.  Its specification knows
 nothing of trimming or pruning: it counts, over the *whole* history of accepted
 calls of a key, those inside the window.
 */
module RateLimit {

  type Key = string

  /** A remembered accept.  The running limiter keeps bare times; only the history has these. */
  datatype Accept = Accept(at: real)

  /** How many of the first `n` times of `ts` lie in the half-open window (lo, hi]. */
  ghost function CountIn(ts: seq<Accept>, n: nat, lo: real, hi: real): nat
    requires n <= |ts|
  {
    if n == 0 then 0 else CountIn(ts, n - 1, lo, hi) + if lo < ts[n - 1].at <= hi then 1 else 0
  }

  ghost predicate Sorted(ts: seq<Accept>) {
    forall i, j :: 0 <= i < j < |ts| ==> ts[i].at <= ts[j].at
  }

  /** The i-th accepted call found fewer than `limit` earlier accepts in its own window. */
  ghost predicate HadRoom(ts: seq<Accept>, i: nat, limit: int, window: real)
    requires i < |ts|
  {
    CountIn(ts, i, ts[i].at - window, ts[i].at) < limit
  }

  ghost predicate Admitted(ts: seq<Accept>, limit: int, window: real) {
    && Sorted(ts)
    && forall i :: 0 <= i < |ts| ==> HadRoom(ts, i, limit, window)
  }

  lemma {:induction false} CountMonotone(ts: seq<Accept>, n: nat, lo: real, hi: real, lo': real, hi': real)
    requires n <= |ts| && lo' <= lo
    requires forall i :: 0 <= i < n && lo < ts[i].at <= hi ==> ts[i].at <= hi'
    ensures CountIn(ts, n, lo, hi) <= CountIn(ts, n, lo', hi')
  {
    if n > 0 {
      CountMonotone(ts, n - 1, lo, hi, lo', hi');
    }
  }

  lemma {:induction false} CountPrefix(ts: seq<Accept>, more: seq<Accept>, n: nat, lo: real, hi: real)
    requires n <= |ts|
    ensures CountIn(ts + more, n, lo, hi) == CountIn(ts, n, lo, hi)
  {
    if n > 0 {
      CountPrefix(ts, more, n - 1, lo, hi);
    }
  }

  /**
   No window of length `window`, wherever it ends, ever holds more than `limit`
   accepted calls of one key.
   */
  lemma {:induction false} WindowBound(ts: seq<Accept>, n: nat, limit: int, window: real, t: real)
    requires limit > 0 && Admitted(ts, limit, window) && n <= |ts|
    ensures CountIn(ts, n, t - window, t) <= limit
  {
    if n > 0 {
      var last := ts[n - 1].at;
      assert HadRoom(ts, n - 1, limit, window);
      if t - window < last <= t {
        CountMonotone(ts, n - 1, t - window, t, last - window, last);
      } else {
        WindowBound(ts, n - 1, limit, window, t);
      }
    }
  }

  /** `dq` is what is left of `ts` after some times no later than `cutoff` were dropped. */
  ghost predicate Represents(dq: seq<real>, ts: seq<Accept>, cutoff: real) {
    && |dq| <= |ts|
    && (forall j :: 0 <= j < |dq| ==> dq[j] == ts[|ts| - |dq| + j].at)
    && forall i :: 0 <= i < |ts| - |dq| ==> ts[i].at <= cutoff
  }

  lemma {:induction false} CountNone(ts: seq<Accept>, n: nat, lo: real, hi: real)
    requires n <= |ts|
    requires forall i :: 0 <= i < n ==> ts[i].at <= lo
    ensures CountIn(ts, n, lo, hi) == 0
  {
    if n > 0 {
      CountNone(ts, n - 1, lo, hi);
    }
  }

  lemma {:induction false} CountAll(ts: seq<Accept>, m: nat, n: nat, lo: real, hi: real)
    requires m <= n <= |ts|
    requires forall i :: 0 <= i < m ==> ts[i].at <= lo
    requires forall i :: m <= i < n ==> lo < ts[i].at <= hi
    ensures CountIn(ts, n, lo, hi) == n - m
  {
    if m == n {
      CountNone(ts, n, lo, hi);
    } else {
      CountAll(ts, m, n - 1, lo, hi);
    }
  }

  /** A fully trimmed deque has exactly as many elements as the window has accepts. */
  lemma TrimmedCounts(dq: seq<real>, ts: seq<Accept>, cutoff: real, now: real)
    requires Represents(dq, ts, cutoff)
    requires Sorted(ts) && NotAfter(ts, now)
    requires dq == [] || dq[0] > cutoff
    ensures CountIn(ts, |ts|, cutoff, now) == |dq|
  {
    var m := |ts| - |dq|;
    assert dq != [] ==> dq[0] == ts[m].at;
    CountAll(ts, m, |ts|, cutoff, now);
  }

  predicate Idle(dq: seq<real>, cutoff: real) {
    dq == [] || dq[|dq| - 1] <= cutoff
  }

  /** A deque is idle exactly if none of its hits is left in the window. */
  lemma IdleIff(dq: seq<real>, cutoff: real)
    requires forall i, j :: 0 <= i <= j < |dq| ==> dq[i] <= dq[j]
    ensures Idle(dq, cutoff) <==> forall i :: 0 <= i < |dq| ==> dq[i] <= cutoff
  {
    assert Idle(dq, cutoff) ==> forall i :: 0 <= i < |dq| ==> dq[i] <= dq[|dq| - 1];
  }

  /** The source's defaultdict: an absent key reads as an empty deque. */
  function Lookup<T>(m: map<Key, seq<T>>, key: Key): seq<T> {
    if key in m then m[key] else []
  }

  /** The deques stand for the accepted times, of which none is later than `now`. */
  ghost predicate Consistent(hits: map<Key, seq<real>>, accepted: map<Key, seq<Accept>>, now: real,
                             limit: int, window: real) {
    && (forall k :: k in accepted ==> Admitted(accepted[k], limit, window))
    && (forall k :: k in accepted ==> NotAfter(accepted[k], now))
    && (forall k :: Represents(Lookup(hits, k), Lookup(accepted, k), now - window))
  }

  ghost predicate NotAfter(ts: seq<Accept>, now: real) {
    forall i :: 0 <= i < |ts| ==> ts[i].at <= now
  }

  /** `hits` is `was` without the keys that are idle at `cutoff`. */
  ghost predicate PrunedAt(was: map<Key, seq<real>>, hits: map<Key, seq<real>>, cutoff: real) {
    && (forall k :: k in hits <==> k in was && !Idle(was[k], cutoff))
    && (forall k :: k in hits ==> hits[k] == was[k])
  }

  /** The in-place trim at the head of a deque. */
  method Trim(hits: seq<real>, ghost ts: seq<Accept>, cutoff: real) returns (dq: seq<real>)
    requires Represents(hits, ts, cutoff)
    ensures Represents(dq, ts, cutoff)
    ensures dq == [] || dq[0] > cutoff
  {
    dq := hits;
    while dq != [] && dq[0] <= cutoff
      invariant Represents(dq, ts, cutoff)
      decreases |dq|
    {
      assert dq[0] == ts[|ts| - |dq|].at;
      dq := dq[1..];
    }
  }

  class InMemoryRateLimiter {
    const limit: int
    const window: real
    const pruneInterval: int
    var hits: map<Key, seq<real>>
    var opsSincePrune: int
    ghost var accepted: map<Key, seq<Accept>>  // every accept ever, by key, never trimmed
    ghost var lastCall: real

    ghost function Accepted(key: Key): seq<Accept>
      reads this
    {
      Lookup(accepted, key)
    }

    ghost predicate Valid()
      reads this
    {
      Consistent(hits, accepted, lastCall, limit, window)
    }

    constructor (limit: int, window: real, pruneInterval: int, start: real)
      ensures Valid() && accepted == map[] && lastCall == start
      ensures this.limit == limit && this.window == window && this.pruneInterval == pruneInterval
    {
      this.limit, this.window, this.pruneInterval := limit, window, pruneInterval;
      hits, opsSincePrune := map[], 0;
      accepted, lastCall := map[], start;
    }

    /** Drops exactly the keys whose newest hit has left the window. */
    method Prune(cutoff: real)
      modifies this`hits
      ensures PrunedAt(old(hits), hits, cutoff)
    {
      var idle := set k | k in hits && Idle(hits[k], cutoff);
      var todo := idle;
      while todo != {}
        invariant todo <= idle
        invariant hits == map k | k in old(hits) && k !in idle - todo :: old(hits)[k]
        decreases |todo|
      {
        var k :| k in todo;
        hits := hits - {k};
        todo := todo - {k};
      }
    }

    /** The prune, when it is due, and the trim of one deque: the window of the key is counted. */
    method Refresh(key: Key, now: real) returns (dq: seq<real>)
      requires Valid() && lastCall <= now
      modifies this`hits, this`opsSincePrune, this`lastCall
      ensures Valid() && lastCall == now
      ensures Represents(dq, Accepted(key), now - window)
      ensures |dq| == InWindow(Accepted(key), now)
    {
      var cutoff := now - window;
      opsSincePrune := opsSincePrune + 1;
      if opsSincePrune >= pruneInterval {
        Prune(cutoff);
        opsSincePrune := 0;
      }
      PruneKeepsAll(old(hits), hits, accepted, lastCall, now, limit, window);
      lastCall := now;
      dq := Trim(Lookup(hits, key), Accepted(key), cutoff);
      TrimmedCounts(dq, Accepted(key), cutoff, now);
      TrimKeeps(hits, accepted, key, dq, Accepted(key), now, limit, window);
      hits := hits[key := dq];
    }

    /**
     The answer, the remaining allowance and the new history depend on the full
     history of the key alone: neither trimming nor `pruneInterval` shows.
     */
    method Allow(key: Key, now: real) returns (ok: bool, remaining: int)
      requires Valid() && lastCall <= now
      modifies this
      ensures Valid()
      ensures limit <= 0 ==> ok && remaining == limit && accepted == old(accepted)
      ensures limit > 0 ==> lastCall == now
      ensures limit > 0 ==> (ok <==> InWindow(old(Accepted(key)), now) < limit)
      ensures limit > 0 && key in old(accepted) ==> (ok <==> InWindow(old(accepted)[key], now) < limit)
      ensures limit > 0 && key !in old(accepted) ==> ok
      ensures limit > 0 && ok ==>
                && key in accepted
                && accepted[key] == (if key in old(accepted) then old(accepted)[key] else []) + [Accept(now)]
      ensures limit > 0 && ok ==> remaining == limit - 1 - InWindow(old(Accepted(key)), now)
      ensures limit > 0 && ok ==> accepted == old(accepted)[key := old(Accepted(key)) + [Accept(now)]]
      ensures limit > 0 && !ok ==> remaining == 0 && accepted == old(accepted)
    {
      if limit <= 0 {
        return true, limit;
      }
      ghost var ts := Accepted(key);
      var dq := Refresh(key, now);
      if |dq| >= limit {
        return false, 0;
      }
      AdmitOne(dq, ts, now, limit, window);
      dq := dq + [now];
      UpdateKeeps(hits, accepted, key, dq, ts + [Accept(now)], now, limit, window);
      accepted := accepted[key := ts + [Accept(now)]];
      hits := hits[key := dq];
      return true, limit - |dq|;
    }

    ghost function InWindow(ts: seq<Accept>, now: real): nat {
      CountIn(ts, |ts|, now - window, now)
    }

    /** The promise to every client: no window, anywhere in its history, exceeds the limit. */
    lemma NeverExceeds(key: Key, t: real)
      requires Valid() && limit > 0
      ensures key in accepted ==> InWindow(accepted[key], t) <= limit
    {
      if key in accepted { WindowBound(accepted[key], |accepted[key]|, limit, window, t); }
    }
  }

  /** Pruning a key forgets only hits that have left the window. */
  lemma PruneKeeps(dq: seq<real>, ts: seq<Accept>, before: real, cutoff: real)
    requires Represents(dq, ts, before) && before <= cutoff && Sorted(ts)
    ensures Represents(dq, ts, cutoff)
    ensures Idle(dq, cutoff) ==> Represents([], ts, cutoff)
  {
    if dq != [] {
      assert dq[|dq| - 1] == ts[|ts| - 1].at;
    }
  }

  lemma PruneKeepsAll(was: map<Key, seq<real>>, hits: map<Key, seq<real>>, accepted: map<Key, seq<Accept>>,
                      before: real, now: real, limit: int, window: real)
    requires Consistent(was, accepted, before, limit, window) && before <= now
    requires hits == was || PrunedAt(was, hits, now - window)
    ensures Consistent(hits, accepted, now, limit, window)
  {
    forall k | k in accepted ensures NotAfter(accepted[k], now) {
      assert NotAfter(accepted[k], before);
    }
    forall k ensures Represents(Lookup(hits, k), Lookup(accepted, k), now - window) {
      PruneKeeps(Lookup(was, k), Lookup(accepted, k), before - window, now - window);
    }
  }

  /** Replacing the deque and the accepted times of one key together keeps the rest in step. */
  lemma UpdateKeeps(hits: map<Key, seq<real>>, accepted: map<Key, seq<Accept>>, key: Key,
                    dq: seq<real>, ts: seq<Accept>, now: real, limit: int, window: real)
    requires Consistent(hits, accepted, now, limit, window)
    requires Admitted(ts, limit, window) && NotAfter(ts, now) && Represents(dq, ts, now - window)
    ensures Consistent(hits[key := dq], accepted[key := ts], now, limit, window)
  {
    var hits', accepted' := hits[key := dq], accepted[key := ts];
    forall k ensures Represents(Lookup(hits', k), Lookup(accepted', k), now - window) {
      assert Represents(Lookup(hits, k), Lookup(accepted, k), now - window);
    }
  }

  lemma TrimKeeps(hits: map<Key, seq<real>>, accepted: map<Key, seq<Accept>>, key: Key,
                  dq: seq<real>, ts: seq<Accept>, now: real, limit: int, window: real)
    requires Consistent(hits, accepted, now, limit, window)
    requires ts == Lookup(accepted, key) && Represents(dq, ts, now - window)
    ensures Consistent(hits[key := dq], accepted, now, limit, window)
  {
    var hits' := hits[key := dq];
    forall k ensures Represents(Lookup(hits', k), Lookup(accepted, k), now - window) {
      assert Represents(Lookup(hits, k), Lookup(accepted, k), now - window);
    }
  }

  lemma AdmitOne(dq: seq<real>, ts: seq<Accept>, now: real, limit: int, window: real)
    requires Admitted(ts, limit, window) && NotAfter(ts, now) && Represents(dq, ts, now - window)
    requires CountIn(ts, |ts|, now - window, now) < limit
    ensures Admitted(ts + [Accept(now)], limit, window)
    ensures NotAfter(ts + [Accept(now)], now) && Represents(dq + [now], ts + [Accept(now)], now - window)
  {
    var ts' := ts + [Accept(now)];
    forall i | 0 <= i < |ts'| ensures HadRoom(ts', i, limit, window) {
      CountPrefix(ts, [Accept(now)], i, ts'[i].at - window, ts'[i].at);
      assert i < |ts| ==> HadRoom(ts, i, limit, window);
    }
  }
}
