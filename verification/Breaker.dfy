/** The error-budget circuit breaker (app/esi_client.py:330-363). */
module Breaker {
  import opened Common
  import opened Esi

  /** A response that tripped the breaker: when, and for how long it asked to stop. */
  datatype Trip = Trip(at: real, length: real)

  /** The latest end of a window of the first n trips; the source starts from 0.0. */
  ghost function PeakTo(trips: seq<Trip>, n: nat): real
    requires n <= |trips|
  {
    if n == 0 then 0.0 else Max(PeakTo(trips, n - 1), trips[n - 1].at + trips[n - 1].length)
  }

  ghost function Peak(trips: seq<Trip>): real {
    PeakTo(trips, |trips|)
  }

  lemma {:induction false} PeakPrefix(trips: seq<Trip>, more: seq<Trip>, n: nat)
    requires n <= |trips|
    ensures PeakTo(trips + more, n) == PeakTo(trips, n)
  {
    if n > 0 {
      PeakPrefix(trips, more, n - 1);
    }
  }

  /** A moment is before the peak exactly when it is inside some trip's window. */
  lemma {:induction false} BeforePeak(trips: seq<Trip>, n: nat, t: real)
    requires n <= |trips|
    ensures t < PeakTo(trips, n) <==> t < 0.0 || exists i :: 0 <= i < n && t < trips[i].at + trips[i].length
  {
    if n > 0 {
      BeforePeak(trips, n - 1, t);
    }
  }

  /** Python's `or` on optional integers: zero and None both give way. */
  function Or(a: Option<int>, b: int): int {
    if a.Some? && a.value != 0 then a.value else b
  }

  class CircuitBreaker {
    const threshold: int
    const blockSeconds: int
    var remain: Option<int>
    var reset: Option<int>
    var blockedUntil: real
    ghost var trips: seq<Trip>

    ghost predicate Valid()
      reads this
    {
      blockedUntil == Peak(trips)
    }

    constructor (threshold: int, blockSeconds: int)
      ensures Valid() && trips == [] && remain == None && reset == None
      ensures this.threshold == threshold && this.blockSeconds == blockSeconds
    {
      this.threshold, this.blockSeconds := threshold, blockSeconds;
      remain, reset, blockedUntil, trips := None, None, 0.0, [];
    }

    predicate Trips(resp: HttpResponse) {
      || Throttled(resp.status)
      || (resp.headers.errorRemain.Some? && resp.headers.errorRemain.value <= threshold)
    }

    function BlockFor(resp: HttpResponse): int {
      Or(resp.headers.retryAfter, Or(resp.headers.errorReset, blockSeconds))
    }

    /** Learns from one response; the block only ever grows, to the latest end of a trip's window. */
    method NoteResponseBudget(resp: HttpResponse, now: real)
      requires Valid()
      modifies this
      ensures Valid() && old(blockedUntil) <= blockedUntil
      ensures trips == old(trips) + if Trips(resp) then [Trip(now, BlockFor(resp) as real)] else []
      ensures |trips| > |old(trips)| <==>
                || resp.status == 420 || resp.status == 429
                || (resp.headers.errorRemain.Some? && resp.headers.errorRemain.value <= threshold)
      ensures |trips| > |old(trips)| ==>
                var h, n := resp.headers, trips[|old(trips)|].length;
                if h.retryAfter.Some? && h.retryAfter.value != 0 then n == h.retryAfter.value as real
                else if h.errorReset.Some? && h.errorReset.value != 0 then n == h.errorReset.value as real
                else n == blockSeconds as real
      ensures remain == if resp.headers.errorRemain.Some? then resp.headers.errorRemain else old(remain)
      ensures reset == if resp.headers.errorReset.Some? then resp.headers.errorReset else old(reset)
    {
      if resp.headers.errorRemain.Some? {
        remain := resp.headers.errorRemain;
      }
      if resp.headers.errorReset.Some? {
        reset := resp.headers.errorReset;
      }
      if Trips(resp) {
        var until := now + BlockFor(resp) as real;
        blockedUntil := Max(blockedUntil, until);
        PeakPrefix(trips, [Trip(now, BlockFor(resp) as real)], |trips|);
        trips := trips + [Trip(now, BlockFor(resp) as real)];
      }
    }

    /** Blocked exactly inside the window of some trip since the client was created. */
    method BudgetBlocked(now: real) returns (blocked: bool)
      requires Valid() && now >= 0.0
      ensures blocked <==> Blocked(now)
      ensures blocked <==> exists i :: 0 <= i < |trips| && now < trips[i].at + trips[i].length
    {
      BeforePeak(trips, |trips|, now);
      blocked := now < blockedUntil;
    }

    predicate Blocked(now: real)
      reads this
    {
      now < blockedUntil
    }
  }
}
