/** The bounded retry loop (app/esi_client.py:287-326). */
module Retry {
  import opened Common
  import opened Esi
  import Breaker
  import Pacer

  type Span = r: real | r >= 0.0

  /** How long a request takes around attempt `i`: before the pacer, oversleeping in it, on the wire. */
  datatype Timing = Timing(wait: Span, lag: Span, trip: Span)

  datatype Config = Config(maxRetries: int, baseDelay: real, maxDelay: real)

  predicate Retriable(reply: Reply) {
    reply.RequestError? || reply.resp.status in {502, 503, 504}
  }

  function Pow2(n: nat): (p: real)
    ensures p >= 1.0
  {
    if n == 0 then 1.0 else 2.0 * Pow2(n - 1)
  }

  /** The pause after a failed attempt, as `asyncio.sleep` takes it: never negative. */
  function Backoff(cfg: Config, reply: Reply, attempt: nat): Span {
    var asked :=
      if reply.Got? && reply.resp.headers.retryAfter.Some? then reply.resp.headers.retryAfter.value as real
      else cfg.baseDelay * Pow2(attempt);
    Max(0.0, Min(asked, cfg.maxDelay))
  }

  /** The final reply of the loop, the number of requests it sent and the time it slept. */
  datatype Attempted =
    | Attempted(reply: Reply, used: nat, slept: real)
    | AssertionFailed

  /** The loop from attempt `i` on, as a specification. */
  ghost function Attempts(cfg: Config, replies: nat -> Reply, i: nat): Attempted
    requires i <= cfg.maxRetries
    decreases cfg.maxRetries - i
  {
    if !Retriable(replies(i)) || i == cfg.maxRetries then Attempted(replies(i), i + 1, 0.0)
    else
      var rest := Attempts(cfg, replies, i + 1);
      rest.(slept := rest.slept + Backoff(cfg, replies(i), i))
  }

  ghost function Outcome(cfg: Config, replies: nat -> Reply): Attempted {
    if cfg.maxRetries < 0 then AssertionFailed else Attempts(cfg, replies, 0)
  }

  lemma {:induction false} AttemptsStop(cfg: Config, replies: nat -> Reply, i: nat)
    requires i <= cfg.maxRetries
    ensures var a := Attempts(cfg, replies, i);
            && a.Attempted? && i < a.used <= cfg.maxRetries + 1 && a.reply == replies(a.used - 1)
            && (forall j :: i <= j < a.used - 1 ==> Retriable(replies(j)))
            && (Retriable(a.reply) ==> a.used == cfg.maxRetries + 1)
    decreases cfg.maxRetries - i
  {
    if Retriable(replies(i)) && i < cfg.maxRetries {
      AttemptsStop(cfg, replies, i + 1);
    }
  }

  lemma {:induction false} AttemptsSleep(cfg: Config, replies: nat -> Reply, i: nat)
    requires i <= cfg.maxRetries
    ensures var a := Attempts(cfg, replies, i);
            a.Attempted? && 0.0 <= a.slept <= Pauses(cfg, cfg.maxRetries - i)
    decreases cfg.maxRetries - i
  {
    if Retriable(replies(i)) && i < cfg.maxRetries {
      AttemptsSleep(cfg, replies, i + 1);
    }
  }

  /** What the pauses after the first n replies add up to. */
  ghost function Slept(cfg: Config, replies: nat -> Reply, i: nat, n: nat): real
    requires i <= n
    decreases n - i
  {
    if i == n then 0.0 else Backoff(cfg, replies(i), i) + Slept(cfg, replies, i + 1, n)
  }

  lemma {:induction false} SleepsAfterEach(cfg: Config, replies: nat -> Reply, i: nat)
    requires i <= cfg.maxRetries
    ensures var a := Attempts(cfg, replies, i);
            a.Attempted? && a.used > i && a.slept == Slept(cfg, replies, i, a.used - 1)
    decreases cfg.maxRetries - i
  {
    if Retriable(replies(i)) && i < cfg.maxRetries {
      SleepsAfterEach(cfg, replies, i + 1);
    }
  }

  /** A delay doubled so many times. */
  ghost function Doubled(delay: real, times: nat): real {
    if times == 0 then delay else 2.0 * Doubled(delay, times - 1)
  }

  lemma {:induction false} PowerDoubles(delay: real, times: nat)
    ensures delay * Pow2(times) == Doubled(delay, times)
  {
    if times > 0 {
      PowerDoubles(delay, times - 1);
      assert delay * (2.0 * Pow2(times - 1)) == 2.0 * (delay * Pow2(times - 1));
    }
  }

  /** The pause after a reply is its Retry-After, else the base delay doubled per attempt, from zero to the ceiling. */
  lemma PauseIsAsked(cfg: Config, reply: Reply, attempt: nat)
    requires cfg.maxDelay >= 0.0
    ensures var asked := if reply.Got? && reply.resp.headers.retryAfter.Some?
                         then reply.resp.headers.retryAfter.value as real else Doubled(cfg.baseDelay, attempt);
            && (0.0 <= asked <= cfg.maxDelay ==> Backoff(cfg, reply, attempt) == asked)
            && (asked > cfg.maxDelay ==> Backoff(cfg, reply, attempt) == cfg.maxDelay)
            && (asked < 0.0 ==> Backoff(cfg, reply, attempt) == 0.0)
  {
    PowerDoubles(cfg.baseDelay, attempt);
    Clamped(cfg, reply, attempt, Doubled(cfg.baseDelay, attempt));
  }

  lemma Clamped(cfg: Config, reply: Reply, attempt: nat, delay: real)
    requires delay == cfg.baseDelay * Pow2(attempt)
    ensures Backoff(cfg, reply, attempt)
            == Max(0.0, Min(if reply.Got? && reply.resp.headers.retryAfter.Some?
                            then reply.resp.headers.retryAfter.value as real else delay, cfg.maxDelay))
  {
  }

  ghost function Ceiling(cfg: Config): real {
    Max(0.0, cfg.maxDelay)
  }

  /** `k` pauses at the ceiling. */
  ghost function Pauses(cfg: Config, k: nat): (r: real)
    ensures r >= 0.0
  {
    if k == 0 then 0.0 else Pauses(cfg, k - 1) + Ceiling(cfg)
  }

  lemma {:induction false} PausesMultiply(cfg: Config, k: nat)
    ensures Pauses(cfg, k) == k as real * Ceiling(cfg)
  {
    if k > 0 {
      PausesMultiply(cfg, k - 1);
      assert k as real == (k - 1) as real + 1.0;
    }
  }

  /** A transport failure, or a status that says the upstream is briefly unwell. */
  ghost predicate Transient(reply: Reply) {
    reply.RequestError? || reply.resp.status == 502 || reply.resp.status == 503 || reply.resp.status == 504
  }

  /**
   The loop sends at most one request more than the retry limit, stops at the first
   reply that is not transient, so at a 420 or 429 at the latest, and sleeps after every
   other one, at most as many ceilings as the limit.  Its closing assertion fails exactly
   for a negative limit.
   */
  lemma RetryBounds(cfg: Config, replies: nat -> Reply)
    ensures Outcome(cfg, replies).AssertionFailed? <==> cfg.maxRetries < 0
    ensures cfg.maxRetries >= 0 ==>
              var a := Outcome(cfg, replies);
              && 1 <= a.used <= cfg.maxRetries + 1 && a.reply == replies(a.used - 1)
              && (forall j :: 0 <= j < a.used - 1 ==> Transient(replies(j)))
              && (Transient(a.reply) ==> a.used == cfg.maxRetries + 1)
              && a.slept == Slept(cfg, replies, 0, a.used - 1)
    ensures cfg.maxRetries >= 0 ==> 0.0 <= Outcome(cfg, replies).slept <= Pauses(cfg, cfg.maxRetries)
    ensures forall j: nat :: j <= cfg.maxRetries && replies(j).Got? && Throttled(replies(j).resp.status) ==>
              Outcome(cfg, replies).used <= j + 1
  {
    assert forall reply :: Retriable(reply) <==> Transient(reply);
    if cfg.maxRetries >= 0 {
      AttemptsStop(cfg, replies, 0);
      AttemptsSleep(cfg, replies, 0);
      SleepsAfterEach(cfg, replies, 0);
    }
  }

  /** The trips of the first n responses, received at these times. */
  ghost function TripsOf(breaker: Breaker.CircuitBreaker, replies: nat -> Reply, times: seq<real>, n: nat)
    : seq<Breaker.Trip>
    requires n <= |times|
  {
    if n == 0 then []
    else TripsOf(breaker, replies, times, n - 1) + TripOf(breaker, replies(n - 1), times[n - 1])
  }

  ghost function TripOf(breaker: Breaker.CircuitBreaker, reply: Reply, at: real): seq<Breaker.Trip> {
    if reply.Got? && breaker.Trips(reply.resp) then [Breaker.Trip(at, breaker.BlockFor(reply.resp) as real)] else []
  }

  lemma {:induction false} TripsOfPrefix(breaker: Breaker.CircuitBreaker, replies: nat -> Reply, times: seq<real>,
                                         more: seq<real>, n: nat)
    requires n <= |times|
    ensures TripsOf(breaker, replies, times + more, n) == TripsOf(breaker, replies, times, n)
  {
    if n > 0 {
      TripsOfPrefix(breaker, replies, times, more, n - 1);
    }
  }

  /** The breaker's trips after one more response. */
  lemma OneMoreTrip(breaker: Breaker.CircuitBreaker, replies: nat -> Reply, times: seq<real>, at: real,
                    before: seq<Breaker.Trip>, trips: seq<Breaker.Trip>)
    requires trips == before + TripsOf(breaker, replies, times, |times|)
    ensures trips + TripOf(breaker, replies(|times|), at)
            == before + TripsOf(breaker, replies, times + [at], |times| + 1)
  {
    TripsOfPrefix(breaker, replies, times, [at], |times|);
  }

  /** The responses came one after the other, in this span. */
  ghost predicate Within(times: seq<real>, start: real, now: real) {
    if times == [] then start <= now
    else times[|times| - 1] <= now && Within(times[..|times| - 1], start, times[|times| - 1])
  }

  /** How pacer and breaker stood when a loop began. */
  datatype Before = Before(start: real, released: nat, blockedUntil: real, trips: seq<Breaker.Trip>)

  /** What the requests sent since, answered at these times, have done to pacer and breaker. */
  ghost predicate Shown(pacer: Pacer.TokenBucket, breaker: Breaker.CircuitBreaker, before: Before,
                        replies: nat -> Reply, times: seq<real>, now: real)
    reads pacer, breaker
  {
    && pacer.Valid() && breaker.Valid() && pacer.updated <= now && before.start <= now
    && before.blockedUntil <= breaker.blockedUntil
    && (pacer.rate > 0.0 ==> |pacer.log| == before.released + |times|)
    && breaker.trips == before.trips + TripsOf(breaker, replies, times, |times|)
  }

  ghost function Standing(pacer: Pacer.TokenBucket, breaker: Breaker.CircuitBreaker, start: real): Before
    reads pacer, breaker
  {
    Before(start, |pacer.log|, breaker.blockedUntil, breaker.trips)
  }

  lemma ShownFirst(pacer: Pacer.TokenBucket, breaker: Breaker.CircuitBreaker, replies: nat -> Reply, start: real)
    requires pacer.Valid() && breaker.Valid() && pacer.updated <= start
    ensures Shown(pacer, breaker, Standing(pacer, breaker, start), replies, [], start)
  {
  }

  lemma ShownLater(pacer: Pacer.TokenBucket, breaker: Breaker.CircuitBreaker, before: Before,
                   replies: nat -> Reply, times: seq<real>, now: real, later: real)
    requires Shown(pacer, breaker, before, replies, times, now) && now <= later
    ensures Shown(pacer, breaker, before, replies, times, later)
  {
  }

  /** The loop's specification after one more attempt that is worth a retry. */
  lemma AttemptsUnfold(cfg: Config, replies: nat -> Reply, i: nat, slept: real)
    requires i <= cfg.maxRetries && Outcome(cfg, replies) == Delayed(Attempts(cfg, replies, i), slept)
    ensures if !Retriable(replies(i)) || i == cfg.maxRetries
            then Outcome(cfg, replies) == Attempted(replies(i), i + 1, slept)
            else Outcome(cfg, replies) == Delayed(Attempts(cfg, replies, i + 1), slept + Backoff(cfg, replies(i), i))
  {
    if Retriable(replies(i)) && i < cfg.maxRetries {
      AttemptsStop(cfg, replies, i + 1);
    }
  }

  /** One attempt: through the pacer, and its response to the breaker. */
  method Attempt(pacer: Pacer.TokenBucket, breaker: Breaker.CircuitBreaker, reply: Reply, t: Timing, start: real)
    returns (now: real)
    requires pacer.Valid() && breaker.Valid() && pacer.updated <= start
    modifies pacer, breaker
    ensures pacer.Valid() && breaker.Valid() && pacer.updated <= now && start <= now
    ensures old(breaker.blockedUntil) <= breaker.blockedUntil
    ensures pacer.rate > 0.0 ==> |pacer.log| == old(|pacer.log|) + 1
    ensures breaker.trips == old(breaker.trips) + TripOf(breaker, reply, now)
  {
    var release := pacer.Pace(start + t.wait, t.lag);
    now := release + t.trip;
    if reply.Got? {
      breaker.NoteResponseBudget(reply.resp, now);
    }
  }

  /** One attempt of a loop. */
  method NextAttempt(pacer: Pacer.TokenBucket, breaker: Breaker.CircuitBreaker, ghost before: Before,
                     replies: nat -> Reply, attempt: nat, t: Timing, start: real, ghost times: seq<real>)
    returns (now: real)
    requires Shown(pacer, breaker, before, replies, times, start) && attempt == |times|
    modifies pacer, breaker
    ensures Shown(pacer, breaker, before, replies, times + [now], now) && start <= now
  {
    ghost var trips := breaker.trips;
    now := Attempt(pacer, breaker, replies(attempt), t, start);
    OneMoreTrip(breaker, replies, times, now, before.trips, trips);
  }

  /**
   Runs one upstream request.  Every attempt passes the pacer and every response, not
   only the last, is shown to the breaker as it comes; `now` advances with the attempts
   and the pauses between them.
   */
  method RequestWithRetries(cfg: Config, pacer: Pacer.TokenBucket, breaker: Breaker.CircuitBreaker,
                            replies: nat -> Reply, timing: nat -> Timing, start: real)
    returns (outcome: Attempted, now: real, ghost times: seq<real>)
    requires pacer.Valid() && breaker.Valid() && pacer.updated <= start
    modifies pacer, breaker
    ensures outcome == Outcome(cfg, replies)
    ensures |times| == if outcome.Attempted? then outcome.used else 0
    ensures Shown(pacer, breaker, old(Standing(pacer, breaker, start)), replies, times, now)
            && Within(times, start, now)
  {
    ghost var before := Standing(pacer, breaker, start);
    now, times := start, [];
    ShownFirst(pacer, breaker, replies, start);
    var attempt, slept := 0, 0.0;
    while attempt < cfg.maxRetries + 1
      invariant 0 <= attempt == |times|
      invariant cfg.maxRetries < 0 ==> attempt == 0
      invariant cfg.maxRetries >= 0 ==>
                  attempt <= cfg.maxRetries && Outcome(cfg, replies) == Delayed(Attempts(cfg, replies, attempt), slept)
      invariant Shown(pacer, breaker, before, replies, times, now) && Within(times, start, now)
    {
      var reply := replies(attempt);
      now := NextAttempt(pacer, breaker, before, replies, attempt, timing(attempt), now, times);
      assert (times + [now])[..attempt] == times;
      times := times + [now];
      AttemptsUnfold(cfg, replies, attempt, slept);
      if !Retriable(reply) || attempt >= cfg.maxRetries {
        return Attempted(reply, attempt + 1, slept), now, times;
      }
      var pause := Backoff(cfg, reply, attempt);
      ShownLater(pacer, breaker, before, replies, times, now, now + pause);
      assert Within(times, start, now + pause);
      slept, now := slept + pause, now + pause;
      attempt := attempt + 1;
    }
    outcome := AssertionFailed;
  }

  ghost function Delayed(a: Attempted, slept: real): Attempted {
    if a.Attempted? then a.(slept := slept + a.slept) else a
  }
}
