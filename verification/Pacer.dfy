/**
 The outbound token bucket (app/esi_client.py:100-105, 381-399).

 `Pace` runs under the pacer's lock, sleep included, so calls take effect one after
 the other.  A call is given the time `now` at which it got the lock and the `lag`
 by which a sleep overran what was asked for; it returns the time at which it
 releases its request.
 */
module Pacer {
  import opened Common

  /**
   A released request: when it got the lock, when it was released, how many tokens were
   left right after, and how many its sleep forfeited by emptying the bucket.
   */
  datatype Release = Release(asked: real, at: real, left: real, lost: real)

  function Burst(rate: real): real {
    Max(1.0, rate)
  }

  /** The tokens at time `t`, when there were `had` at time `since` and nothing was released. */
  function Filled(rate: real, had: real, since: real, t: real): real {
    Min(Burst(rate), had + rate * (t - since))
  }

  /** The tokens that call n finds at time `t`; the first one finds a full bucket. */
  ghost function Level(log: seq<Release>, rate: real, n: nat, t: real): real
    requires n <= |log|
  {
    if n == 0 then Burst(rate) else Filled(rate, log[n - 1].left, log[n - 1].at, t)
  }

  /** A release that finds `found` tokens spends one, after waiting for it if need be. */
  ghost predicate Spends(r: Release, found: real, rate: real) {
    && r.asked <= r.at && 0.0 <= r.lost && 0.0 <= r.left <= Burst(rate) - 1.0
    && (r.asked < r.at <==> found < 1.0)
    && r.left + 1.0 + r.lost == found + rate * (r.at - r.asked)
    && (if found < 1.0 then r.left == 0.0 else r.lost == 0.0)
  }

  /** Release i comes after the one before it and spends what it finds. */
  ghost predicate SpendsAt(log: seq<Release>, rate: real, i: nat)
    requires i < |log|
  {
    && (i > 0 ==> log[i - 1].at <= log[i].asked)
    && Spends(log[i], Level(log, rate, i, log[i].asked), rate)
  }

  /** The first n releases of a log that the bucket can produce. */
  ghost predicate Paced(log: seq<Release>, rate: real, n: nat)
    requires n <= |log|
  {
    forall i {:trigger SpendsAt(log, rate, i)} :: 0 <= i < n ==> SpendsAt(log, rate, i)
  }

  lemma PacedOn(log: seq<Release>, rate: real, r: Release)
    requires Paced(log, rate, |log|) && SpendsAt(log + [r], rate, |log|)
    ensures Paced(log + [r], rate, |log| + 1)
  {
    forall i {:trigger SpendsAt(log + [r], rate, i)} | 0 <= i < |log| ensures SpendsAt(log + [r], rate, i) {
      assert SpendsAt(log, rate, i);
    }
  }

  /** How many of the first `n` releases lie in [s, t]. */
  ghost function Count(log: seq<Release>, n: nat, s: real, t: real): nat
    requires n <= |log|
  {
    if n == 0 then 0 else Count(log, n - 1, s, t) + if s <= log[n - 1].at <= t then 1 else 0
  }

  /** What a release uses up from `s` on: its token, and what a sleep begun since then forfeits. */
  ghost function Uses(r: Release, s: real): real {
    (if s <= r.at then 1.0 else 0.0) + (if s <= r.asked then r.lost else 0.0)
  }

  /** What the first n releases used up from `s` on. */
  ghost function Used(log: seq<Release>, n: nat, s: real): real
    requires n <= |log|
  {
    if n == 0 then 0.0 else Used(log, n - 1, s) + Uses(log[n - 1], s)
  }

  lemma {:induction false} UsedNone(log: seq<Release>, rate: real, n: nat, s: real)
    requires n <= |log| && Paced(log, rate, n) && (n > 0 ==> log[n - 1].at < s)
    ensures Used(log, n, s) == 0.0
  {
    if n > 0 {
      assert SpendsAt(log, rate, n - 1);
      UsedNone(log, rate, n - 1, s);
    }
  }

  lemma {:induction false} CountUses(log: seq<Release>, rate: real, n: nat, s: real, t: real)
    requires n <= |log| && Paced(log, rate, n)
    ensures Count(log, n, s, t) as real <= Used(log, n, s)
  {
    if n > 0 {
      assert SpendsAt(log, rate, n - 1);
      CountUses(log, rate, n - 1, s, t);
    }
  }

  lemma Gain(rate: real, s: real, t: real)
    requires rate > 0.0
    ensures rate * (t - s) >= 0.0 <==> s <= t
  {
  }

  lemma GainSplits(rate: real, s: real, t: real, u: real)
    ensures rate * (u - s) == rate * (t - s) + rate * (u - t)
  {
  }

  // ------------------------------------------------------------- the exact level

  /** Burst and gain since `s`, less what was used since then. */
  ghost function Balance(rate: real, used: real, s: real, t: real): real {
    Burst(rate) + rate * (t - s) - used
  }

  /**
   Since whatever moment: the level never exceeds a burst plus the gain since then, less
   what was used since then.
   */
  lemma {:induction false} LevelAtMost(log: seq<Release>, rate: real, n: nat, t: real, s: real)
    requires rate > 0.0 && n <= |log| && Paced(log, rate, n) && s <= t && (n > 0 ==> log[n - 1].at <= t)
    ensures Level(log, rate, n, t) <= Balance(rate, Used(log, n, s), s, t)
    decreases n, 1
  {
    if n == 0 {
      Gain(rate, s, t);
    } else if log[n - 1].at < s {
      UsedNone(log, rate, n, s);
      Gain(rate, s, t);
    } else {
      SpentSince(log, rate, n, s);
      GainSplits(rate, s, log[n - 1].at, t);
    }
  }

  /** What is left after a release, and what was used since `s`, came out of one burst and the gain since `s`. */
  lemma {:induction false} SpentSince(log: seq<Release>, rate: real, n: nat, s: real)
    requires rate > 0.0 && 0 < n <= |log| && Paced(log, rate, n) && s <= log[n - 1].at
    ensures log[n - 1].left <= Balance(rate, Used(log, n, s), s, log[n - 1].at)
    decreases n, 0
  {
    var r := log[n - 1];
    assert SpendsAt(log, rate, n - 1);
    var found := Level(log, rate, n - 1, r.asked);
    if s <= r.asked {
      LevelAtMost(log, rate, n - 1, r.asked, s);
    } else {
      UsedNone(log, rate, n - 1, s);
    }
    SpendsOn(r, found, rate, Used(log, n - 1, s), s);
  }

  /** One release more, in terms of what it found. */
  lemma SpendsOn(r: Release, found: real, rate: real, used: real, s: real)
    requires rate > 0.0 && Spends(r, found, rate) && s <= r.at
    requires if s <= r.asked then found <= Balance(rate, used, s, r.asked) else used == 0.0
    ensures r.left <= Balance(rate, used + Uses(r, s), s, r.at)
  {
    GainSplits(rate, s, r.asked, r.at);
    Gain(rate, s, r.at);
  }

  /** And since some moment, the last one at which the bucket was full, that is exactly the level. */
  lemma {:induction false} LevelReached(log: seq<Release>, rate: real, n: nat, t: real) returns (s: real)
    requires rate > 0.0 && n <= |log| && Paced(log, rate, n) && (n > 0 ==> log[n - 1].at <= t)
    ensures s <= t && Level(log, rate, n, t) == Balance(rate, Used(log, n, s), s, t)
  {
    if n == 0 {
      s := t;
      return;
    }
    var r := log[n - 1];
    assert SpendsAt(log, rate, n - 1);
    Fills(rate, r.left, r.at, t);
    if Level(log, rate, n, t) == Burst(rate) {
      s := t;
      UsedNone(log, rate, n, t);
    } else {
      s := LevelReached(log, rate, n - 1, r.asked);
      SpendsExactly(r, Level(log, rate, n - 1, r.asked), rate, Used(log, n - 1, s), s, t);
    }
  }

  /** A bucket just spent from takes its time to fill up. */
  lemma Fills(rate: real, left: real, at: real, t: real)
    requires rate > 0.0 && 0.0 <= left <= Burst(rate) - 1.0 && at <= t
    ensures Filled(rate, left, at, t) >= 0.0
    ensures Filled(rate, left, at, t) == Burst(rate) ==> at < t
    ensures Filled(rate, left, at, t) != Burst(rate) ==> Filled(rate, left, at, t) == left + rate * (t - at)
  {
    Gain(rate, at, t);
    if at == t {
      assert t - at == 0.0 && rate * 0.0 == 0.0;
    }
  }

  lemma SpendsExactly(r: Release, found: real, rate: real, used: real, s: real, t: real)
    requires rate > 0.0 && Spends(r, found, rate) && s <= r.asked
    requires found == Balance(rate, used, s, r.asked)
    ensures r.left + rate * (t - r.at) == Balance(rate, used + Uses(r, s), s, t)
  {
    GainSplits(rate, s, r.asked, r.at);
    GainSplits(rate, s, r.at, t);
  }

  /** In any interval at most one burst plus what the rate allows for its length is released. */
  lemma {:induction false} PacerBound(log: seq<Release>, rate: real, n: nat, s: real, t: real)
    requires rate > 0.0 && n <= |log| && Paced(log, rate, n) && s <= t
    ensures Count(log, n, s, t) as real <= (if rate < 1.0 then 1.0 else rate) + rate * (t - s)
  {
    if n > 0 && log[n - 1].at > t {
      PacerBound(log, rate, n - 1, s, t);
    } else {
      CountUses(log, rate, n, s, t);
      LevelAtMost(log, rate, n, t, s);
      LevelPositive(log, rate, n, t);
    }
  }

  lemma LevelPositive(log: seq<Release>, rate: real, n: nat, t: real)
    requires rate > 0.0 && n <= |log| && Paced(log, rate, n) && (n > 0 ==> log[n - 1].at <= t)
    ensures Level(log, rate, n, t) >= 0.0
  {
    if n > 0 {
      assert SpendsAt(log, rate, n - 1);
      Fills(rate, log[n - 1].left, log[n - 1].at, t);
    }
  }

  // ------------------------------------------------------- the bound is attained

  /** Since `s` the first n releases have used up the burst and the gain up to `t`, but for less than a token. */
  ghost predicate Exhausted(log: seq<Release>, rate: real, n: nat, t: real, s: real)
    requires n <= |log|
  {
    s <= t && Balance(rate, Used(log, n, s), s, t) < 1.0
  }

  lemma LowIffExhausted(log: seq<Release>, rate: real, n: nat, t: real)
    requires rate > 0.0 && n <= |log| && Paced(log, rate, n) && (n > 0 ==> log[n - 1].at <= t)
    ensures Level(log, rate, n, t) < 1.0 <==> exists s :: Exhausted(log, rate, n, t, s)
  {
    var s := LevelReached(log, rate, n, t);
    assert Level(log, rate, n, t) < 1.0 ==> Exhausted(log, rate, n, t, s);
    forall s' | Exhausted(log, rate, n, t, s') ensures Level(log, rate, n, t) < 1.0 {
      LevelAtMost(log, rate, n, t, s');
    }
  }

  /**
   A release is delayed exactly if, since some moment, the earlier ones, with what their
   sleeps forfeited, had used up the burst plus the gain since then.
   */
  lemma DelayedIffExhausted(log: seq<Release>, rate: real, n: nat, i: nat)
    requires rate > 0.0 && i < n <= |log| && Paced(log, rate, n)
    ensures log[i].asked < log[i].at <==> exists s :: Exhausted(log, rate, i, log[i].asked, s)
  {
    assert SpendsAt(log, rate, i);
    LowIffExhausted(log, rate, i, log[i].asked);
  }

  /** A cold bucket releases as many calls at once as its burst has whole tokens. */
  lemma {:induction false} ColdBurst(log: seq<Release>, rate: real, n: nat)
    requires rate > 0.0 && n <= |log| && Paced(log, rate, n)
    requires n as real <= if rate < 1.0 then 1.0 else rate
    ensures forall i :: 0 <= i < n ==> log[i].asked == log[i].at && log[i].lost == 0.0
    ensures forall s :: Used(log, n, s) <= n as real
  {
    if n > 0 {
      assert n as real == (n - 1) as real + 1.0;
      ColdBurst(log, rate, n - 1);
      NotExhausted(log, rate, n - 1, log[n - 1].asked);
      DelayedIffExhausted(log, rate, n, n - 1);
      assert SpendsAt(log, rate, n - 1);
    }
  }

  lemma NotExhausted(log: seq<Release>, rate: real, n: nat, t: real)
    requires rate > 0.0 && n <= |log| && n as real + 1.0 <= Burst(rate)
    requires forall s :: Used(log, n, s) <= n as real
    ensures forall s :: !Exhausted(log, rate, n, t, s)
  {
    forall s: real {:trigger Exhausted(log, rate, n, t, s)} ensures !Exhausted(log, rate, n, t, s) {
      assert Used(log, n, s) <= n as real;
      Gain(rate, s, t);
    }
  }

  // -------------------------------------------------------------------- the bucket

  /** How long it takes to earn what is missing of a token. */
  function Nap(rate: real, had: real): real
    requires rate > 0.0
  {
    (1.0 - had) / rate
  }

  /** What a bucket with this log holds, and since when. */
  ghost predicate Holds(log: seq<Release>, rate: real, tokens: real, updated: real) {
    if log == [] then tokens == Burst(rate) else tokens == log[|log| - 1].left && updated == log[|log| - 1].at
  }

  class TokenBucket {
    const rate: real
    var tokens: real
    var updated: real
    ghost var log: seq<Release>

    ghost predicate Valid()
      reads this
    {
      Paced(log, rate, |log|) && Holds(log, rate, tokens, updated)
    }

    /** Starts full, so that a cold client is not throttled. */
    constructor (rate: real, start: real)
      ensures Valid() && this.rate == rate && updated == start
      ensures tokens == Burst(rate) && log == []
    {
      this.rate, tokens, updated, log := rate, Burst(rate), start, [];
    }

    /**
     Releases one request.  A disabled pacer does nothing.  Otherwise, with a whole token
     there, the request is released at once and takes it; without one it is released,
     but for the lag, at the first moment that has one, and the bucket is left empty.
     */
    method Pace(now: real, lag: real) returns (release: real)
      requires Valid() && lag >= 0.0 && updated <= now
      modifies this
      ensures Valid() && release >= now
      ensures rate <= 0.0 ==>
                release == now && log == old(log) && tokens == old(tokens) && updated == old(updated)
      ensures rate > 0.0 ==> updated == release && Released(rate, old(tokens), old(updated), now, lag, release, tokens)
      ensures rate > 0.0 ==> exists lost :: log == old(log) + [Release(now, release, tokens, lost)]
    {
      if rate <= 0.0 {
        return now;
      }
      var filled := Filled(rate, tokens, updated, now);
      FoundLevel(log, rate, tokens, updated, now);
      tokens, updated := filled, now;
      ghost var lost := 0.0;
      if tokens < 1.0 {
        var nap := Nap(rate, tokens);
        release := now + nap + lag;
        SleepEarnsOne(rate, old(tokens), old(updated), now, nap, lag);
        lost := rate * lag;
        tokens, updated := 0.0, release;
      } else {
        ReadySpends(rate, old(tokens), old(updated), now, lag);
        tokens, release := tokens - 1.0, now;
      }
      MoreLog(log, rate, Release(now, release, tokens, lost), filled);
      log := log + [Release(now, release, tokens, lost)];
    }

    /** Whatever calls were made so far, no interval holds more releases than the bucket allows. */
    lemma NeverExceeds(s: real, t: real)
      requires Valid() && rate > 0.0 && s <= t
      ensures Count(log, |log|, s, t) as real <= (if rate < 1.0 then 1.0 else rate) + rate * (t - s)
    {
      PacerBound(log, rate, |log|, s, t);
    }
  }

  /** What a bucket finds at `now` is the level its log says. */
  lemma FoundLevel(log: seq<Release>, rate: real, tokens: real, updated: real, now: real)
    requires rate > 0.0 && updated <= now && Paced(log, rate, |log|) && Holds(log, rate, tokens, updated)
    ensures 0.0 <= tokens <= Burst(rate) && Filled(rate, tokens, updated, now) == Level(log, rate, |log|, now)
  {
    Gain(rate, updated, now);
    if log != [] { assert SpendsAt(log, rate, |log| - 1); }
  }

  lemma MoreLog(log: seq<Release>, rate: real, r: Release, found: real)
    requires Paced(log, rate, |log|) && Spends(r, found, rate) && found == Level(log, rate, |log|, r.asked)
    requires log != [] ==> log[|log| - 1].at <= r.asked
    ensures Paced(log + [r], rate, |log| + 1)
  {
    PacedOn(log, rate, r);
  }

  /** Which release a call gets that asks at `now`, and what it leaves. */
  ghost predicate Released(rate: real, had: real, since: real, now: real, lag: real, release: real, left: real) {
    if Filled(rate, had, since, now) >= 1.0 then
      release == now && left == Filled(rate, had, since, now) - 1.0
    else
      && release - lag > now && Filled(rate, had, since, release - lag) == 1.0
      && (forall t :: now <= t < release - lag ==> Filled(rate, had, since, t) < 1.0)
      && left == 0.0
  }

  lemma ReadySpends(rate: real, had: real, since: real, now: real, lag: real)
    requires rate > 0.0 && since <= now && 0.0 <= had <= Burst(rate) && Filled(rate, had, since, now) >= 1.0
    ensures Released(rate, had, since, now, lag, now, Filled(rate, had, since, now) - 1.0)
    ensures Spends(Release(now, now, Filled(rate, had, since, now) - 1.0, 0.0), Filled(rate, had, since, now), rate)
  {
  }

  lemma SleepEarnsOne(rate: real, had: real, since: real, now: real, nap: real, lag: real)
    requires rate > 0.0 && since <= now && lag >= 0.0 && 0.0 <= had <= Burst(rate)
    requires Filled(rate, had, since, now) < 1.0
    requires nap == Nap(rate, Filled(rate, had, since, now))
    ensures nap > 0.0 && Released(rate, had, since, now, lag, now + nap + lag, 0.0)
    ensures Spends(Release(now, now + nap + lag, 0.0, rate * lag), Filled(rate, had, since, now), rate)
  {
    assert rate * nap == 1.0 - Filled(rate, had, since, now);
    Gain(rate, 0.0, nap);
    Gain(rate, 0.0, lag);
    assert rate * (nap + lag) == rate * nap + rate * lag;
    GainSplits(rate, since, now, now + nap);
    forall t | now <= t < now + nap ensures Filled(rate, had, since, t) < 1.0 {
      NotYet(rate, had, since, t, now + nap);
    }
  }

  lemma NotYet(rate: real, had: real, since: real, t: real, full: real)
    requires rate > 0.0 && had + rate * (full - since) == 1.0 && t < full
    ensures Filled(rate, had, since, t) < 1.0
  {
    GainSplits(rate, since, t, full);
    Gain(rate, t, full);
  }
}
