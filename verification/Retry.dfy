/** billing_service/internal/kafka/reliability/retry.go: bounded retry with exponential backoff and jitter. */
module Retry {
  import opened Prelude
  import opened Domain
  import opened Currency

  const SECOND: int := 1_000_000_000

  /** One turn of the loop: what fn returns, the random number behind the jitter, and whether the
      context is cancelled during the wait. */
  datatype Turn = Turn(error: Option<ErrorCode>, random: nat, cancelled: bool)

  /** rand.Int63n panics on an empty range. */
  datatype Outcome = Returned(error: Option<ErrorCode>) | JitterPanic

  /** time.Duration(1<<uint(i)) * time.Second in int64 nanoseconds. */
  function Base(i: nat): int { Wrap64(Wrap64(Pow2(i)) * SECOND) }

  function Delay(i: nat, random: nat): int
    requires Base(i) / 5 > 0
  {
    Wrap64(Base(i) + random % (Base(i) / 5))
  }

  /** Between one and attempts calls, every call but the last failing and no wait after them cancelled; the
      outcome is nil exactly when the last call's was. */
  ghost predicate Follows(attempts: int, turns: nat -> Turn, outcome: Outcome, calls: nat) {
    && calls <= (if attempts < 0 then 0 else attempts) && (attempts >= 1 ==> calls >= 1)
    && (forall i :: 0 <= i < calls - 1 ==> turns(i).error.Some? && !turns(i).cancelled)
    && (outcome == Returned(None) <==> calls == 0 || turns(calls - 1).error == None)
    && (outcome.Returned? && outcome.error.Some? ==>
          if calls == attempts then outcome.error == turns(calls - 1).error
          else turns(calls - 1).cancelled && outcome.error == Some(Shutdown))
    && (outcome.JitterPanic? ==> 1 <= calls < attempts && Base(calls - 1) / 5 <= 0)
  }

  /** fn runs until its first success, a cancelled wait, or the last attempt. */
  method Retry(attempts: int, turns: nat -> Turn) returns (outcome: Outcome, calls: nat, delays: seq<int>)
    ensures Follows(attempts, turns, outcome, calls)
    ensures |delays| == if calls == 0 then 0 else calls - 1
    ensures forall i :: 0 <= i < |delays| ==> Base(i) / 5 > 0 && delays[i] == Delay(i, turns(i).random)
  {
    var error: Option<ErrorCode> := None;
    delays := [];
    calls := 0;
    while calls < attempts
      invariant 0 <= calls <= if attempts < 0 then 0 else attempts
      invariant forall i :: 0 <= i < calls ==> turns(i).error.Some?
      invariant forall i :: 0 <= i < calls && i < attempts - 1 ==> !turns(i).cancelled
      invariant error == if calls == 0 then None else turns(calls - 1).error
      invariant |delays| == if calls == attempts && calls > 0 then calls - 1 else calls
      invariant forall i :: 0 <= i < |delays| ==> Base(i) / 5 > 0 && delays[i] == Delay(i, turns(i).random)
    {
      var i := calls;
      error := turns(i).error;
      calls := calls + 1;
      if error == None {
        return Returned(None), calls, delays;
      }
      if i < attempts - 1 {
        var base := Wrap64(Wrap64(Pow2(i)) * SECOND);
        if base / 5 <= 0 {
          return JitterPanic, calls, delays;
        }
        var jitter := turns(i).random % (base / 5);
        if turns(i).cancelled {
          return Returned(Some(Shutdown)), calls, delays;
        }
        delays := delays + [Wrap64(base + jitter)];
      }
    }
    return Returned(error), calls, delays;
  }

  lemma BaseExact(i: nat)
    requires i <= 33
    ensures Base(i) == Pow2(i) * SECOND && Base(i) / 5 == Pow2(i) * 200_000_000
    ensures i <= 32 ==> Base(i) + Base(i) / 5 <= MAX_INT64
  {
    Pow2Monotone(i, 33);
    assert Pow2(33) == 0x2_0000_0000 by { SmallPowers(); }
    if i <= 32 {
      Pow2Monotone(i, 32);
      assert Pow2(32) == 0x1_0000_0000 by { SmallPowers(); }
    }
  }

  lemma SmallPowers()
    ensures Pow2(32) == 0x1_0000_0000 && Pow2(33) == 0x2_0000_0000 && Pow2(34) == 0x4_0000_0000
  {
    PowersTo28();
    assert Pow2(4) == 16;
    Pow2Add(28, 4);
  }

  /** The delay the code intends before attempt i + 2, jitter included, in unbounded arithmetic. */
  predicate DelayAsIntended(i: nat, random: nat) {
    Base(i) / 5 > 0
    && Delay(i, random) == Pow2(i) * 1_000_000_000 + random % (Pow2(i) * 200_000_000)
  }

  /** No wait wraps or panics, whatever the jitter, if and only if there are at most 34 attempts. */
  lemma BackoffFits(attempts: nat)
    ensures (forall i: nat, random: nat :: i < attempts - 1 ==> DelayAsIntended(i, random)) <==> attempts <= 34
  {
    if attempts <= 34 {
      forall i: nat, random: nat | i < attempts - 1
        ensures DelayAsIntended(i, random)
      {
        DelayFits(i, random);
      }
    } else {
      LongestDelayWraps();
    }
  }

  lemma DelayFits(i: nat, random: nat)
    requires i <= 32
    ensures DelayAsIntended(i, random)
  {
    BaseExact(i);
    RestBelow(random, Base(i) / 5);
  }

  lemma RestBelow(random: nat, range: nat)
    requires range > 0
    ensures 0 <= random % range < range
  {
  }

  lemma LongestDelayWraps()
    ensures !DelayAsIntended(33, 0x2_0000_0000 * 200_000_000 - 1)
  {
    BaseExact(33);
    SmallPowers();
  }

  function Sum(delays: seq<int>): int {
    if delays == [] then 0 else Sum(delays[..|delays| - 1]) + delays[|delays| - 1]
  }

  /** The waits before n + 1 attempts that all fail take at least 2^n - 1 seconds and, with any wait
      at all, less than 1.2 times that. */
  lemma {:induction false} TotalBackoff(delays: seq<int>, turns: nat -> Turn)
    requires |delays| <= 33
    requires forall i :: 0 <= i < |delays| ==> Base(i) / 5 > 0 && delays[i] == Delay(i, turns(i).random)
    ensures (Pow2(|delays|) - 1) * 1_000_000_000 <= Sum(delays)
    ensures 5 * Sum(delays) <= 6 * (Pow2(|delays|) - 1) * 1_000_000_000
    ensures delays != [] ==> 5 * Sum(delays) < 6 * (Pow2(|delays|) - 1) * 1_000_000_000
  {
    if delays != [] {
      var n := |delays| - 1;
      TotalBackoff(delays[..n], turns);
      BaseExact(n);
    }
  }
}
