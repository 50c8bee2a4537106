/** When to try again, where to wait, and when to stop (src/acemq_amqp/retry.py).

    Durations are whole microseconds, which is what a `timedelta` holds. A `timedelta` times
    a float is exact in Python: the float becomes an integer ratio and the product is rounded
    half to even, so the rounding is modelled as it is and not as real arithmetic.
 */
module Retry {

  type Micros = int

  datatype Option<+T> = None | Some(value: T)

  /** A float multiplier as its exact integer ratio. */
  datatype Ratio = Ratio(num: int, den: int)

  type Multiplier = r: Ratio | r.den > 0 witness Ratio(2, 1)

  /** How long before the next attempt, and where the message spends it. */
  datatype Wait = Wait(delay: Micros, inBroker: bool)

  datatype RetryPolicy = RetryPolicy(
    maxAttempts: int,
    initialDelay: Micros,
    multiplier: Multiplier,
    maxDelay: Micros,
    jittered: bool,
    maxMessageAge: Micros,
    brokerWaitThreshold: Micros)

  function Max(a: int, b: int): int { if a > b then a else b }

  /** The integer nearest to a/b, halves going to the even neighbour. */
  function RoundHalfEven(a: int, b: int): (q: int)
    requires b > 0
    ensures -b <= 2 * (a - q * b) <= b
    ensures 2 * (a - q * b) == b || 2 * (a - q * b) == -b ==> q % 2 == 0
  {
    var q, r := a / b, a % b;
    assert a == q * b + r;
    if 2 * r > b || (2 * r == b && q % 2 == 1) then
      assert a - (q + 1) * b == r - b;
      q + 1
    else q
  }

  function Scale(m: Multiplier, delay: Micros): Micros {
    RoundHalfEven(delay * m.num, m.den)
  }

  /** The delay before the ceiling: the initial delay multiplied `k` times over. */
  function Uncapped(p: RetryPolicy, k: nat): Micros {
    if k == 0 then p.initialDelay else Scale(p.multiplier, Uncapped(p, k - 1))
  }

  predicate OverCeiling(p: RetryPolicy, delay: Micros) { p.maxDelay > 0 && delay > p.maxDelay }

  function Cap(p: RetryPolicy, delay: Micros): Micros {
    if OverCeiling(p, delay) then p.maxDelay else delay
  }

  /** The policy's delays without jitter, one per attempt that can be followed by another. */
  function Schedule(p: RetryPolicy): (delays: seq<Micros>) {
    seq(Max(p.maxAttempts - 1, 0), (k: nat) => Cap(p, Uncapped(p, k)))
  }

  /** The loop of `schedule`: multiplies the delay it carries and appends the capped copy. */
  method ComputeSchedule(p: RetryPolicy) returns (delays: seq<Micros>)
    ensures delays == Schedule(p)
  {
    delays := [];
    var delay := p.initialDelay;
    for n := 0 to Max(p.maxAttempts - 1, 0)
      invariant delay == Uncapped(p, n)
      invariant |delays| == n
      invariant forall k :: 0 <= k < n ==> delays[k] == Cap(p, Uncapped(p, k))
    {
      var capped := delay;
      if p.maxDelay > 0 && capped > p.maxDelay {
        capped := p.maxDelay;
      }
      delays := delays + [capped];
      delay := Scale(p.multiplier, delay);
    }
  }

  /** Whether some delay after the first, at or before index `k`, was over the ceiling. */
  predicate Crossed(p: RetryPolicy, k: int) {
    exists j {:trigger Uncapped(p, j)} :: 1 <= j <= k && OverCeiling(p, Uncapped(p, j))
  }

  /** What the early-exit loop answers for the wait after attempt `k + 1`: the ceiling for ever
      once a multiplied delay has crossed it, otherwise the capped delay. */
  function Unjittered(p: RetryPolicy, k: nat): Micros {
    if Crossed(p, k) then p.maxDelay else Cap(p, Uncapped(p, k))
  }

  /** The loop of `_unjittered`, which stops multiplying at the first delay over the ceiling. */
  method ComputeUnjittered(p: RetryPolicy, attempt: int) returns (delay: Micros)
    ensures delay == Unjittered(p, Max(attempt - 1, 0))
  {
    delay := p.initialDelay;
    for n := 0 to Max(attempt - 1, 0)
      invariant delay == Uncapped(p, n)
      invariant !Crossed(p, n)
    {
      delay := Scale(p.multiplier, delay);
      assert delay == Uncapped(p, n + 1);
      if p.maxDelay > 0 && delay > p.maxDelay {
        delay := p.maxDelay;
        assert Crossed(p, Max(attempt - 1, 0));
        break;
      }
    }
    if p.maxDelay > 0 && delay > p.maxDelay {
      delay := p.maxDelay;
    }
  }

  predicate WaitsInBroker(p: RetryPolicy, delay: Micros) {
    p.brokerWaitThreshold > 0 && delay > 0 && delay >= p.brokerWaitThreshold
  }

  /** `next_wait`; `moved` is the delay jitter would turn this wait into. */
  function NextWait(p: RetryPolicy, attempt: int, age: Micros, moved: Micros): (w: Option<Wait>) {
    if attempt >= p.maxAttempts || (p.maxMessageAge > 0 && age >= p.maxMessageAge) then None
    else
      var delay := Unjittered(p, Max(attempt - 1, 0));
      if WaitsInBroker(p, delay) then Some(Wait(delay, true))
      else if p.jittered && delay > 0 then Some(Wait(Max(moved, 0), false))
      else Some(Wait(Max(delay, 0), false))
  }

  /** The delays at or above the threshold, in schedule order, repeats removed. */
  function Distinct(p: RetryPolicy, delays: seq<Micros>): seq<Micros> {
    if delays == [] then [] else
      var rungs, last := Distinct(p, delays[..|delays| - 1]), delays[|delays| - 1];
      if WaitsInBroker(p, last) && last !in rungs then rungs + [last] else rungs
  }

  lemma {:induction false} DistinctIs(p: RetryPolicy, delays: seq<Micros>)
    ensures var rungs := Distinct(p, delays);
            && (forall d :: d in rungs <==> d in delays && WaitsInBroker(p, d))
            && (forall i, j :: 0 <= i < j < |rungs| ==> rungs[i] != rungs[j])
  {
    if delays != [] {
      var front, last := delays[..|delays| - 1], delays[|delays| - 1];
      DistinctIs(p, front);
      assert delays == front + [last];
    }
  }

  /** Whether `a` turns up among the delays before `b` has. */
  predicate ReachedFirst(delays: seq<Micros>, a: Micros, b: Micros) {
    exists k :: 0 <= k <= |delays| && a in delays[..k] && b !in delays[..k]
  }

  /** The rungs come in the order their delays are first reached. */
  lemma {:induction false} DistinctInOrder(p: RetryPolicy, delays: seq<Micros>, i: nat, j: nat)
    requires i < j < |Distinct(p, delays)|
    ensures ReachedFirst(delays, Distinct(p, delays)[i], Distinct(p, delays)[j])
  {
    var front, last := delays[..|delays| - 1], delays[|delays| - 1];
    var before, rungs := Distinct(p, front), Distinct(p, delays);
    DistinctIs(p, front);
    if j < |before| {
      DistinctInOrder(p, front, i, j);
      var k :| 0 <= k <= |front| && before[i] in front[..k] && before[j] !in front[..k];
      assert delays[..k] == front[..k];
    } else {
      assert before[i] in before && front == delays[..|front|];
    }
  }

  function BrokerRungs(p: RetryPolicy): seq<Micros> { Distinct(p, Schedule(p)) }

  // ---------------------------------------------------------------- rounding

  lemma MulMonotone(a: int, b: int, c: int)
    requires a <= b && c >= 0
    ensures a * c <= b * c
  {
  }

  lemma ScaleGrows(m: Multiplier, delay: Micros)
    requires m.num >= m.den && delay >= 0
    ensures Scale(m, delay) >= delay
  {
    var q := Scale(m, delay);
    MulMonotone(m.den, m.num, delay);
    assert m.den * delay == delay * m.den && m.num * delay == delay * m.num;
    assert (delay - 1) * m.den == delay * m.den - m.den;
    if q < delay {
      MulMonotone(q, delay - 1, m.den);
      assert false;
    }
  }

  lemma ScaleShrinks(m: Multiplier, delay: Micros)
    requires 0 <= m.num <= m.den && delay >= 0
    ensures 0 <= Scale(m, delay) <= delay
  {
    var q := Scale(m, delay);
    MulMonotone(m.num, m.den, delay);
    MulMonotone(0, m.num, delay);
    assert m.den * delay == delay * m.den && m.num * delay == delay * m.num;
    assert (delay + 1) * m.den == delay * m.den + m.den;
    if q > delay {
      MulMonotone(delay + 1, q, m.den);
      assert false;
    } else if q < 0 {
      MulMonotone(q, -1, m.den);
      assert false;
    }
  }

  lemma ScaleNegative(m: Multiplier, delay: Micros)
    requires m.num >= 0 && delay <= 0
    ensures Scale(m, delay) <= 0
  {
    var q := Scale(m, delay);
    MulMonotone(delay, 0, m.num);
    if q > 0 {
      MulMonotone(1, q, m.den);
      assert false;
    }
  }

  lemma {:induction false} Grows(p: RetryPolicy, i: nat, k: nat)
    requires p.multiplier.num >= p.multiplier.den && i <= k && Uncapped(p, i) >= 0
    ensures Uncapped(p, k) >= Uncapped(p, i)
  {
    if i < k {
      Grows(p, i, k - 1);
      ScaleGrows(p.multiplier, Uncapped(p, k - 1));
    }
  }

  lemma {:induction false} Shrinks(p: RetryPolicy, i: nat, k: nat)
    requires 0 <= p.multiplier.num <= p.multiplier.den && i <= k && Uncapped(p, i) >= 0
    ensures 0 <= Uncapped(p, k) <= Uncapped(p, i)
  {
    if i < k {
      Shrinks(p, i, k - 1);
      ScaleShrinks(p.multiplier, Uncapped(p, k - 1));
    }
  }

  lemma {:induction false} StaysNegative(p: RetryPolicy, i: nat, k: nat)
    requires p.multiplier.num >= 0 && i <= k && Uncapped(p, i) <= 0
    ensures Uncapped(p, k) <= 0
  {
    if i < k {
      StaysNegative(p, i, k - 1);
      ScaleNegative(p.multiplier, Uncapped(p, k - 1));
    }
  }

  // ---------------------------------------------------------------- the two loops agree

  /** The wait taken after attempt `k + 1` and the one the schedule shows for it are the same, for
      every attempt the policy allows. */
  predicate LoopsAgree(p: RetryPolicy) {
    forall k :: 0 <= k < p.maxAttempts - 1 ==> Unjittered(p, k) == Schedule(p)[k]
  }

  /** With a multiplier of one or more the early exit changes nothing. */
  lemma EarlyExitIsHarmless(p: RetryPolicy)
    requires p.multiplier.num >= p.multiplier.den
    ensures LoopsAgree(p)
  {
    forall k | 0 <= k < p.maxAttempts - 1 ensures Unjittered(p, k) == Schedule(p)[k] {
      if Crossed(p, k) {
        var j :| 1 <= j <= k && OverCeiling(p, Uncapped(p, j));
        Grows(p, j, k);
      }
    }
  }

  /** Whether the policy has a delay past the second, its second delay is over the ceiling, and
      its last one has come back under it. */
  predicate FallsBackUnderCeiling(p: RetryPolicy) {
    && p.maxAttempts > 3
    && p.multiplier.num < p.multiplier.den
    && OverCeiling(p, Uncapped(p, 1))
    && Uncapped(p, p.maxAttempts - 2) < p.maxDelay
  }

  lemma ScaleTurns(m: Multiplier, delay: Micros)
    requires m.num < 0 && delay >= 0
    ensures Scale(m, delay) <= 0
  {
    MulMonotone(m.num, 0, delay);
    var q := Scale(m, delay);
    if q > 0 {
      MulMonotone(1, q, m.den);
      assert false;
    }
  }

  /** The loops agree exactly when: the delays do not shrink from above the ceiling to below it; or,
      where a negative multiplier turns them round each time, none before the last but one crosses it. */
  predicate Agreeable(p: RetryPolicy) {
    if p.multiplier.num >= 0 then !FallsBackUnderCeiling(p) else !Crossed(p, p.maxAttempts - 3)
  }

  lemma LoopsAgreeExactlyWhen(p: RetryPolicy)
    ensures LoopsAgree(p) <==> Agreeable(p)
  {
    if p.multiplier.num < 0 {
      TurningLoopsAgree(p);
    } else if p.multiplier.num >= p.multiplier.den {
      EarlyExitIsHarmless(p);
    } else if FallsBackUnderCeiling(p) {
      var last := p.maxAttempts - 2;
      assert Crossed(p, last);
      assert Unjittered(p, last) != Schedule(p)[last];
    } else {
      forall k | 0 <= k < p.maxAttempts - 1 ensures Unjittered(p, k) == Schedule(p)[k] {
        if Crossed(p, k) {
          CrossingLasts(p, k);
        }
      }
    }
  }

  lemma TurningLoopsAgree(p: RetryPolicy)
    requires p.multiplier.num < 0
    ensures LoopsAgree(p) <==> !Crossed(p, p.maxAttempts - 3)
  {
    if Crossed(p, p.maxAttempts - 3) {
      var j :| 1 <= j <= p.maxAttempts - 3 && OverCeiling(p, Uncapped(p, j));
      ScaleTurns(p.multiplier, Uncapped(p, j));
      assert Crossed(p, j + 1) && Uncapped(p, j + 1) <= 0;
      assert Unjittered(p, j + 1) != Schedule(p)[j + 1];
    } else {
      forall k | 0 <= k < p.maxAttempts - 1 ensures Unjittered(p, k) == Schedule(p)[k] {
        if Crossed(p, k) {
          var j :| 1 <= j <= k && OverCeiling(p, Uncapped(p, j));
          assert j == k;
        }
      }
    }
  }

  /** A policy whose loops disagree: ten seconds halved each time under a ceiling of three give 3s, 3s,
      2.5s and 1.25s in the schedule, and 3s for ever when the wait is asked for. */
  lemma LoopsCanDisagree()
    ensures var p := RetryPolicy(5, 10_000_000, Ratio(1, 2), 3_000_000, false, 0, 0);
            FallsBackUnderCeiling(p) && !LoopsAgree(p) && Unjittered(p, 3) == 3_000_000 && Schedule(p)[3] == 1_250_000
  {
    var p := RetryPolicy(5, 10_000_000, Ratio(1, 2), 3_000_000, false, 0, 0);
    assert Uncapped(p, 1) == 5_000_000;
    assert Uncapped(p, 2) == 2_500_000;
    assert Uncapped(p, 3) == 1_250_000;
    LoopsAgreeExactlyWhen(p);
    assert Crossed(p, 3);
  }

  /** Shrinking delays that ever cross the ceiling cross it at once, and stay over it. */
  lemma CrossingLasts(p: RetryPolicy, k: nat)
    requires 0 <= p.multiplier.num < p.multiplier.den
    requires !FallsBackUnderCeiling(p) && k < p.maxAttempts - 1 && Crossed(p, k)
    ensures Uncapped(p, k) >= p.maxDelay > 0
  {
    var j :| 1 <= j <= k && OverCeiling(p, Uncapped(p, j));
    if Uncapped(p, 1) <= 0 {
      StaysNegative(p, 1, j);
      assert false;
    } else {
      Shrinks(p, 1, j);
      Shrinks(p, 1, k);
      Shrinks(p, k, p.maxAttempts - 2);
    }
  }

  // ---------------------------------------------------------------- the wait

  /** A wait on account of this delay: in the broker exactly when the delay is positive and at or over a
      positive threshold, and then never moved by jitter; as long as the delay, or as long as jitter
      makes it, and never negative. */
  predicate WaitsFor(p: RetryPolicy, delay: Micros, moved: Micros, wait: Wait) {
    && (wait.inBroker <==> p.brokerWaitThreshold > 0 && delay > 0 && delay >= p.brokerWaitThreshold)
    && wait.delay >= 0
    && (wait.inBroker || !p.jittered || delay <= 0 ==> wait.delay == Max(delay, 0))
    && (!wait.inBroker && p.jittered && delay > 0 ==> wait.delay == Max(moved, 0))
  }

  /** There is a next attempt exactly when the policy has one left and the message is not too old, and the
      wait for it is on account of the scheduled delay, but after the ceiling was crossed of the ceiling:
      of the scheduled delay at every attempt where the loops agree. */
  lemma NextWaitIs(p: RetryPolicy, attempt: int, age: Micros, moved: Micros)
    requires attempt >= 1
    ensures NextWait(p, attempt, age, moved).None? <==>
              attempt >= p.maxAttempts || (p.maxMessageAge > 0 && age >= p.maxMessageAge)
    ensures NextWait(p, attempt, age, moved).Some? ==>
              var delay := if Crossed(p, attempt - 1) then p.maxDelay else Schedule(p)[attempt - 1];
              && WaitsFor(p, delay, moved, NextWait(p, attempt, age, moved).value)
              && (LoopsAgree(p) ==> delay == Schedule(p)[attempt - 1])
  {
    if attempt < p.maxAttempts {
      UnjitteredIs(p, attempt - 1);
    }
  }

  /** A second, doubled four times under a minute, is one, two, four and eight seconds. */
  lemma DoublingASecond()
    ensures var p := RetryPolicy(5, 1_000_000, Ratio(2, 1), 60_000_000, false, 0, 0);
            && Schedule(p) == [1_000_000, 2_000_000, 4_000_000, 8_000_000]
            && NextWait(p, 4, 0, 0) == Some(Wait(8_000_000, false)) && NextWait(p, 5, 0, 0).None?
  {
    var p := RetryPolicy(5, 1_000_000, Ratio(2, 1), 60_000_000, false, 0, 0);
    assert Uncapped(p, 1) == 2_000_000;
    assert Uncapped(p, 2) == 4_000_000;
    assert Uncapped(p, 3) == 8_000_000;
    EarlyExitIsHarmless(p);
    NextWaitIs(p, 4, 0, 0);
  }

  // ---------------------------------------------------------------- the rungs

  /** Whatever the multiplier, a wait sent to the broker is one of the declared rungs. */
  lemma BrokerWaitsAreRungs(p: RetryPolicy, attempt: int, age: Micros, moved: Micros)
    requires attempt >= 1
    ensures var w := NextWait(p, attempt, age, moved);
            w.Some? && w.value.inBroker ==> w.value.delay in BrokerRungs(p)
  {
    var w := NextWait(p, attempt, age, moved);
    DistinctIs(p, Schedule(p));
    if w.Some? && w.value.inBroker {
      var k := attempt - 1;
      if Crossed(p, k) {
        var j :| 1 <= j <= k && OverCeiling(p, Uncapped(p, j));
        assert Schedule(p)[j] == p.maxDelay;
      } else {
        assert Schedule(p)[k] == w.value.delay;
      }
    }
  }

  /** Whether the wait after some attempt is this rung. */
  ghost predicate Asked(p: RetryPolicy, rung: Micros) {
    exists k :: 0 <= k < p.maxAttempts - 1 && Unjittered(p, k) == rung
  }

  /** Whether a delay is scheduled before the ceiling is crossed. */
  ghost predicate BeforeCrossing(p: RetryPolicy, delay: Micros) {
    exists k :: 0 <= k < p.maxAttempts - 1 && !Crossed(p, k) && Schedule(p)[k] == delay
  }

  lemma UnjitteredIs(p: RetryPolicy, k: nat)
    requires k < p.maxAttempts - 1
    ensures Unjittered(p, k) == if Crossed(p, k) then p.maxDelay else Schedule(p)[k]
    ensures Crossed(p, k) ==> p.maxDelay > 0
  {
  }

  lemma CeilingOrBefore(p: RetryPolicy, delay: Micros)
    requires Asked(p, delay)
    ensures (p.maxDelay > 0 && delay == p.maxDelay) || BeforeCrossing(p, delay)
  {
    var k :| 0 <= k < p.maxAttempts - 1 && Unjittered(p, k) == delay;
    UnjitteredIs(p, k);
  }

  /** A declared rung is one the policy can really ask for exactly when it is the ceiling, or a delay
      scheduled before the ceiling was crossed. */
  lemma RungAskedExactlyWhen(p: RetryPolicy, rung: Micros)
    requires rung in BrokerRungs(p)
    ensures Asked(p, rung) <==> (p.maxDelay > 0 && rung == p.maxDelay) || BeforeCrossing(p, rung)
  {
    if Asked(p, rung) {
      CeilingOrBefore(p, rung);
    } else {
      DistinctIs(p, Schedule(p));
      var k :| 0 <= k < |Schedule(p)| && Schedule(p)[k] == rung;
      UnjitteredIs(p, k);
      NotBeforeCrossing(p, rung);
    }
  }

  lemma NotBeforeCrossing(p: RetryPolicy, delay: Micros)
    requires !Asked(p, delay)
    ensures !BeforeCrossing(p, delay)
  {
    forall k | 0 <= k < p.maxAttempts - 1 && !Crossed(p, k) ensures Schedule(p)[k] != delay {
      UnjitteredIs(p, k);
    }
  }

  /** So a policy whose loops agree declares nothing for nothing. */
  lemma RungsAreAsked(p: RetryPolicy, rung: Micros) returns (attempt: int)
    requires rung in BrokerRungs(p) && (LoopsAgree(p) || Asked(p, rung))
    ensures 1 <= attempt < p.maxAttempts
    ensures forall age, moved :: !(p.maxMessageAge > 0 && age >= p.maxMessageAge) ==>
              NextWait(p, attempt, age, moved) == Some(Wait(rung, true))
  {
    DistinctIs(p, Schedule(p));
    if LoopsAgree(p) {
      var k :| 0 <= k < |Schedule(p)| && Schedule(p)[k] == rung;
      attempt := k + 1;
      assert Unjittered(p, k) == Schedule(p)[k];
    } else {
      var k :| 0 <= k < p.maxAttempts - 1 && Unjittered(p, k) == rung;
      attempt := k + 1;
    }
  }

  lemma CappedNondecreasing(p: RetryPolicy, i: nat, k: nat)
    requires p.multiplier.num >= p.multiplier.den && i <= k
    requires Cap(p, Uncapped(p, k)) > 0
    ensures Cap(p, Uncapped(p, i)) <= Cap(p, Uncapped(p, k))
  {
    if Uncapped(p, i) >= 0 {
      Grows(p, i, k);
    }
  }

  lemma {:induction false} DistinctIncreasing(p: RetryPolicy, delays: seq<Micros>)
    requires forall i, k :: 0 <= i <= k < |delays| && delays[k] > 0 ==> delays[i] <= delays[k]
    ensures forall i, j :: 0 <= i < j < |Distinct(p, delays)| ==>
              Distinct(p, delays)[i] < Distinct(p, delays)[j]
  {
    if delays != [] {
      var front, last := delays[..|delays| - 1], delays[|delays| - 1];
      DistinctIncreasing(p, front);
      DistinctIs(p, front);
      var rungs := Distinct(p, front);
      if WaitsInBroker(p, last) {
        forall i | 0 <= i < |rungs| ensures rungs[i] <= last {
          assert rungs[i] in front;
          var j :| 0 <= j < |front| && front[j] == rungs[i];
          assert delays[j] == front[j];
        }
      }
    }
  }

  /** The rungs come longest last, each strictly longer than the one before. */
  lemma RungsStrictlyIncrease(p: RetryPolicy)
    requires p.multiplier.num >= p.multiplier.den
    ensures forall i, j :: 0 <= i < j < |BrokerRungs(p)| ==> BrokerRungs(p)[i] < BrokerRungs(p)[j]
  {
    forall i, k | 0 <= i <= k < |Schedule(p)| && Schedule(p)[k] > 0
      ensures Schedule(p)[i] <= Schedule(p)[k]
    {
      CappedNondecreasing(p, i, k);
    }
    DistinctIncreasing(p, Schedule(p));
  }
}
