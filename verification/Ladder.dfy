/** The scheduler's ladder (src/acemq_amqp/patterns/scheduler.py): which rung a message that is not
    due yet waits on, and so when it is delivered and after how many hops. Times are milliseconds. */
module Ladder {

  type Millis = int

  const SECOND: Millis := 1000

  /** `SCHEDULE_RUNGS`, longest first. */
  const RUNGS: seq<Millis> := [3600 * SECOND, 600 * SECOND, 60 * SECOND, 10 * SECOND, SECOND]

  const RETRY_RUNG: Millis := 10 * SECOND

  /** The rung a message with this long to go is put in. */
  function Rung(remaining: Millis): Millis {
    if remaining >= 3_600_000 then 3_600_000
    else if remaining >= 600_000 then 600_000
    else if remaining >= 60_000 then 60_000
    else if remaining >= 10_000 then 10_000
    else SECOND
  }

  /** The first of the rungs, longest first, that does not overshoot. */
  method ChooseRung(remaining: Millis) returns (rung: Millis)
    ensures rung == Rung(remaining)
  {
    for i := 0 to |RUNGS|
      invariant i > 0 ==> RUNGS[i - 1] > remaining
    {
      if RUNGS[i] <= remaining {
        return RUNGS[i];
      }
    }
    rung := RUNGS[|RUNGS| - 1];
  }

  predicate IsRung(r: Millis) { r == 3_600_000 || r == 600_000 || r == 60_000 || r == 10_000 || r == 1000 }

  /** The rung chosen is the longest of those that do not overshoot. */
  lemma RungFits(remaining: Millis)
    requires remaining >= SECOND
    ensures var rung := Rung(remaining);
            rung in RUNGS && IsRung(rung) && rung <= remaining && forall r :: r in RUNGS && r <= remaining ==> r <= rung
  {
    assert forall i :: 0 <= i < |RUNGS| ==> IsRung(RUNGS[i]);
    assert RUNGS[0] in RUNGS && RUNGS[1] in RUNGS && RUNGS[2] in RUNGS && RUNGS[3] in RUNGS && RUNGS[4] in RUNGS;
  }

  // ---------------------------------------------------------------- the journey of one message

  datatype Journey = Journey(hops: nat, deliveredAt: Millis)

  /** What becomes of a message routed at `now` and due at `due` when its deliveries succeed; `late(n)`
      is how much longer than its rung the n-th hop takes. */
  function Travel(now: Millis, due: Millis, late: nat -> nat, n: nat): Journey
    decreases if due > now then due - now else 0
  {
    if due - now < SECOND then Journey(n, now)
    else
      Travel(now + Rung(due - now) + late(n), due, late, n + 1)
  }

  /** Never a second early, never later than one hop's delay, and at once if it is already due. */
  lemma {:induction false} DeliveredInTime(now: Millis, due: Millis, late: nat -> nat, n: nat, most: nat)
    requires forall i :: late(i) <= most
    ensures var at := Travel(now, due, late, n).deliveredAt;
            && due - SECOND < at
            && (if due - now < SECOND then at == now else at <= due + most)
    decreases if due > now then due - now else 0
  {
    if due - now >= SECOND {
      DeliveredInTime(now + Rung(due - now) + late(n), due, late, n + 1, most);
    }
  }

  /** The most hops a message with this long to go can take: whole hours and 28 more. */
  function MostHops(remaining: Millis): nat {
    var s := remaining / SECOND;
    if s >= 3600 then s / 3600 + 28
    else if s >= 600 then s / 600 + 23
    else if s >= 60 then s / 60 + 14
    else if s >= 10 then s / 10 + 9
    else if s >= 1 then s
    else 0
  }

  /** However late its hops are, a message takes no more of them than its time to go allows. */
  lemma {:induction false} HopsAreFew(now: Millis, due: Millis, late: nat -> nat, n: nat)
    ensures Travel(now, due, late, n).hops <= n + MostHops(due - now)
    ensures MostHops(due - now) <= (if due > now then (due - now) / (3600 * SECOND) else 0) + 28
    decreases if due > now then due - now else 0
  {
    if due - now >= SECOND {
      var remaining := due - now;
      var later := now + Rung(remaining) + late(n);
      assert due - later == remaining - Rung(remaining) - late(n);
      HopsAreFew(later, due, late, n + 1);
    }
  }

  // ---------------------------------------------------------------- the fewest hops there can be

  /** A time to go in seconds, tens of seconds, minutes, tens of minutes and hours: each rung divides
      the next, so these are digits, and no digit below the hours can make up a larger rung. */
  datatype Digits = Digits(seconds: nat, tens: nat, minutes: nat, tenMinutes: nat, hours: nat) {
    predicate Valid() { seconds < 10 && tens < 6 && minutes < 10 && tenMinutes < 6 }

    function Value(): nat { seconds + 10 * tens + 60 * minutes + 600 * tenMinutes + 3600 * hours }

    function Count(): nat { seconds + tens + minutes + tenMinutes + hours }
  }

  predicate Makes(x: Digits, total: nat, count: nat) { x.Valid() && x.Value() == total && x.Count() <= count }

  predicate IsRungOf(seconds: nat) {
    seconds == 3600 || seconds == 600 || seconds == 60 || seconds == 10 || seconds == 1
  }

  lemma AddHour(x: Digits, total: nat, count: nat) returns (y: Digits)
    requires Makes(x, total, count)
    ensures Makes(y, total + 3600, count + 1)
  {
    y := x.(hours := x.hours + 1);
  }

  lemma AddTenMinutes(x: Digits, total: nat, count: nat) returns (y: Digits)
    requires Makes(x, total, count)
    ensures Makes(y, total + 600, count + 1)
  {
    if x.tenMinutes < 5 {
      y := x.(tenMinutes := x.tenMinutes + 1);
    } else {
      y := AddHour(x.(tenMinutes := 0), total - 3000, count - 5);
    }
  }

  lemma AddMinute(x: Digits, total: nat, count: nat) returns (y: Digits)
    requires Makes(x, total, count)
    ensures Makes(y, total + 60, count + 1)
  {
    if x.minutes < 9 {
      y := x.(minutes := x.minutes + 1);
    } else {
      y := AddTenMinutes(x.(minutes := 0), total - 540, count - 9);
    }
  }

  lemma AddTen(x: Digits, total: nat, count: nat) returns (y: Digits)
    requires Makes(x, total, count)
    ensures Makes(y, total + 10, count + 1)
  {
    if x.tens < 5 {
      y := x.(tens := x.tens + 1);
    } else {
      y := AddMinute(x.(tens := 0), total - 50, count - 5);
    }
  }

  lemma AddSecond(x: Digits, total: nat, count: nat) returns (y: Digits)
    requires Makes(x, total, count)
    ensures Makes(y, total + 1, count + 1)
  {
    if x.seconds < 9 {
      y := x.(seconds := x.seconds + 1);
    } else {
      y := AddTen(x.(seconds := 0), total - 9, count - 9);
    }
  }

  /** One more rung, whichever it is, is at most one more digit: a carry only ever takes some away. */
  lemma OneRungOneMore(x: Digits, total: nat, count: nat, seconds: nat) returns (y: Digits)
    requires Makes(x, total, count) && IsRungOf(seconds)
    ensures Makes(y, total + seconds, count + 1)
  {
    if seconds == 3600 { y := AddHour(x, total, count); }
    else if seconds == 600 { y := AddTenMinutes(x, total, count); }
    else if seconds == 60 { y := AddMinute(x, total, count); }
    else if seconds == 10 { y := AddTen(x, total, count); }
    else { y := AddSecond(x, total, count); }
  }

  function Sum(rungs: seq<Millis>): Millis { if rungs == [] then 0 else rungs[0] + Sum(rungs[1..]) }

  predicate AllRungs(rungs: seq<Millis>) { forall i :: 0 <= i < |rungs| ==> IsRung(rungs[i]) }

  lemma RungSeconds(rung: Millis) returns (seconds: nat)
    requires IsRung(rung)
    ensures IsRungOf(seconds) && rung == SECOND * seconds
  {
    seconds := rung / SECOND;
  }

  /** However a time is made up of rungs, its digits are no more than they are. */
  lemma {:induction false} DigitsAreFewest(rungs: seq<Millis>) returns (x: Digits, total: nat)
    requires AllRungs(rungs)
    ensures Makes(x, total, |rungs|) && Sum(rungs) == SECOND * total
  {
    if rungs == [] {
      x, total := Digits(0, 0, 0, 0, 0), 0;
    } else {
      var rest, before := DigitsAreFewest(rungs[1..]);
      var seconds := RungSeconds(rungs[0]);
      total := before + seconds;
      x := OneRungOneMore(rest, before, |rungs| - 1, seconds);
      assert Sum(rungs) == SECOND * seconds + SECOND * before;
    }
  }

  /** The digits once the largest rung that fits has been taken off. */
  function Taken(x: Digits): Digits
    requires x.Count() > 0
  {
    if x.hours > 0 then x.(hours := x.hours - 1)
    else if x.tenMinutes > 0 then x.(tenMinutes := x.tenMinutes - 1)
    else if x.minutes > 0 then x.(minutes := x.minutes - 1)
    else if x.tens > 0 then x.(tens := x.tens - 1)
    else x.(seconds := x.seconds - 1)
  }

  lemma RungTakesADigit(remaining: Millis, x: Digits)
    requires remaining >= SECOND && x.Valid() && SECOND * x.Value() <= remaining < SECOND * x.Value() + SECOND
    ensures x.Count() > 0
    ensures var rung, y := Rung(remaining), Taken(x);
            && IsRung(rung) && rung <= remaining
            && y.Valid() && y.Count() == x.Count() - 1 && SECOND * y.Value() == SECOND * x.Value() - rung
  {
  }

  /** Without latency a message takes as many hops as its time to go has digits. */
  lemma {:induction false} HopsAreDigits(now: Millis, due: Millis, late: nat -> nat, n: nat, x: Digits)
    requires due >= now && forall i :: late(i) == 0
    requires x.Valid() && SECOND * x.Value() <= due - now < SECOND * x.Value() + SECOND
    ensures Travel(now, due, late, n).hops == n + x.Count()
    decreases due - now
  {
    if due - now >= SECOND {
      RungTakesADigit(due - now, x);
      HopsAreDigits(now + Rung(due - now), due, late, n + 1, Taken(x));
    }
  }

  /** Without latency the ladder takes the fewest hops of any sequence of its rungs that comes within
      a second of the due time and does not overshoot it. */
  lemma NoLadderIsShorter(now: Millis, due: Millis, late: nat -> nat, rungs: seq<Millis>)
    requires due >= now && forall i :: late(i) == 0
    requires AllRungs(rungs) && due - now - SECOND < Sum(rungs) <= due - now
    ensures Travel(now, due, late, 0).hops <= |rungs|
  {
    var x, total := DigitsAreFewest(rungs);
    HopsAreDigits(now, due, late, 0, x);
  }
}
