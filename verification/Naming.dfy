/** Where a message goes when it cannot be handled (src/acemq_amqp/naming.py). */
module Naming {
  import opened Retry

  const SECOND: Micros := 1_000_000

  function DeadLetterQueue(queue: string): string { queue + ".dlq" }

  function ParkedQueue(queue: string): string { queue + ".parked" }

  function RetryQueue(queue: string, delay: Micros): string { queue + ".retry." + Short(delay) }

  /** `int(delay.total_seconds())`, which truncates toward zero. */
  function Seconds(delay: Micros): int { if delay >= 0 then delay / SECOND else -(-delay / SECOND) }

  /** A duration as the shortest thing that reads as one: 30s, 5m, 2h. */
  function Short(delay: Micros): string {
    var seconds := Seconds(delay);
    if seconds <= 0 then "0s"
    else if seconds % 3600 == 0 then Decimal(seconds / 3600) + "h"
    else if seconds % 60 == 0 then Decimal(seconds / 60) + "m"
    else Decimal(seconds) + "s"
  }

  /** The names every library of the family uses for what goes with `orders.new`. */
  lemma NamesOfOrders()
    ensures DeadLetterQueue("orders.new") == "orders.new.dlq" && ParkedQueue("orders.new") == "orders.new.parked"
    ensures RetryQueue("orders.new", 30 * SECOND) == "orders.new.retry.30s"
    ensures RetryQueue("orders.new", 300 * SECOND) == "orders.new.retry.5m"
    ensures RetryQueue("orders.new", 7200 * SECOND) == "orders.new.retry.2h"
    ensures RetryQueue("orders.new", 999_999) == "orders.new.retry.0s"
  {
    assert Decimal(30) == "30" && Decimal(5) == "5" && Decimal(2) == "2";
  }

  function Decimal(n: nat): (digits: string)
    ensures digits != "" && forall c :: c in digits ==> '0' <= c <= '9'
  {
    if n < 10 then [Digit(n)] else Decimal(n / 10) + [Digit(n % 10)]
  }

  function Digit(n: nat): (c: char)
    requires n < 10
    ensures '0' <= c <= '9'
  {
    '0' + n as char
  }

  function Read(digits: string): int {
    if digits == "" then 0
    else 10 * Read(digits[..|digits| - 1]) + (digits[|digits| - 1] as int - '0' as int)
  }

  lemma {:induction false} DecimalReadsBack(n: nat)
    ensures Read(Decimal(n)) == n
  {
    if n >= 10 {
      DecimalReadsBack(n / 10);
      assert Decimal(n)[..|Decimal(n)| - 1] == Decimal(n / 10);
    } else {
      assert Decimal(n)[..0] == "";
    }
  }

  /** The number of seconds a rung name stands for, read back from the name. */
  function Meaning(short: string): int
    requires short != ""
  {
    var amount, unit := Read(short[..|short| - 1]), short[|short| - 1];
    if unit == 'h' then 3600 * amount else if unit == 'm' then 60 * amount else amount
  }

  lemma ShortReadsBack(delay: Micros)
    ensures Short(delay) != "" && Meaning(Short(delay)) == Max(Seconds(delay), 0)
  {
    var seconds := Seconds(delay);
    if seconds <= 0 {
      assert "0s"[..1] == "0";
      assert "0"[..0] == "";
    } else {
      var amount := if seconds % 3600 == 0 then seconds / 3600 else if seconds % 60 == 0 then seconds / 60 else seconds;
      assert Short(delay)[..|Short(delay)| - 1] == Decimal(amount);
      DecimalReadsBack(amount);
    }
  }

  /** Two delays name the same rung exactly when they are the same number of whole seconds. */
  lemma SameNameExactlyWhen(queue: string, a: Micros, b: Micros)
    ensures RetryQueue(queue, a) == RetryQueue(queue, b) <==> Max(Seconds(a), 0) == Max(Seconds(b), 0)
  {
    ShortReadsBack(a);
    ShortReadsBack(b);
    var prefix := queue + ".retry.";
    assert RetryQueue(queue, a)[|prefix|..] == Short(a);
    assert RetryQueue(queue, b)[|prefix|..] == Short(b);
  }

  /** The queues of one source never share a name, whatever the delay. */
  lemma NamesApart(queue: string, delay: Micros)
    ensures DeadLetterQueue(queue) != queue && ParkedQueue(queue) != queue && RetryQueue(queue, delay) != queue
    ensures DeadLetterQueue(queue) != ParkedQueue(queue)
    ensures RetryQueue(queue, delay) != DeadLetterQueue(queue) && RetryQueue(queue, delay) != ParkedQueue(queue)
  {
    assert DeadLetterQueue(queue)[|queue| + 1] == 'd';
    assert ParkedQueue(queue)[|queue| + 1] == 'p';
    assert RetryQueue(queue, delay)[|queue| + 1] == 'r';
  }
}
