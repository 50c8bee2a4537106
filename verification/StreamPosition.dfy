/** How far a stream subscription has got (src/acemq_amqp/rabbitmq.py): the offset it resumes from,
    kept so that a reconnection at any moment skips nothing. */
module StreamPosition {
  import opened Retry

  type Offset = nat

  lemma {:induction false} FindLeast(m: multiset<Offset>) returns (least: Offset)
    requires m != multiset{}
    ensures least in m && forall y :: y in m ==> least <= y
    decreases |m|
  {
    least :| least in m;
    var x, rest := least, m - multiset{least};
    forall y | y in m && y != x ensures y in rest {
      assert rest[y] == m[y];
    }
    if rest != multiset{} {
      var other := FindLeast(rest);
      least := if x <= other then x else other;
    }
  }

  lemma HasLeast(m: multiset<Offset>)
    requires m != multiset{}
    ensures exists x :: x in m && forall y :: y in m ==> x <= y
  {
    var least := FindLeast(m);
  }

  /** `min` of what is held. */
  function Least(m: multiset<Offset>): (x: Offset)
    requires m != multiset{}
    ensures x in m && forall y :: y in m ==> x <= y
  {
    HasLeast(m);
    var x :| x in m && forall y :: y in m ==> x <= y; x
  }

  lemma LeastWith(m: multiset<Offset>, x: Offset)
    ensures Least(m + multiset{x}) == if m == multiset{} || x < Least(m) then x else Least(m)
  {
    var more := m + multiset{x};
    assert x in more && forall y :: y in more ==> y == x || y in m;
    if m != multiset{} {
      assert Least(m) in more;
    }
  }

  /** What the tracker counts: deliveries not yet settled, by offset, and the newest settled. */
  datatype Position = Position(pending: multiset<Offset>, settled: int)

  const FRESH := Position(multiset{}, -1)

  function OnDelivered(p: Position, offset: Offset): Position { p.(pending := p.pending + multiset{offset}) }

  /** One fewer, down to none: settling what is not counted takes nothing away. */
  function OnSettled(p: Position, offset: Offset): Position {
    Position(p.pending - multiset{offset}, Max(p.settled, offset))
  }

  /** `_move`: the oldest entry delivered and not settled, or just after the newest settled. */
  function Recorded(p: Position): int {
    if p.pending != multiset{} then Least(p.pending) else p.settled + 1
  }

  /** Where a consume argument says to start: the log's beginning, its end, or an offset, which the
      broker brings back to the end of the log when it lies beyond. */
  datatype Spec = First | Next | From(offset: Offset)

  function StartOf(spec: Spec, tail: nat): nat {
    match spec
    case First => 0
    case Next => tail
    case From(offset) => if offset <= tail then offset else tail
  }

  class Tracker {
    var position: Position
    /** The shared arguments' `x-stream-offset`: `None` until the first delivery overwrites it. */
    var argument: Option<Offset>

    constructor ()
      ensures Valid() && position == FRESH && argument == None
    {
      position := FRESH;
      argument := None;
    }

    predicate Valid()
      reads this
    {
      position.settled >= -1 &&
      (argument.Some? ==> argument.value == Recorded(position)) && (argument.None? ==> position == FRESH)
    }

    method Move()
      requires position.settled >= -1
      modifies `argument
      ensures Valid() && argument == Some(Recorded(position))
    {
      if position.pending != multiset{} {
        argument := Some(Least(position.pending));
      } else {
        argument := Some(position.settled + 1);
      }
    }

    method RecordDelivered(offset: Offset)
      requires Valid()
      modifies this
      ensures Valid() && position == OnDelivered(old(position), offset) && argument == Some(Recorded(position))
    {
      position := position.(pending := position.pending[offset := position.pending[offset] + 1]);
      assert position.pending == old(position.pending) + multiset{offset};
      Move();
    }

    method RecordSettled(offset: Offset)
      requires Valid()
      modifies this
      ensures Valid() && position == OnSettled(old(position), offset) && argument == Some(Recorded(position))
    {
      var count: int := position.pending[offset] as int - 1;
      position := position.(pending := position.pending[offset := if count <= 0 then 0 else count],
                            settled := Max(position.settled, offset));
      assert position.pending == old(position.pending) - multiset{offset};
      Move();
    }
  }

  // ---------------------------------------------------------------- a reader and its stream

  /** The log so far is the offsets below `tail`. The broker delivers from `cursor`; `open` are the
      deliveries not settled yet, of this connection or an earlier one. What was delivered and what
      was settled, over the whole run, are kept for stating what must hold. */
  datatype World = World(
    spec: Spec, tail: nat, cursor: nat,
    position: Position, open: multiset<Offset>,
    delivered: set<Offset>, settled: set<Offset>,
    first: Offset, end: Offset)

  datatype Step = Append | Deliver | Settle(offset: Offset) | Reconnect

  predicate Enabled(w: World, step: Step) {
    match step
    case Append => true
    case Deliver => w.cursor < w.tail
    case Settle(offset) => offset in w.open
    case Reconnect => true
  }

  predicate Received(w: World) { w.delivered != {} }

  /** Where a reconnected reader starts: at the recorded offset, or as first asked if there is none. */
  function Resumed(w: World): nat {
    if Received(w) then Max(Recorded(w.position), 0) else StartOf(w.spec, w.tail)
  }

  function Apply(w: World, step: Step): World
    requires Enabled(w, step)
  {
    match step
    case Append => w.(tail := w.tail + 1)
    case Deliver =>
      w.(cursor := w.cursor + 1,
         position := OnDelivered(w.position, w.cursor),
         open := w.open + multiset{w.cursor},
         delivered := w.delivered + {w.cursor},
         first := if Received(w) then w.first else w.cursor,
         end := if Received(w) && w.cursor < w.end then w.end else w.cursor + 1)
    case Settle(offset) =>
      w.(position := OnSettled(w.position, offset),
         open := w.open - multiset{offset},
         settled := w.settled + {offset})
    case Reconnect => w.(cursor := Resumed(w))
  }

  predicate ValidRun(w: World, steps: seq<Step>)
    decreases |steps|
  {
    steps == [] || (Enabled(w, steps[0]) && ValidRun(Apply(w, steps[0]), steps[1..]))
  }

  function Run(w: World, steps: seq<Step>): World
    requires ValidRun(w, steps)
    decreases |steps|
  {
    if steps == [] then w else Run(Apply(w, steps[0]), steps[1..])
  }

  predicate Initial(w: World) {
    w.position == FRESH && w.open == multiset{} && w.delivered == {} && w.settled == {}
    && w.cursor == StartOf(w.spec, w.tail)
  }

  /** What was delivered is everything from the first entry up to `end`, of which what is not settled
      is still open, and the tracker counts the open. */
  ghost predicate Inv(w: World) {
    && w.position.pending == w.open
    && w.cursor <= w.tail
    && (!Received(w) ==> w.position == FRESH && w.settled == {})
    && (forall o :: o in w.delivered ==> o in w.settled || o in w.open)
    && (forall o :: o in w.open || o in w.settled ==> o in w.delivered)
    && (Received(w) ==>
          && w.first < w.end <= w.tail && w.first <= w.cursor <= w.end
          && (forall o :: o in w.delivered <==> w.first <= o < w.end)
          && (w.position.settled == -1 <==> w.settled == {})
          && (w.settled != {} ==> w.position.settled in w.settled)
          && (forall o :: o in w.settled ==> o <= w.position.settled))
  }

  lemma SettleKeeps(w: World, offset: Offset)
    requires Inv(w) && offset in w.open
    ensures Inv(Apply(w, Settle(offset)))
  {
    var v := Apply(w, Settle(offset));
    assert offset in w.delivered && offset in v.settled;
    assert forall o :: o in v.open ==> o in w.open;
    assert forall o :: o in w.open ==> o in v.open || o == offset;
  }

  lemma StepKeeps(w: World, step: Step)
    requires Inv(w) && Enabled(w, step)
    ensures Inv(Apply(w, step))
  {
    match step
    case Append =>
    case Deliver =>
    case Settle(offset) => SettleKeeps(w, offset);
    case Reconnect =>
  }

  lemma {:induction false} EveryRunKeeps(w: World, steps: seq<Step>)
    requires Inv(w) && ValidRun(w, steps)
    ensures Inv(Run(w, steps))
    decreases |steps|
  {
    if steps != [] {
      StepKeeps(w, steps[0]);
      EveryRunKeeps(Apply(w, steps[0]), steps[1..]);
    }
  }

  // ---------------------------------------------------------------- resuming skips nothing

  /** Over any run of deliveries, settlements in any order and reconnections with old deliveries still
      settling: every entry from the first one received to the recorded offset was delivered and has
      been settled, and nothing pending lies below it. */
  lemma ResumingSkipsNothing(start: World, steps: seq<Step>, offset: Offset)
    requires Initial(start) && ValidRun(start, steps) && Received(Run(start, steps))
    ensures var w := Run(start, steps);
            && w.first <= Recorded(w.position) <= w.tail
            && (w.first <= offset < Recorded(w.position) ==> offset in w.delivered && offset in w.settled)
            && (offset in w.open ==> Recorded(w.position) <= offset)
  {
    EveryRunKeeps(start, steps);
  }

  /** A reconnection passes over entries exactly when nothing was received yet and the broker, asked
      again what it was asked first, starts further on than it did. */
  lemma ReconnectSkipsExactlyWhen(w: World, offset: Offset)
    requires Inv(w)
    ensures (exists o: Offset :: w.cursor <= o < Apply(w, Reconnect).cursor && o !in w.delivered)
            <==> !Received(w) && w.cursor < StartOf(w.spec, w.tail)
  {
    if Received(w) {
    } else if w.cursor < StartOf(w.spec, w.tail) {
      assert w.cursor !in w.delivered;
    }
  }

  // ---------------------------------------------------------------- when the offset can go back

  /** The one step that takes the recorded offset back: a redelivery from below it. */
  lemma GoesBackExactlyWhen(w: World, step: Step)
    requires Inv(w) && Received(w) && Enabled(w, step)
    ensures Recorded(Apply(w, step).position) < Recorded(w.position) <==>
              step.Deliver? && w.cursor < Recorded(w.position)
  {
    if step.Settle? {
    } else if step.Deliver? {
      LeastWith(w.position.pending, w.cursor);
      if w.position.pending == multiset{} {
        assert w.first in w.delivered;
      }
    }
  }

  predicate StaysConnected(steps: seq<Step>) { forall i :: 0 <= i < |steps| ==> !steps[i].Reconnect? }

  /** Until the next reconnection the recorded offset never goes back. */
  ghost predicate NeverGoesBack(w: World) {
    forall steps :: ValidRun(w, steps) && StaysConnected(steps) ==>
             Recorded(Run(w, steps).position) >= Recorded(w.position)
  }

  lemma {:induction false} CaughtUpNeverGoesBack(w: World, steps: seq<Step>)
    requires Inv(w) && Received(w) && w.cursor == w.end && ValidRun(w, steps) && StaysConnected(steps)
    ensures Recorded(Run(w, steps).position) >= Recorded(w.position)
    decreases |steps|
  {
    if steps != [] {
      assert !steps[0].Reconnect?;
      GoesBackExactlyWhen(w, steps[0]);
      StepKeeps(w, steps[0]);
      CaughtUpNeverGoesBack(Apply(w, steps[0]), steps[1..]);
    }
  }

  lemma StepFirst(w: World, step: Step, rest: seq<Step>)
    requires Enabled(w, step) && !step.Reconnect? && ValidRun(Apply(w, step), rest) && StaysConnected(rest)
    ensures ValidRun(w, [step] + rest) && StaysConnected([step] + rest)
    ensures Run(w, [step] + rest) == Run(Apply(w, step), rest)
  {
    assert ([step] + rest)[1..] == rest;
  }

  /** Settles everything that is open. */
  lemma {:induction false} SettleAll(w: World) returns (steps: seq<Step>)
    requires Inv(w) && Received(w)
    ensures ValidRun(w, steps) && StaysConnected(steps)
    ensures var v := Run(w, steps);
            Inv(v) && Received(v) && v.open == multiset{} && v.cursor == w.cursor && v.tail == w.tail && v.end == w.end
    decreases |w.open|
  {
    if w.open == multiset{} {
      steps := [];
    } else {
      var offset :| offset in w.open;
      SettleKeeps(w, offset);
      var v := Apply(w, Settle(offset));
      var rest := SettleAll(v);
      StepFirst(w, Settle(offset), rest);
      steps := [Settle(offset)] + rest;
    }
  }

  /** Between reconnections the recorded offset is safe from going back, whatever settles in whatever
      order, exactly when the broker has no redelivery before it: with one to come, late settlements
      can carry the offset past it first. */
  lemma NeverGoesBackExactlyWhen(w: World)
    requires Inv(w) && Received(w)
    ensures (forall steps :: ValidRun(w, steps) && StaysConnected(steps) ==> NeverGoesBack(Run(w, steps)))
            <==> w.cursor == w.end
  {
    if w.cursor == w.end {
      forall steps, more | ValidRun(w, steps) && StaysConnected(steps)
                           && ValidRun(Run(w, steps), more) && StaysConnected(more)
        ensures Recorded(Run(Run(w, steps), more).position) >= Recorded(Run(w, steps).position)
      {
        StaysCaughtUp(w, steps);
        CaughtUpNeverGoesBack(Run(w, steps), more);
      }
    } else {
      var steps := SettleAll(w);
      SettledGoesBack(Run(w, steps));
    }
  }

  /** With everything settled and a redelivery to come, that redelivery takes the offset back. */
  lemma SettledGoesBack(w: World)
    requires Inv(w) && Received(w) && w.open == multiset{} && w.cursor < w.end
    ensures !NeverGoesBack(w)
  {
    assert w.end - 1 in w.delivered;
    assert w.position.settled == w.end - 1;
    StepFirst(w, Deliver, []);
    assert [Deliver] + [] == [Deliver];
    GoesBackExactlyWhen(w, Deliver);
    assert Recorded(Run(w, [Deliver]).position) < Recorded(w.position);
  }

  lemma {:induction false} StaysCaughtUp(w: World, steps: seq<Step>)
    requires Inv(w) && Received(w) && w.cursor == w.end && ValidRun(w, steps) && StaysConnected(steps)
    ensures var v := Run(w, steps); Inv(v) && Received(v) && v.cursor == v.end
    decreases |steps|
  {
    if steps != [] {
      assert !steps[0].Reconnect?;
      StepKeeps(w, steps[0]);
      StaysCaughtUp(Apply(w, steps[0]), steps[1..]);
    }
  }

  // ---------------------------------------------------------------- runs in which it fails

  /** A reader of what comes next that loses its connection before anything came passes over what was
      appended meanwhile. */
  lemma NextCanSkip(start: World)
    requires Initial(start) && start.spec == Next
    ensures ValidRun(start, [Append]) && start.cursor == start.tail
    ensures var w := Run(start, [Append]);
            w.cursor == start.tail && Apply(w, Reconnect).cursor == start.tail + 1 && start.tail !in w.delivered
  {
    assert [Append][1..] == [];
  }

  /** An entry delivered, a connection lost, the entry settled late: the offset has passed it, and its
      redelivery takes the offset back. */
  lemma LateSettlementGoesBack(start: World)
    requires Initial(start) && start.spec == First && start.tail == 0
    ensures var steps := [Append, Deliver, Reconnect, Settle(0)];
            && ValidRun(start, steps)
            && var w := Run(start, steps);
               w.cursor != w.end && Recorded(w.position) == 1 && Enabled(w, Deliver) &&
                   Recorded(Apply(w, Deliver).position) == 0
  {
    var steps := [Append, Deliver, Reconnect, Settle(0)];
    var w1 := Apply(start, Append);
    var w2 := Apply(w1, Deliver);
    assert w2.position.pending == multiset{0} && w2.open == multiset{0} && w2.end == 1;
    var w3 := Apply(w2, Reconnect);
    assert w3.cursor == 0;
    var w4 := Apply(w3, Settle(0));
    assert w4.position == Position(multiset{}, 0);
    assert Apply(w4, Deliver).position.pending == multiset{0};
    assert steps[1..] == [Deliver, Reconnect, Settle(0)] && steps[1..][1..] == [Reconnect, Settle(0)];
    assert steps[1..][1..][1..] == [Settle(0)] && steps[1..][1..][1..][1..] == [];
    assert ValidRun(w3, [Settle(0)]) && Run(w3, [Settle(0)]) == w4;
    assert ValidRun(w2, [Reconnect, Settle(0)]) && Run(w2, [Reconnect, Settle(0)]) == w4;
    assert ValidRun(w1, [Deliver, Reconnect, Settle(0)]) && Run(w1, [Deliver, Reconnect, Settle(0)]) == w4;
  }
}
