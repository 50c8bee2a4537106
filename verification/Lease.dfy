/** The idempotency lease (src/acemq_amqp/patterns/sql.py, idempotency.py): several nodes guard
    their handlers with rows of one shared table. Every SQL statement is a step of its own, so a
    claim is three of them, and other nodes, crashes and the clock come between any two. */
module Lease {
  import opened Retry
  import S = Settlement

  type Key = string
  type Node = nat
  type Answer = S.Answer

  datatype State = Claimed | Confirmed

  datatype Row = Row(state: State, claimedBy: Option<Node>, expires: int)

  type Table = map<Key, Row>

  /** `claim_timeout` and `retention`, in the milliseconds the rows hold, and how long a message found in
      progress is to wait. */
  datatype Config = Config(claimTimeout: int, retention: int, inProgressDelay: Micros)

  /** Where one guarded call is. A claim and a confirmation each read the clock once, before their
      first statement. */
  datatype Pc =
    | Inserting | Updating | Selecting
    | Running
    | Confirming(at: int) | Recording(at: int) | Forgetting(decision: Answer)
    | Answered(answer: Answer)

  datatype Call = Call(key: Key, node: Node, asked: int, pc: Pc)

  /** What becomes of a statement: its answer arrives, or is lost with the statement applied or not. */
  datatype Fate = Heard | Lost(applied: bool)

  /** The table, the clock and the calls in progress; and, for stating what must hold, the keys some
      handler accepted and until when each key's latest confirmation lasts. */
  datatype World = World(
    table: Table, clock: int, calls: map<nat, Call>,
    handled: set<Key>, confirmedUntil: map<Key, int>)

  datatype Step =
    | Tick(to: int)
    | Ask(call: nat, key: Key, node: Node)
    | Insert(call: nat, fate: Fate)
    | Update(call: nat, fate: Fate)
    | Select(call: nat, fate: Fate)
    | Handle(call: nat, answer: Answer)
    | Confirm(call: nat, fate: Fate)
    | Record(call: nat, fate: Fate)
    | Forget(call: nat, fate: Fate)
    | Purge(now: int)
    | Crash(call: nat)

  predicate AtPc(w: World, call: nat, p: Pc -> bool) { call in w.calls && p(w.calls[call].pc) }

  predicate Enabled(w: World, step: Step) {
    match step
    case Tick(to) => to >= w.clock
    case Ask(call, _, _) => call !in w.calls
    case Insert(call, _) => AtPc(w, call, (pc: Pc) => pc.Inserting?)
    case Update(call, _) => AtPc(w, call, (pc: Pc) => pc.Updating?)
    case Select(call, _) => AtPc(w, call, (pc: Pc) => pc.Selecting?)
    case Handle(call, _) => AtPc(w, call, (pc: Pc) => pc.Running?)
    case Confirm(call, _) => AtPc(w, call, (pc: Pc) => pc.Confirming?)
    case Record(call, _) => AtPc(w, call, (pc: Pc) => pc.Recording?)
    case Forget(call, _) => AtPc(w, call, (pc: Pc) => pc.Forgetting?)
    case Purge(now) => now <= w.clock
    case Crash(call) => call in w.calls
  }

  // ---------------------------------------------------------------- the statements

  function ClaimRow(c: Config, call: Call): Row { Row(Claimed, Some(call.node), call.asked + c.claimTimeout) }

  predicate InsertWins(table: Table, call: Call) { call.key !in table }

  predicate UpdateWins(table: Table, call: Call) { call.key in table && table[call.key].expires <= call.asked }

  predicate SelectFindsDuplicate(table: Table, call: Call) { call.key in table && table[call.key].state.Confirmed? }

  /** DELETE ... WHERE message_id = ? AND state = 'CLAIMED' AND claimed_by = ? */
  predicate ForgetDeletes(table: Table, key: Key, node: Node) {
    key in table && table[key].state.Claimed? && table[key].claimedBy == Some(node)
  }

  function Purged(table: Table, now: int): Table { map key | key in table && table[key].expires > now :: table[key] }

  /** What a store that failed is answered with: the message is retried. */
  const STORE_FAILED := S.Again(S.Plain("the store failed"))

  /** A handler that returns no acknowledgement at all: reading its action raises, before the claim
      is confirmed or forgotten. */
  const NO_ACTION := S.Again(S.Plain("the answer has no action"))

  function Later(c: Config): Answer { S.InProgress(Some(c.inProgressDelay)) }

  const EMPTY_KEY := S.Reject(S.Fatal("an empty idempotency key"))

  function At(w: World, call: nat, pc: Pc): World
    requires call in w.calls
  {
    w.(calls := w.calls[call := w.calls[call].(pc := pc)])
  }

  predicate Applied(fate: Fate) { fate.Heard? || fate.applied }

  function Asked(w: World, call: nat, key: Key, node: Node): World {
    w.(calls := w.calls[call := Call(key, node, w.clock, if key == "" then Answered(EMPTY_KEY) else Inserting)])
  }

  /** One of the two statements a claim can be won by. */
  function Tried(c: Config, w: World, call: nat, wins: bool, next: Pc, fate: Fate): World
    requires call in w.calls
  {
    var row := ClaimRow(c, w.calls[call]);
    var table := if wins && Applied(fate) then w.table[w.calls[call].key := row] else w.table;
    At(w.(table := table), call, if fate.Lost? then Answered(STORE_FAILED) else if wins then Running else next)
  }

  function Selected(c: Config, w: World, call: nat, fate: Fate): World
    requires call in w.calls
  {
    At(w, call,
       if fate.Lost? then Answered(STORE_FAILED)
       else Answered(if SelectFindsDuplicate(w.table, w.calls[call]) then S.Accept else Later(c)))
  }

  function HandledBy(w: World, call: nat, answer: Answer): World
    requires call in w.calls
  {
    var key := w.calls[call].key;
    At(w.(handled := if answer.Accept? then w.handled + {key} else w.handled), call,
       if answer.Accept? then Confirming(w.clock)
       else if answer.NotAnAck? then Answered(NO_ACTION)
       else Forgetting(answer))
  }

  /** The row a confirmation writes, whoever's row was there. */
  function WithConfirmed(c: Config, w: World, key: Key, at: int): World {
    w.(table := w.table[key := Row(Confirmed, None, at + c.retention)],
       confirmedUntil := w.confirmedUntil[key := at + c.retention])
  }

  function ConfirmedBy(c: Config, w: World, call: nat, fate: Fate): World
    requires call in w.calls && w.calls[call].pc.Confirming?
  {
    var key, at := w.calls[call].key, w.calls[call].pc.at;
    At(if key in w.table && Applied(fate) then WithConfirmed(c, w, key, at) else w, call,
       if fate.Heard? && key !in w.table then Recording(at) else Answered(S.Accept))
  }

  function RecordedBy(c: Config, w: World, call: nat, fate: Fate): World
    requires call in w.calls && w.calls[call].pc.Recording?
  {
    var key, at := w.calls[call].key, w.calls[call].pc.at;
    At(if key !in w.table && Applied(fate) then WithConfirmed(c, w, key, at) else w, call, Answered(S.Accept))
  }

  function ForgottenBy(w: World, call: nat, fate: Fate): World
    requires call in w.calls && w.calls[call].pc.Forgetting?
  {
    var key, node := w.calls[call].key, w.calls[call].node;
    At(w.(table := if ForgetDeletes(w.table, key, node) && Applied(fate) then w.table - {key} else w.table), call,
       Answered(w.calls[call].pc.decision))
  }

  function Apply(c: Config, w: World, step: Step): World
    requires Enabled(w, step)
  {
    match step
    case Tick(to) => w.(clock := to)
    case Ask(call, key, node) => Asked(w, call, key, node)
    case Insert(call, fate) => Tried(c, w, call, InsertWins(w.table, w.calls[call]), Updating, fate)
    case Update(call, fate) => Tried(c, w, call, UpdateWins(w.table, w.calls[call]), Selecting, fate)
    case Select(call, fate) => Selected(c, w, call, fate)
    case Handle(call, answer) => HandledBy(w, call, answer)
    case Confirm(call, fate) => ConfirmedBy(c, w, call, fate)
    case Record(call, fate) => RecordedBy(c, w, call, fate)
    case Forget(call, fate) => ForgottenBy(w, call, fate)
    case Purge(now) => w.(table := Purged(w.table, now))
    case Crash(call) => w.(calls := w.calls - {call})
  }

  predicate ValidRun(c: Config, w: World, steps: seq<Step>)
    decreases |steps|
  {
    steps == [] || (Enabled(w, steps[0]) && ValidRun(c, Apply(c, w, steps[0]), steps[1..]))
  }

  function Run(c: Config, w: World, steps: seq<Step>): World
    requires ValidRun(c, w, steps)
    decreases |steps|
  {
    if steps == [] then w else Run(c, Apply(c, w, steps[0]), steps[1..])
  }

  lemma {:induction false} RunFurther(c: Config, w: World, steps: seq<Step>, step: Step)
    requires ValidRun(c, w, steps) && Enabled(Run(c, w, steps), step)
    ensures ValidRun(c, w, steps + [step]) && Run(c, w, steps + [step]) == Apply(c, Run(c, w, steps), step)
    decreases |steps|
  {
    if steps == [] {
      OneStep(c, w, step);
      assert steps + [step] == [step];
    } else {
      RunFurther(c, Apply(c, w, steps[0]), steps[1..], step);
      assert (steps + [step])[1..] == steps[1..] + [step];
    }
  }

  lemma {:induction false} RunSplits(c: Config, w: World, front: seq<Step>, back: seq<Step>)
    requires ValidRun(c, w, front + back)
    ensures ValidRun(c, w, front) && ValidRun(c, Run(c, w, front), back)
    ensures Run(c, w, front + back) == Run(c, Run(c, w, front), back)
    decreases |front|
  {
    if front == [] {
      assert front + back == back;
    } else {
      assert (front + back)[1..] == front[1..] + back;
      RunSplits(c, Apply(c, w, front[0]), front[1..], back);
    }
  }

  predicate Initial(w: World) { w.table == map[] && w.calls == map[] && w.handled == {} && w.confirmedUntil == map[] }

  // ---------------------------------------------------------------- timely runs

  /** Whether a call holds a claim: it was told so, and has not given it up or turned it into a fact. */
  predicate Holding(pc: Pc) { pc.Running? || pc.Confirming? || pc.Recording? || pc.Forgetting? }

  /** Every holder is still inside the claim timeout it asked for. */
  predicate InTime(c: Config, calls: map<nat, Call>, clock: int) {
    forall n :: n in calls && Holding(calls[n].pc) ==> clock < calls[n].asked + c.claimTimeout
  }

  predicate TimelyRun(c: Config, w: World, steps: seq<Step>)
    requires ValidRun(c, w, steps)
    decreases |steps|
  {
    InTime(c, w.calls, w.clock) && (steps == [] || TimelyRun(c, Apply(c, w, steps[0]), steps[1..]))
  }

  /** A holder's row is in the table, and is its own. */
  predicate RowsHeld(c: Config, table: Table, calls: map<nat, Call>) {
    forall n :: n in calls && Holding(calls[n].pc) ==>
      && !calls[n].pc.Recording?
      && calls[n].key in table && table[calls[n].key] == ClaimRow(c, calls[n])
  }

  predicate OneHolder(calls: map<nat, Call>) {
    forall m, n :: m in calls && n in calls && Holding(calls[m].pc) && Holding(calls[n].pc) &&
             calls[m].key == calls[n].key
      ==> m == n
  }

  predicate AskedBefore(calls: map<nat, Call>, clock: int) { forall n :: n in calls ==> calls[n].asked <= clock }

  /** A confirmation stays in the table for as long as it lasts. */
  predicate ConfirmationsStay(table: Table, confirmedUntil: map<Key, int>, clock: int) {
    forall key :: key in confirmedUntil && clock < confirmedUntil[key] ==>
      key in table && table[key] == Row(Confirmed, None, confirmedUntil[key])
  }

  predicate Inv(c: Config, w: World) {
    && RowsHeld(c, w.table, w.calls)
    && OneHolder(w.calls)
    && AskedBefore(w.calls, w.clock)
    && ConfirmationsStay(w.table, w.confirmedUntil, w.clock)
    && InTime(c, w.calls, w.clock)
  }

  /** A claim that is won finds no holder: a holder's row is there, and has not run out. */
  lemma WinnerIsAlone(c: Config, w: World, call: nat)
    requires Inv(c, w) && call in w.calls && !Holding(w.calls[call].pc)
    requires InsertWins(w.table, w.calls[call]) || UpdateWins(w.table, w.calls[call])
    ensures forall n :: n in w.calls && Holding(w.calls[n].pc) ==> w.calls[n].key != w.calls[call].key
    ensures w.calls[call].key in w.confirmedUntil ==> w.clock >= w.confirmedUntil[w.calls[call].key]
  {
  }

  lemma TriedKeeps(c: Config, w: World, call: nat, wins: bool, next: Pc, fate: Fate)
    requires Inv(c, w) && call in w.calls && !Holding(w.calls[call].pc) && !Holding(next)
    requires wins ==> InsertWins(w.table, w.calls[call]) || UpdateWins(w.table, w.calls[call])
    requires InTime(c, Tried(c, w, call, wins, next, fate).calls, w.clock)
    ensures Inv(c, Tried(c, w, call, wins, next, fate))
  {
    if wins {
      WinnerIsAlone(c, w, call);
    }
  }

  lemma ConfirmedKeeps(c: Config, w: World, call: nat, fate: Fate)
    requires Inv(c, w) && call in w.calls && w.calls[call].pc.Confirming?
    ensures Inv(c, ConfirmedBy(c, w, call, fate))
  {
  }

  lemma ForgottenKeeps(c: Config, w: World, call: nat, fate: Fate)
    requires Inv(c, w) && call in w.calls && w.calls[call].pc.Forgetting?
    ensures Inv(c, ForgottenBy(w, call, fate))
  {
  }

  lemma PurgedKeeps(c: Config, w: World, now: int)
    requires Inv(c, w) && now <= w.clock
    ensures Inv(c, w.(table := Purged(w.table, now)))
  {
  }

  lemma StepKeeps(c: Config, w: World, step: Step)
    requires Inv(c, w) && Enabled(w, step)
    requires InTime(c, Apply(c, w, step).calls, Apply(c, w, step).clock)
    ensures Inv(c, Apply(c, w, step))
  {
    match step
    case Tick(_) =>
    case Ask(_, _, _) =>
    case Insert(call, fate) => TriedKeeps(c, w, call, InsertWins(w.table, w.calls[call]), Updating, fate);
    case Update(call, fate) => TriedKeeps(c, w, call, UpdateWins(w.table, w.calls[call]), Selecting, fate);
    case Select(_, _) =>
    case Handle(_, _) =>
    case Confirm(call, fate) => ConfirmedKeeps(c, w, call, fate);
    case Record(_, _) =>
    case Forget(call, fate) => ForgottenKeeps(c, w, call, fate);
    case Purge(now) => PurgedKeeps(c, w, now);
    case Crash(_) =>
  }

  lemma {:induction false} TimelyRunsKeep(c: Config, w: World, steps: seq<Step>)
    requires Inv(c, w) && ValidRun(c, w, steps) && TimelyRun(c, w, steps)
    ensures Inv(c, Run(c, w, steps))
    decreases |steps|
  {
    if steps != [] {
      StepKeeps(c, w, steps[0]);
      TimelyRunsKeep(c, Apply(c, w, steps[0]), steps[1..]);
    }
  }

  // ---------------------------------------------------------------- one handler at a time

  /** While every holder keeps to its claim timeout, no two calls ever run the handler for one key,
      whatever takeovers, releases, purges, lost answers and crashes come between, and none runs it
      while a confirmation of that key lasts. */
  lemma OneHandlerAtATime(c: Config, start: World, steps: seq<Step>, m: nat, n: nat)
    requires Initial(start) && ValidRun(c, start, steps) && TimelyRun(c, start, steps)
    requires var w := Run(c, start, steps);
             m in w.calls && n in w.calls && w.calls[m].pc.Running? && w.calls[n].pc.Running?
    ensures var w := Run(c, start, steps);
            w.calls[m].key == w.calls[n].key ==> m == n
    ensures var w := Run(c, start, steps);
            w.calls[m].key in w.confirmedUntil ==> w.clock >= w.confirmedUntil[w.calls[m].key]
  {
    TimelyRunsKeep(c, start, steps);
  }

  /** What `OneHandlerAtATime` rules out: two handlers on one key, or one beside a lasting confirmation. */
  ghost predicate Broken(w: World) {
    || (exists m, n :: m in w.calls && n in w.calls && m != n && w.calls[m].key == w.calls[n].key
          && w.calls[m].pc.Running? && w.calls[n].pc.Running?)
    || (exists n :: n in w.calls && w.calls[n].pc.Running?
          && w.calls[n].key in w.confirmedUntil && w.clock < w.confirmedUntil[w.calls[n].key])
  }

  /** A holder is past its timeout, its row still there as it wrote it, and nobody else holds the key. */
  predicate Outstaying(c: Config, w: World, late: nat) {
    && late in w.calls && Holding(w.calls[late].pc) && !w.calls[late].pc.Recording? && w.calls[late].key != ""
    && w.calls[late].key in w.table && w.table[w.calls[late].key] == ClaimRow(c, w.calls[late])
    && w.clock >= w.calls[late].asked + c.claimTimeout
  }

  /** A newcomer takes such a row over, and runs. */
  lemma TakesOver(c: Config, w: World, key: Key, call: nat, node: Node) returns (steps: seq<Step>)
    requires key != "" && key in w.table && w.table[key].expires <= w.clock && call !in w.calls
    ensures ValidRun(c, w, steps)
    ensures var claim := Call(key, node, w.clock, Running);
            Run(c, w, steps) == w.(table := w.table[key := ClaimRow(c, claim)], calls := w.calls[call := claim])
  {
    var ask, insert, update := Ask(call, key, node), Insert(call, Heard), Update(call, Heard);
    var w1 := Apply(c, w, ask);
    var w2 := Apply(c, w1, insert);
    var w3 := Apply(c, w2, update);
    assert w2 == w.(calls := w.calls[call := Call(key, node, w.clock, Updating)]);
    assert w3 == w.(table := w.table[key := ClaimRow(c, Call(key, node, w.clock, Running))],
                    calls := w.calls[call := Call(key, node, w.clock, Running)]);
    OneStep(c, w2, update);

    steps := [ask] + ([insert] + [update]);
  }

  /** A newcomer inserts where there is no row, and runs. */
  lemma MovesIn(c: Config, w: World, key: Key, call: nat, node: Node) returns (steps: seq<Step>)
    requires key != "" && key !in w.table && call !in w.calls
    ensures ValidRun(c, w, steps)
    ensures var claim := Call(key, node, w.clock, Running);
            Run(c, w, steps) == w.(table := w.table[key := ClaimRow(c, claim)], calls := w.calls[call := claim])
  {
    var ask, insert := Ask(call, key, node), Insert(call, Heard);
    var w1 := Apply(c, w, ask);
    OneStep(c, w1, insert);
    assert Apply(c, w1, insert).calls == w.calls[call := Call(key, node, w.clock, Running)];
    steps := [ask] + [insert];
  }

  lemma {:induction false} RunJoins(c: Config, w: World, first: seq<Step>, rest: seq<Step>)
    requires ValidRun(c, w, first) && ValidRun(c, Run(c, w, first), rest)
    ensures ValidRun(c, w, first + rest) && Run(c, w, first + rest) == Run(c, Run(c, w, first), rest)
    decreases |first|
  {
    if first == [] {
      assert first + rest == rest;
    } else {
      RunJoins(c, Apply(c, w, first[0]), first[1..], rest);
      assert (first + rest)[1..] == first[1..] + rest;
    }
  }

  /** A late `forget` deletes the row of a newcomer on its own node, and a third is let in beside that. */
  lemma LateForgetBreaks(c: Config, w: World, late: nat, a: nat, b: nat, claim: Call, node: Node)
    returns (steps: seq<Step>)
    requires late in w.calls && w.calls[late].pc.Forgetting? && w.calls[late].key != ""
    requires a in w.calls && a != late && b !in w.calls && w.calls[a] == claim && claim.pc.Running?
    requires claim.key == w.calls[late].key && claim.node == w.calls[late].node
    requires claim.key in w.table && w.table[claim.key] == ClaimRow(c, claim)
    ensures ValidRun(c, w, steps) && Broken(Run(c, w, steps))
  {
    var forget := Forget(late, Heard);
    var v := Apply(c, w, forget);
    assert claim.key !in v.table;
    var rest := MovesIn(c, v, claim.key, b, node);
    steps := [forget] + rest;
    var z := Run(c, w, steps);
    assert z.calls[a].pc.Running? && z.calls[b].pc.Running? && a != b;
  }

  /** A late `confirm` writes over the row of a newcomer that is running: beside a confirmation, if that
      still lasts, and if not beside a third, which takes the confirmed row over. */
  lemma LateConfirmBreaks(c: Config, w: World, late: nat, a: nat, b: nat, claim: Call, node: Node)
    returns (steps: seq<Step>)
    requires late in w.calls && w.calls[late].pc.Confirming? && w.calls[late].key != ""
    requires a in w.calls && a != late && b !in w.calls && w.calls[a] == claim && claim.pc.Running?
    requires claim.key == w.calls[late].key && claim.key in w.table
    ensures ValidRun(c, w, steps) && Broken(Run(c, w, steps))
  {
    var confirm := Confirm(late, Heard);
    var v := Apply(c, w, confirm);
    OneStep(c, w, confirm);
    var until := w.calls[late].pc.at + c.retention;
    assert v.table[claim.key].expires == until && v.confirmedUntil[claim.key] == until && v.calls[a] == claim;
    if w.clock < until {
      steps := [confirm];
      assert a in v.calls && v.calls[a].pc.Running? && v.clock < v.confirmedUntil[v.calls[a].key];
    } else {
      var rest := TakesOver(c, v, claim.key, b, node);
      steps := [confirm] + rest;
      var z := Run(c, w, steps);
      assert z.calls[a].pc.Running? && z.calls[b].pc.Running? && a != b;
    }
  }

  lemma OutstayingBreaks(c: Config, w: World, late: nat, a: nat, b: nat, node: Node) returns (steps: seq<Step>)
    requires Outstaying(c, w, late) && a !in w.calls && b !in w.calls && a != b
    ensures ValidRun(c, w, steps) && Broken(Run(c, w, steps))
  {
    var key := w.calls[late].key;
    var claim := Call(key, w.calls[late].node, w.clock, Running);
    steps := TakesOver(c, w, key, a, w.calls[late].node);
    var v := Run(c, w, steps);
    assert v.calls[late] == w.calls[late] && v.calls[a] == claim && v.table[key] == ClaimRow(c, claim);
    if w.calls[late].pc.Running? {
      assert v.calls[late].pc.Running? && v.calls[a].pc.Running? && late != a;
    } else {
      var rest: seq<Step>;
      if w.calls[late].pc.Forgetting? {
        rest := LateForgetBreaks(c, v, late, a, b, claim, node);
      } else {
        rest := LateConfirmBreaks(c, v, late, a, b, claim, node);
      }
      RunJoins(c, w, steps, rest);
      steps := steps + rest;
    }
  }

  /** A call without a key is refused before it asks for anything. */
  predicate KeysGiven(calls: map<nat, Call>) { forall n :: n in calls && !calls[n].pc.Answered? ==> calls[n].key != "" }

  lemma {:induction false} RunKeysGiven(c: Config, w: World, steps: seq<Step>)
    requires ValidRun(c, w, steps) && KeysGiven(w.calls)
    ensures KeysGiven(Run(c, w, steps).calls)
    decreases |steps|
  {
    if steps != [] {
      RunKeysGiven(c, Apply(c, w, steps[0]), steps[1..]);
    }
  }

  /** Keeping to the timeout is what it takes, for the handler and for the `confirm` or `forget` after
      it: from any state that timely runs reach, the moment any holder has outstayed its timeout, calls
      that ask only then break what `OneHandlerAtATime` promises, whatever else the holder is at. */
  lemma OverstayingBreaks(c: Config, start: World, before: seq<Step>, late: nat, to: int, a: nat, b: nat, node: Node)
    returns (after: seq<Step>)
    requires Initial(start) && ValidRun(c, start, before) && TimelyRun(c, start, before)
    requires var w := Run(c, start, before);
             && late in w.calls && Holding(w.calls[late].pc)
             && a !in w.calls && b !in w.calls && a != b
             && to >= w.clock && to >= w.calls[late].asked + c.claimTimeout
    ensures var w := Run(c, start, before); ValidRun(c, w, after) && Broken(Run(c, w, after))
  {
    TimelyRunsKeep(c, start, before);
    RunKeysGiven(c, start, before);
    var w := Run(c, start, before);
    var v := Apply(c, w, Tick(to));
    var rest := OutstayingBreaks(c, v, late, a, b, node);
    after := [Tick(to)] + rest;
  }

  /** And a timely run breaks nothing. */
  lemma TimelyBreaksNothing(c: Config, start: World, steps: seq<Step>)
    requires Initial(start) && ValidRun(c, start, steps) && TimelyRun(c, start, steps)
    ensures !Broken(Run(c, start, steps))
  {
    TimelyRunsKeep(c, start, steps);
  }

  lemma OneStep(c: Config, w: World, step: Step)
    requires Enabled(w, step)
    ensures ValidRun(c, w, [step]) && Run(c, w, [step]) == Apply(c, w, step)
  {
    assert [step][1..] == [];
  }

  // ---------------------------------------------------------------- accepting means handled

  /** What accepts, and every confirmation, is of a key some handler accepted. */
  predicate Earned(table: Table, calls: map<nat, Call>, handled: set<Key>) {
    && (forall key :: key in table && table[key].state.Confirmed? ==> key in handled)
    && (forall n ::
          n in calls && (calls[n].pc.Confirming? || calls[n].pc.Recording? || calls[n].pc == Answered(S.Accept)) ==>
          calls[n].key in handled)
    && (forall n :: n in calls && calls[n].pc.Forgetting? ==> !calls[n].pc.decision.Accept?)
  }

  lemma StepEarns(c: Config, w: World, step: Step)
    requires Enabled(w, step) && Earned(w.table, w.calls, w.handled)
    ensures var v := Apply(c, w, step); Earned(v.table, v.calls, v.handled) && w.handled <= v.handled
  {
  }

  lemma {:induction false} EveryRunEarns(c: Config, w: World, steps: seq<Step>)
    requires ValidRun(c, w, steps) && Earned(w.table, w.calls, w.handled)
    ensures var v := Run(c, w, steps); Earned(v.table, v.calls, v.handled)
    decreases |steps|
  {
    if steps != [] {
      StepEarns(c, w, steps[0]);
      EveryRunEarns(c, Apply(c, w, steps[0]), steps[1..]);
    }
  }

  /** Whether some step of a run is a handler accepting a message of this key. */
  ghost predicate SomeHandlerAccepted(c: Config, w: World, steps: seq<Step>, key: Key)
    requires ValidRun(c, w, steps)
    decreases |steps|
  {
    steps != [] &&
    (|| (steps[0].Handle? && steps[0].answer.Accept? && w.calls[steps[0].call].key == key)
     || SomeHandlerAccepted(c, Apply(c, w, steps[0]), steps[1..], key))
  }

  /** The keys of the world are the ones a handler accepted during the run. */
  lemma {:induction false} HandledIs(c: Config, w: World, steps: seq<Step>, key: Key)
    requires ValidRun(c, w, steps)
    ensures key in Run(c, w, steps).handled <==> key in w.handled || SomeHandlerAccepted(c, w, steps, key)
    decreases |steps|
  {
    if steps != [] {
      HandledIs(c, Apply(c, w, steps[0]), steps[1..], key);
    }
  }

  /** In every run, timely or not, with stores failing, leases running out and late confirmations by
      earlier holders: a delivery is accepted only if some handler accepted a message of its key. */
  lemma AcceptingMeansHandled(c: Config, start: World, steps: seq<Step>, call: nat)
    requires Initial(start) && ValidRun(c, start, steps)
    requires call in Run(c, start, steps).calls && Run(c, start, steps).calls[call].pc == Answered(S.Accept)
    ensures SomeHandlerAccepted(c, start, steps, Run(c, start, steps).calls[call].key)
  {
    EveryRunEarns(c, start, steps);
    HandledIs(c, start, steps, Run(c, start, steps).calls[call].key);
  }

  /** Another's claim on the key of a call, alive when the call asked and not confirmed. */
  predicate HeldElsewhere(w: World, call: nat) {
    call in w.calls && w.calls[call].key in w.table
    && w.table[w.calls[call].key].state.Claimed? && w.table[w.calls[call].key].expires > w.calls[call].asked
  }

  predicate HeldElsewhereThroughout(c: Config, w: World, steps: seq<Step>, call: nat)
    requires ValidRun(c, w, steps)
    decreases |steps|
  {
    HeldElsewhere(w, call) && (steps == [] || HeldElsewhereThroughout(c, Apply(c, w, steps[0]), steps[1..], call))
  }

  /** The only places a claim can be while somebody else's is alive. */
  predicate TurnedAway(c: Config, pc: Pc) {
    || pc.Inserting? || pc.Updating? || pc.Selecting?
    || pc == Answered(S.InProgress(Some(c.inProgressDelay))) || StoreFailed(pc)
  }

  /** Answered with a plain retry, the store having failed. */
  predicate StoreFailed(pc: Pc) { pc == Answered(STORE_FAILED) && pc.answer.Again? && pc.answer.why.Plain? }

  /** A call that finds a live, unconfirmed claim is put back: it is neither run nor accepted. */
  lemma {:induction false} LiveClaimsTurnAway(c: Config, w: World, steps: seq<Step>, call: nat)
    requires ValidRun(c, w, steps) && HeldElsewhereThroughout(c, w, steps, call) && TurnedAway(c, w.calls[call].pc)
    ensures call in Run(c, w, steps).calls && TurnedAway(c, Run(c, w, steps).calls[call].pc)
    decreases |steps|
  {
    if steps != [] {
      LiveClaimsTurnAway(c, Apply(c, w, steps[0]), steps[1..], call);
    }
  }

  // ---------------------------------------------------------------- a confirmation lasts

  lemma StepConfirmationsStay(c: Config, w: World, step: Step)
    requires Enabled(w, step) && AskedBefore(w.calls, w.clock) && ConfirmationsStay(w.table, w.confirmedUntil, w.clock)
    ensures var v := Apply(c, w, step);
            AskedBefore(v.calls, v.clock) && ConfirmationsStay(v.table, v.confirmedUntil, v.clock)
  {
  }

  /** In every run, timely or not: a confirmation is in the table for as long as it lasts. No takeover,
      release, purge or late call of an earlier holder takes it away. */
  lemma {:induction false} ConfirmationsLast(c: Config, w: World, steps: seq<Step>)
    requires ValidRun(c, w, steps) && AskedBefore(w.calls, w.clock) &&
               ConfirmationsStay(w.table, w.confirmedUntil, w.clock)
    ensures var v := Run(c, w, steps);
            AskedBefore(v.calls, v.clock) && ConfirmationsStay(v.table, v.confirmedUntil, v.clock)
    decreases |steps|
  {
    if steps != [] {
      StepConfirmationsStay(c, w, steps[0]);
      ConfirmationsLast(c, Apply(c, w, steps[0]), steps[1..]);
    }
  }

  predicate Lasting(w: World, key: Key) { key in w.confirmedUntil && w.clock < w.confirmedUntil[key] }

  predicate LastingThroughout(c: Config, w: World, steps: seq<Step>, key: Key)
    requires ValidRun(c, w, steps)
    decreases |steps|
  {
    Lasting(w, key) && (steps == [] || LastingThroughout(c, Apply(c, w, steps[0]), steps[1..], key))
  }

  lemma {:induction false} LastingFirst(c: Config, w: World, front: seq<Step>, back: seq<Step>, key: Key)
    requires ValidRun(c, w, front + back) && LastingThroughout(c, w, front + back, key)
    ensures ValidRun(c, w, front) && LastingThroughout(c, w, front, key)
    decreases |front|
  {
    if front != [] {
      assert (front + back)[1..] == front[1..] + back;
      LastingFirst(c, Apply(c, w, front[0]), front[1..], back, key);
    }
  }

  /** The only places a call can be on a key that is confirmed. */
  predicate FoundDuplicate(pc: Pc) {
    pc.Inserting? || pc.Updating? || pc.Selecting? || pc == Answered(S.Accept) || StoreFailed(pc)
  }

  /** Whether a claim of this call lost the answer to a statement. */
  predicate LosesAnswer(step: Step, call: nat) {
    match step
    case Insert(n, fate) => n == call && fate.Lost?
    case Update(n, fate) => n == call && fate.Lost?
    case Select(n, fate) => n == call && fate.Lost?
    case _ => false
  }

  lemma ConfirmedStepTurnsAway(c: Config, w: World, step: Step, call: nat)
    requires Enabled(w, step) && AskedBefore(w.calls, w.clock) && ConfirmationsStay(w.table, w.confirmedUntil, w.clock)
    requires call in w.calls && Lasting(w, w.calls[call].key) && FoundDuplicate(w.calls[call].pc)
    ensures var v := Apply(c, w, step);
            call in v.calls ==>
              && v.calls[call].key == w.calls[call].key && FoundDuplicate(v.calls[call].pc)
              && (StoreFailed(v.calls[call].pc) ==> StoreFailed(w.calls[call].pc) || LosesAnswer(step, call))
  {
  }

  /** A message that was handled: while its key's confirmation lasts, a call on it is never run. It is
      accepted, or retried if the answer to one of its statements was lost. */
  lemma {:induction false} ConfirmedTurnsAway(c: Config, w: World, steps: seq<Step>, call: nat)
    requires ValidRun(c, w, steps)
    requires AskedBefore(w.calls, w.clock) && ConfirmationsStay(w.table, w.confirmedUntil, w.clock)
    requires call in w.calls && LastingThroughout(c, w, steps, w.calls[call].key) && FoundDuplicate(w.calls[call].pc)
    requires forall i :: 0 <= i < |steps| ==> steps[i] != Crash(call)
    ensures var v := Run(c, w, steps);
            && call in v.calls && FoundDuplicate(v.calls[call].pc)
            && (StoreFailed(v.calls[call].pc) && !StoreFailed(w.calls[call].pc) ==>
                  exists i :: 0 <= i < |steps| && LosesAnswer(steps[i], call))
    decreases |steps|
  {
    if steps != [] {
      var v := Apply(c, w, steps[0]);
      ConfirmedStepTurnsAway(c, w, steps[0], call);
      StepConfirmationsStay(c, w, steps[0]);
      assert steps[0] != Crash(call);
      assert forall i :: 0 <= i < |steps| - 1 ==> steps[1..][i] == steps[i + 1];
      ConfirmedTurnsAway(c, v, steps[1..], call);
    }
  }

  /** What a `confirm` is for: once the handler has accepted, a confirmation that is heard leaves the key
      confirmed from then on for the retention, over the row it finds, or by a row of its own when it finds
      none and nobody makes one meanwhile. */
  lemma ConfirmingRecords(c: Config, w: World, call: nat)
    requires call in w.calls && w.calls[call].pc.Running?
    ensures var key, until := w.calls[call].key, w.clock + c.retention;
            var accepted := Apply(c, w, Handle(call, S.Accept));
            && Enabled(accepted, Confirm(call, Heard))
            && var v := Apply(c, accepted, Confirm(call, Heard));
               if key in w.table then
                 && key in v.table && v.table[key] == Row(Confirmed, None, until)
                 && v.confirmedUntil == w.confirmedUntil[key := until] && v.calls[call].pc == Answered(S.Accept)
               else
                 && Enabled(v, Record(call, Heard))
                 && var u := Apply(c, v, Record(call, Heard));
                    && key in u.table && u.table[key] == Row(Confirmed, None, until)
                    && u.confirmedUntil == w.confirmedUntil[key := until] && u.calls[call].pc == Answered(S.Accept)
  {
  }

  /** What a `forget` is for: in time, one whose answer is heard leaves the key to the next that asks. */
  lemma ForgettingFrees(c: Config, w: World, call: nat, next: nat, node: Node)
    requires Inv(c, w) && call in w.calls && w.calls[call].pc.Forgetting? && next !in w.calls && w.calls[call].key != ""
    ensures var v := Apply(c, Apply(c, w, Forget(call, Heard)), Ask(next, w.calls[call].key, node));
            && w.calls[call].key !in v.table
            && Enabled(v, Insert(next, Heard)) && Apply(c, v, Insert(next, Heard)).calls[next].pc.Running?
  {
  }
}
