/** Runs of the outbox as they really go: the relay's publishes, removals and counted failures one
    step at a time, writers adding records in between, store calls that fail with or without having
    been applied, and a relay that dies at any point (src/acemq_amqp/patterns/outbox.py, sql.py). */
module OutboxRuns {
  import opened Retry
  import opened Outbox
  import S = Settlement

  datatype Config = Config(maxAttempts: int, limit: int)

  /** A message the broker has stored, under the id of its record. */
  datatype Sent = Sent(id: Id, message: Message)

  datatype Phase = Sending | Marking | Counting

  datatype Sweep = Idle | Busy(waiting: seq<Record>, at: nat, phase: Phase)

  /** The table, what the broker stored, the sweep under way; and, for stating what must hold, the
      message each id was last added with, and the records in the order they were removed. */
  datatype World = World(
    records: Records, stored: seq<Sent>, sweep: Sweep,
    added: map<Id, Message>, removed: seq<Record>, newest: int)

  datatype Fate = Heard | Lost(applied: bool)

  predicate Applied(fate: Fate) { fate.Heard? || fate.applied }

  datatype Step =
    | Add(record: Record)
    | Begin(waiting: seq<Record>)
    | Send(reply: S.Reply, kept: bool, queueExists: bool)
    | Mark(fate: Fate)
    | Count(fate: Fate)
    | Crash

  predicate InPhase(w: World, phase: Phase) {
    w.sweep.Busy? && w.sweep.at < |w.sweep.waiting| && w.sweep.phase == phase
  }

  predicate Enabled(c: Config, w: World, step: Step) {
    match step
    case Add(record) => record.id != ""
    case Begin(waiting) => w.sweep.Idle? && waiting != [] && Offers(w.records, c.maxAttempts, c.limit, waiting)
    case Send(reply, kept, queueExists) => InPhase(w, Sending) && S.Possible(reply, kept, queueExists)
    case Mark(_) => InPhase(w, Marking)
    case Count(_) => InPhase(w, Counting)
    case Crash => true
  }

  /** Adding an id that is there already changes nothing. */
  function Added(w: World, record: Record): World {
    if record.id in w.records then w else
    w.(records := w.records[record.id := record], added := w.added[record.id := record.message],
       newest := Max(w.newest, record.createdAt))
  }

  function Current(w: World): Record
    requires w.sweep.Busy? && w.sweep.at < |w.sweep.waiting|
  {
    w.sweep.waiting[w.sweep.at]
  }

  function Published(w: World, reply: S.Reply, kept: bool): World
    requires InPhase(w, Sending)
  {
    w.(stored := if kept then w.stored + [Sent(Current(w).id, Current(w).message)] else w.stored,
       sweep := w.sweep.(phase := if S.EndOf(reply).Routed? then Marking else Counting))
  }

  function Marked(w: World, fate: Fate): World
    requires InPhase(w, Marking)
  {
    var r := Current(w);
    var more := fate.Heard? && w.sweep.at + 1 < |w.sweep.waiting|;
    var next := if more then Busy(w.sweep.waiting, w.sweep.at + 1, Sending) else Idle;
    if Applied(fate) && r.id in w.records
    then w.(records := w.records - {r.id}, removed := w.removed + [w.records[r.id]], sweep := next)
    else w.(sweep := next)
  }

  function Counted(w: World, fate: Fate): World
    requires InPhase(w, Counting)
  {
    w.(records := if Applied(fate) then Failed(w.records, Current(w).id) else w.records, sweep := Idle)
  }

  function Apply(c: Config, w: World, step: Step): World
    requires Enabled(c, w, step)
  {
    match step
    case Add(record) => Added(w, record)
    case Begin(waiting) => w.(sweep := Busy(waiting, 0, Sending))
    case Send(reply, kept, _) => Published(w, reply, kept)
    case Mark(fate) => Marked(w, fate)
    case Count(fate) => Counted(w, fate)
    case Crash => w.(sweep := Idle)
  }

  predicate ValidRun(c: Config, w: World, steps: seq<Step>)
    decreases |steps|
  {
    steps == [] || (Enabled(c, w, steps[0]) && ValidRun(c, Apply(c, w, steps[0]), steps[1..]))
  }

  function Run(c: Config, w: World, steps: seq<Step>): World
    requires ValidRun(c, w, steps)
    decreases |steps|
  {
    if steps == [] then w else Run(c, Apply(c, w, steps[0]), steps[1..])
  }

  predicate Initial(w: World) {
    w.records == map[] && w.stored == [] && w.sweep.Idle? && w.added == map[] && w.removed == []
  }

  // ---------------------------------------------------------------- conservation

  /** An added record is in the table, or its message is at the broker. */
  predicate Kept(w: World) {
    && (forall id :: id in w.records ==>
          id in w.added && w.records[id].id == id && w.records[id].message == w.added[id])
    && (forall id :: id in w.added && id !in w.records ==> Sent(id, w.added[id]) in w.stored)
  }

  /** What is being marked has been stored; what a sweep still has before it is in the table. */
  predicate SweepSound(c: Config, w: World) {
    w.sweep.Busy? ==>
      && w.sweep.at < |w.sweep.waiting|
      && OnceEach(w.sweep.waiting)
      && AllWaiting(w.records, c.maxAttempts, w.sweep.waiting[w.sweep.at..])
      && (w.sweep.phase.Marking? ==> Sent(Current(w).id, Current(w).message) in w.stored)
  }

  predicate Inv(c: Config, w: World) { Kept(w) && SweepSound(c, w) }

  lemma CurrentIsThere(c: Config, w: World)
    requires Inv(c, w) && w.sweep.Busy?
    ensures Current(w).id in w.records && w.records[Current(w).id] == Current(w) && Waits(Current(w), c.maxAttempts)
  {
    assert w.sweep.waiting[w.sweep.at..][0] == Current(w);
  }

  lemma SendKeeps(c: Config, w: World, reply: S.Reply, kept: bool, queueExists: bool)
    requires Inv(c, w) && Enabled(c, w, Send(reply, kept, queueExists))
    ensures Inv(c, Published(w, reply, kept))
  {
    CurrentIsThere(c, w);
    assert S.EndOf(reply).Routed? ==> reply == S.Answered(true, true) && kept;
  }

  lemma MarkKeeps(c: Config, w: World, fate: Fate)
    requires Inv(c, w) && InPhase(w, Marking)
    ensures Inv(c, Marked(w, fate))
  {
    CurrentIsThere(c, w);
    var v, ahead := Marked(w, fate), w.sweep.waiting[w.sweep.at..];
    if v.sweep.Busy? {
      assert forall i, j :: 0 <= i < j < |ahead| ==> ahead[i].id != ahead[j].id;
      RestWaits(w.records, c.maxAttempts, ahead);
      assert ahead[1..] == w.sweep.waiting[w.sweep.at + 1..];
    }
  }

  lemma AddKeeps(c: Config, w: World, record: Record)
    requires Inv(c, w)
    ensures Inv(c, Added(w, record))
  {
    if w.sweep.Busy? {
      assert forall r :: r in w.sweep.waiting[w.sweep.at..] ==> r.id in w.records;
    }
  }

  lemma StepKeeps(c: Config, w: World, step: Step)
    requires Inv(c, w) && Enabled(c, w, step)
    ensures Inv(c, Apply(c, w, step))
  {
    match step
    case Add(record) => AddKeeps(c, w, record);
    case Begin(waiting) => assert waiting[0..] == waiting;
    case Send(reply, kept, queueExists) => SendKeeps(c, w, reply, kept, queueExists);
    case Mark(fate) => MarkKeeps(c, w, fate);
    case Count(_) => CurrentIsThere(c, w);
    case Crash =>
  }

  lemma {:induction false} EveryRunKeeps(c: Config, w: World, steps: seq<Step>)
    requires Inv(c, w) && ValidRun(c, w, steps)
    ensures Inv(c, Run(c, w, steps))
    decreases |steps|
  {
    if steps != [] {
      StepKeeps(c, w, steps[0]);
      EveryRunKeeps(c, Apply(c, w, steps[0]), steps[1..]);
    }
  }

  /** In every reachable state each id ever added is exactly one of: gone, with its message stored by
      the broker; still waiting; or retired, with its message as it was added. */
  lemma EveryRecordIsSomewhere(c: Config, start: World, steps: seq<Step>, id: Id)
    requires Initial(start) && ValidRun(c, start, steps)
    requires id in Run(c, start, steps).added
    ensures var w := Run(c, start, steps);
            if id !in w.records then Sent(id, w.added[id]) in w.stored
            else w.records[id].message == w.added[id]
  {
    EveryRunKeeps(c, start, steps);
  }

  /** A crash between the publish and the removal leaves the record where it was, so that the next
      sweep stores its message a second time: duplicated, and not lost. */
  lemma CrashDuplicates(c: Config, w: World, waiting: seq<Record>) returns (steps: seq<Step>)
    requires w.sweep.Idle? && waiting != [] && Offers(w.records, c.maxAttempts, c.limit, waiting)
    ensures ValidRun(c, w, steps)
    ensures var r, v := waiting[0], Run(c, w, steps);
            && v.records == w.records
            && v.stored == w.stored + [Sent(r.id, r.message), Sent(r.id, r.message)]
  {
    var send := Send(S.Answered(true, true), true, true);
    var once := [Begin(waiting), send, Crash];
    CrashAfterSend(c, w, waiting);
    var v := Run(c, w, once);
    CrashAfterSend(c, v, waiting);
    RunThen(c, w, once, once);
    steps := once + once;
  }

  lemma CrashAfterSend(c: Config, w: World, waiting: seq<Record>)
    requires w.sweep.Idle? && waiting != [] && Offers(w.records, c.maxAttempts, c.limit, waiting)
    ensures var steps := [Begin(waiting), Send(S.Answered(true, true), true, true), Crash];
            && ValidRun(c, w, steps)
            && Run(c, w, steps) == w.(stored := w.stored + [Sent(waiting[0].id, waiting[0].message)])
  {
    var steps := [Begin(waiting), Send(S.Answered(true, true), true, true), Crash];
    var w1 := Apply(c, w, steps[0]);
    var w2 := Apply(c, w1, steps[1]);
    assert steps[1..][1..][1..] == [];
    assert ValidRun(c, w2, steps[1..][1..]);
    assert ValidRun(c, w1, steps[1..]);
    assert Run(c, w1, steps[1..]) == Run(c, w2, steps[1..][1..]);
  }

  lemma {:induction false} RunThen(c: Config, w: World, first: seq<Step>, rest: seq<Step>)
    requires ValidRun(c, w, first) && ValidRun(c, Run(c, w, first), rest)
    ensures ValidRun(c, w, first + rest) && Run(c, w, first + rest) == Run(c, Run(c, w, first), rest)
    decreases |first|
  {
    if first == [] {
      assert first + rest == rest;
    } else {
      RunThen(c, Apply(c, w, first[0]), first[1..], rest);
      assert (first + rest)[1..] == first[1..] + rest;
    }
  }

  // ---------------------------------------------------------------- the machine and the sweep

  const TAKEN := Send(S.Answered(true, true), true, true)

  /** The steps of a sweep nobody disturbs, from where it is about to publish: so many records go well, and
      the next, if there is one, is refused in this way. */
  function Undisturbed(left: nat, good: nat, refusal: Step): seq<Step> {
    if left == 0 then []
    else if good == 0 then [refusal, Count(Heard)]
    else [TAKEN, Mark(Heard)] + Undisturbed(left - 1, good - 1, refusal)
  }

  /** What the broker has after it: the messages that went well, in order, under their own ids. */
  function Stored(records: seq<Record>): seq<Sent> {
    seq(|records|, i requires 0 <= i < |records| => Sent(records[i].id, records[i].message))
  }

  /** Where a sweep that has got to `at` leaves the world. */
  predicate SweptFrom(w: World, at: nat, good: nat, v: World)
    requires w.sweep.Busy? && at <= |w.sweep.waiting|
  {
    var ahead := w.sweep.waiting[at..];
    && v == w.(records := Swept(w.records, ahead, good), stored := w.stored + Stored(PublishedBy(ahead, good)),
               sweep := Idle, removed := v.removed)
    && v.removed == w.removed + PublishedBy(ahead, good)
  }

  lemma RefusalCounts(c: Config, w: World, reply: S.Reply)
    requires Inv(c, w) && InPhase(w, Sending) && !S.EndOf(reply).Routed? && S.Possible(reply, false, true)
    ensures ValidRun(c, w, [Send(reply, false, true), Count(Heard)])
    ensures SweptFrom(w, w.sweep.at, 0, Run(c, w, [Send(reply, false, true), Count(Heard)]))
  {
    var steps := [Send(reply, false, true), Count(Heard)];
    var v := Apply(c, w, steps[0]);
    CurrentIsThere(c, w);
    assert steps[1..] == [Count(Heard)] && steps[1..][1..] == [];
    assert Run(c, v, steps[1..]) == Apply(c, v, Count(Heard));
  }

  /** The world with the record a sweep has got to published and removed. */
  function OneGone(w: World): World
    requires w.sweep.Busy? && w.sweep.at < |w.sweep.waiting|
  {
    var r, next := Current(w), w.sweep.at + 1;
    w.(records := w.records - {r.id}, stored := w.stored + [Sent(r.id, r.message)], removed := w.removed + [r],
       sweep := if next < |w.sweep.waiting| then Busy(w.sweep.waiting, next, Sending) else Idle)
  }

  lemma OneGoneSweeps(w: World, good: nat, v: World)
    requires w.sweep.Busy? && w.sweep.at < |w.sweep.waiting| && good > 0
    requires if OneGone(w).sweep.Busy? then SweptFrom(OneGone(w), w.sweep.at + 1, good - 1, v) else v == OneGone(w)
    ensures SweptFrom(w, w.sweep.at, good, v)
  {
    var ahead := w.sweep.waiting[w.sweep.at..];
    assert ahead[1..] == w.sweep.waiting[w.sweep.at + 1..];
    if !OneGone(w).sweep.Busy? {
      assert ahead[1..] == [];
    }
  }

  lemma TakenGoesOn(c: Config, w: World)
    requires Inv(c, w) && InPhase(w, Sending)
    ensures ValidRun(c, w, [TAKEN, Mark(Heard)])
    ensures Run(c, w, [TAKEN, Mark(Heard)]) == OneGone(w) && Inv(c, OneGone(w))
  {
    var steps := [TAKEN, Mark(Heard)];
    var v := Apply(c, w, steps[0]);
    CurrentIsThere(c, w);
    StepKeeps(c, w, TAKEN);
    StepKeeps(c, v, Mark(Heard));
    assert steps[1..] == [Mark(Heard)] && steps[1..][1..] == [];
    assert Run(c, v, steps[1..]) == Apply(c, v, Mark(Heard));
  }

  lemma {:induction false} UndisturbedSweeps(c: Config, w: World, good: nat, reply: S.Reply)
    requires Inv(c, w) && InPhase(w, Sending) && !S.EndOf(reply).Routed? && S.Possible(reply, false, true)
    ensures var steps := Undisturbed(|w.sweep.waiting| - w.sweep.at, good, Send(reply, false, true));
            ValidRun(c, w, steps) && SweptFrom(w, w.sweep.at, good, Run(c, w, steps))
    decreases |w.sweep.waiting| - w.sweep.at
  {
    if good == 0 {
      RefusalCounts(c, w, reply);
    } else {
      var rest := Undisturbed(|w.sweep.waiting| - w.sweep.at - 1, good - 1, Send(reply, false, true));
      TakenGoesOn(c, w);
      if OneGone(w).sweep.Busy? {
        UndisturbedSweeps(c, OneGone(w), good - 1, reply);
      } else {
        assert rest == [];
      }
      var v := Run(c, OneGone(w), rest);
      OneGoneSweeps(w, good, v);
      RunThen(c, w, [TAKEN, Mark(Heard)], rest);
    }
  }

  /** A sweep that nothing comes between leaves what `Swept` says: it goes through its batch in order, stores
      and removes every record the broker takes, counts the failure of the first that it does not, and stops
      there. */
  lemma UndisturbedIsSwept(c: Config, w: World, waiting: seq<Record>, good: nat, reply: S.Reply)
    requires Inv(c, w) && w.sweep.Idle? && waiting != [] && Offers(w.records, c.maxAttempts, c.limit, waiting)
    requires !S.EndOf(reply).Routed? && S.Possible(reply, false, true)
    ensures var steps := [Begin(waiting)] + Undisturbed(|waiting|, good, Send(reply, false, true));
            && ValidRun(c, w, steps)
            && var v := Run(c, w, steps);
               && v.sweep.Idle? && v.records == Swept(w.records, waiting, good)
               && v.stored == w.stored + Stored(PublishedBy(waiting, good))
               && v.removed == w.removed + PublishedBy(waiting, good)
  {
    var begun := Apply(c, w, Begin(waiting));
    StepKeeps(c, w, Begin(waiting));
    UndisturbedSweeps(c, begun, good, reply);
    assert waiting[0..] == waiting;
    assert ([Begin(waiting)] + Undisturbed(|waiting|, good, Send(reply, false, true)))[1..]
           == Undisturbed(|waiting|, good, Send(reply, false, true));
  }

  // ---------------------------------------------------------------- order

  /** Whether every record added in a run is no older than those added before it. */
  predicate NewerAdds(c: Config, w: World, steps: seq<Step>)
    requires ValidRun(c, w, steps)
    decreases |steps|
  {
    steps == [] ||
    (&& (steps[0].Add? ==> steps[0].record.createdAt >= w.newest)
     && NewerAdds(c, Apply(c, w, steps[0]), steps[1..]))
  }

  /** No younger than anything that may still be published. */
  predicate Precedes(c: Config, records: Records, created: int) {
    forall id :: id in records && Waits(records[id], c.maxAttempts) ==> created <= records[id].createdAt
  }

  predicate OrderInv(c: Config, w: World) {
    && OldestFirst(w.removed)
    && (forall r :: r in w.removed ==> r.createdAt <= w.newest && Precedes(c, w.records, r.createdAt))
    && (forall id :: id in w.records ==> w.records[id].createdAt <= w.newest)
    && (w.sweep.Busy? ==> w.sweep.at < |w.sweep.waiting| && NextInOrder(c, w.records, w.sweep.waiting[w.sweep.at..]))
  }

  /** What a sweep has before it is the oldest of what waits, oldest first. */
  predicate NextInOrder(c: Config, records: Records, ahead: seq<Record>) {
    && OldestFirst(ahead)
    && forall id :: id in records && Waits(records[id], c.maxAttempts) && records[id] !in ahead ==>
         forall r :: r in ahead ==> r.createdAt <= records[id].createdAt
  }

  lemma RestInOrder(c: Config, records: Records, ahead: seq<Record>)
    requires NextInOrder(c, records, ahead) && ahead != [] && Keyed(records)
    ensures NextInOrder(c, records - {ahead[0].id}, ahead[1..])
  {
    assert ahead == [ahead[0]] + ahead[1..] && ahead[0] in ahead;
    assert forall r :: r in ahead[1..] ==> r in ahead;
  }

  lemma MarkInOrder(c: Config, w: World, fate: Fate)
    requires Inv(c, w) && OrderInv(c, w) && InPhase(w, Marking)
    ensures OrderInv(c, Marked(w, fate))
  {
    CurrentIsThere(c, w);
    var v, r, ahead := Marked(w, fate), Current(w), w.sweep.waiting[w.sweep.at..];
    assert ahead[0] == r && ahead[1..] == w.sweep.waiting[w.sweep.at + 1..];
    RestInOrder(c, w.records, ahead);
    RemovedInOrder(w.removed, r);
    forall q | q in v.removed ensures q.createdAt <= w.newest && Precedes(c, v.records, q.createdAt) {
      assert q == r || q in w.removed;
    }
  }

  lemma RemovedInOrder(removed: seq<Record>, r: Record)
    requires OldestFirst(removed) && forall q :: q in removed ==> q.createdAt <= r.createdAt
    ensures OldestFirst(removed + [r])
  {
    assert forall i :: 0 <= i < |removed| ==> removed[i] in removed;
  }

  lemma AddInOrder(c: Config, w: World, record: Record)
    requires Inv(c, w) && OrderInv(c, w) && record.createdAt >= w.newest
    ensures OrderInv(c, Added(w, record))
  {
    var v := Added(w, record);
    forall r | r in v.removed ensures Precedes(c, v.records, r.createdAt) {
      assert Precedes(c, w.records, r.createdAt);
    }
    if w.sweep.Busy? {
      var ahead := w.sweep.waiting[w.sweep.at..];
      assert forall r :: r in ahead ==> r.id in w.records && w.records[r.id] == r;
    }
  }

  lemma StepInOrder(c: Config, w: World, step: Step)
    requires Inv(c, w) && OrderInv(c, w) && Enabled(c, w, step)
    requires step.Add? ==> step.record.createdAt >= w.newest
    ensures OrderInv(c, Apply(c, w, step))
  {
    match step
    case Add(record) => AddInOrder(c, w, record);
    case Begin(waiting) => assert waiting[0..] == waiting;
    case Send(_, _, _) =>
    case Mark(fate) => MarkInOrder(c, w, fate);
    case Count(fate) =>
    case Crash =>
  }

  lemma {:induction false} RunsInOrder(c: Config, w: World, steps: seq<Step>)
    requires Inv(c, w) && OrderInv(c, w) && ValidRun(c, w, steps) && NewerAdds(c, w, steps)
    ensures OrderInv(c, Run(c, w, steps))
    decreases |steps|
  {
    if steps != [] {
      StepKeeps(c, w, steps[0]);
      StepInOrder(c, w, steps[0]);
      RunsInOrder(c, Apply(c, w, steps[0]), steps[1..]);
    }
  }

  /** With records added in the order they were created, the relay removes them in that order over
      the whole run, whatever fails and however often it is restarted, and never one before an older
      one that still waits: only the retired are passed over. */
  lemma RemovalsFollowTheOrder(c: Config, start: World, steps: seq<Step>)
    requires Initial(start) && ValidRun(c, start, steps) && NewerAdds(c, start, steps)
    ensures var w := Run(c, start, steps);
            && OldestFirst(w.removed)
            && forall r :: r in w.removed ==> Precedes(c, w.records, r.createdAt)
  {
    RunsInOrder(c, start, steps);
  }
}
