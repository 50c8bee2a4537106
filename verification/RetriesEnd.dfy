/** Retries end: with a broker that takes every republish and a handler that always asks to try
    again, a message is run a number of times its policy and its attempt decide, and then rests in
    the dead letters (src/acemq_amqp/connection.py, src/acemq_amqp/retry.py). */
module RetriesEnd {
  import opened Retry
  import opened Envelopes
  import opened Settlement

  type Copies = map<nat, Copy>
  type Tasks = map<nat, Task>

  /** The steps of such a run: nothing is lost, refused or missing, and no handler is content. */
  predicate Calm(step: Step) {
    match step
    case Arrive(_, _) => true
    case Deliver(_, _) => true
    case Start(_, unreadable) => unreadable.None?
    case Finish(_, answer, _, _) => answer.Again? && answer.why.Plain?
    case Wake(_) => true
    case Publish(_, reply, stored) => reply == Answered(true, true) && stored
    case Ack(_) => true
    case Expire(_) => true
    case _ => false
  }

  /** A calm run in which no message is published twice. */
  predicate CalmRun(p: RetryPolicy, w: World, steps: seq<Step>)
    requires ValidRun(p, w, steps)
    decreases |steps|
  {
    steps == [] ||
    (&& Calm(steps[0]) && (steps[0].Arrive? ==> steps[0].envelope.id !in w.originals)
     && CalmRun(p, Apply(p, w, steps[0]), steps[1..]))
  }

  /** The last attempt a message can be on, and how often it is run in all. */
  function LastAttempt(t: Limits, first: int): int { Max(t.maxAttempts, first) }

  function RunsInAll(t: Limits, first: int): int { Max(1, t.maxAttempts - first + 1) }

  /** Whether the handler has already run on this copy. */
  predicate Handled(copies: Copies, tasks: Tasks, c: nat)
    requires c in copies
  {
    || copies[c].place == Ready(DeadLetters)
    || (copies[c].place.Held? && copies[c].place.tag in tasks
        && (tasks[copies[c].place.tag].pc.Sleeping? || tasks[copies[c].place.tag].pc.Publishing?))
  }

  predicate Standing(copies: Copies, tasks: Tasks, c: nat) {
    c in copies && !(copies[c].place.Held? && copies[c].place.tag in tasks && tasks[copies[c].place.tag].pc.Acking?)
  }

  /** A message gives up only on its last attempt, or when the policy has an age limit. */
  predicate MayGiveUp(p: RetryPolicy, e: Envelope) { e.attempt >= p.maxAttempts || p.maxMessageAge > 0 }

  predicate CalmPc(p: RetryPolicy, e: Envelope, pc: Pc) {
    match pc
    case Queued => true
    case Running => true
    case Acking => true
    case Sleeping(hop, _) => hop.OntoSource? && e.attempt < p.maxAttempts
    case Publishing(hop) =>
      || ((hop.OntoSource? || hop.ToRung?) && e.attempt < p.maxAttempts)
      || (hop.Aside? && hop.target == DeadLetters && MayGiveUp(p, e))
    case _ => false
  }

  predicate TasksCalm(p: RetryPolicy, tasks: Tasks) {
    forall tag :: tag in tasks ==> CalmPc(p, tasks[tag].envelope, tasks[tag].pc)
  }

  /** No delivery has gone stale: every worker's copy is still held under its tag. */
  predicate Fresh(copies: Copies, tasks: Tasks) {
    forall tag :: tag in tasks ==>
      tasks[tag].copy in copies && copies[tasks[tag].copy].place == Held(tag, tasks[tag].channel)
  }

  ghost predicate OneStanding(copies: Copies, tasks: Tasks) {
    forall c, d :: Standing(copies, tasks, c) && Standing(copies, tasks, d) && c != d ==>
      copies[c].envelope.id != copies[d].envelope.id
  }

  /** The runs of a copy's message are the attempts it has advanced, and one more once it has been
      handled on this attempt. */
  predicate Counted(originals: Originals, runs: map<string, nat>, copies: Copies, tasks: Tasks, c: nat)
    requires c in copies
  {
    var e := copies[c].envelope;
    e.id in originals ==>
      Count(runs, e.id) == e.attempt - originals[e.id].envelope.attempt + if Handled(copies, tasks, c) then 1 else 0
  }

  ghost predicate AllCounted(originals: Originals, runs: map<string, nat>, copies: Copies, tasks: Tasks) {
    forall c :: Standing(copies, tasks, c) ==> Counted(originals, runs, copies, tasks, c)
  }

  predicate PlacesCalm(p: RetryPolicy, copies: Copies) {
    forall c :: c in copies && copies[c].place.Ready? ==>
      && !copies[c].place.queue.ParkingLot?
      && (copies[c].place.queue.DeadLetters? ==> MayGiveUp(p, copies[c].envelope))
  }

  predicate Untroubled(w: World) {
    w.halted == {} && forall id :: id in w.runs ==> id in w.originals
  }

  ghost predicate CalmRest(p: RetryPolicy, w: World) {
    && Untroubled(w)
    && TasksCalm(p, w.tasks) && Fresh(w.copies, w.tasks) && PlacesCalm(p, w.copies)
    && OneStanding(w.copies, w.tasks)
    && AllCounted(w.originals, w.runs, w.copies, w.tasks)
  }

  ghost predicate CalmInv(p: RetryPolicy, w: World) { Inv(LimitsOf(p), w) && CalmRest(p, w) }

  lemma CalmDecision(p: RetryPolicy, e: Envelope, why: Failure, age: Micros, moved: Micros)
    requires e.attempt >= 1 && why.Plain?
    ensures var pc := CarryOut(Decide(p, e, Again(why), age, moved));
            (pc.Sleeping? || pc.Publishing?) && CalmPc(p, e, pc)
  {
  }

  // ---------------------------------------------------------------- one change at a time

  /** Fewer standing copies, unchanged ones, are still one a message. */
  lemma StillOne(copies: Copies, tasks: Tasks, copies': Copies, tasks': Tasks)
    requires OneStanding(copies, tasks)
    requires forall c :: Standing(copies', tasks', c) ==>
               Standing(copies, tasks, c) && copies'[c].envelope == copies[c].envelope
    ensures OneStanding(copies', tasks')
  {
  }

  lemma PcStanding(copies: Copies, tasks: Tasks, tag: nat, pc: Pc)
    requires tag in tasks && !pc.Acking? && !tasks[tag].pc.Acking?
    ensures forall c :: Standing(copies, tasks[tag := tasks[tag].(pc := pc)], c) <==> Standing(copies, tasks, c)
  {
  }

  lemma PcCounted(originals: Originals, runs: map<string, nat>, copies: Copies, tasks: Tasks, tag: nat, pc: Pc)
    requires HoldsSound(copies, tasks) && Fresh(copies, tasks) && AllCounted(originals, runs, copies, tasks)
    requires tag in tasks && !pc.Acking? && !tasks[tag].pc.Acking?
    requires (pc.Sleeping? || pc.Publishing?) <==> (tasks[tag].pc.Sleeping? || tasks[tag].pc.Publishing?)
    ensures AllCounted(originals, runs, copies, tasks[tag := tasks[tag].(pc := pc)])
  {
    var tasks' := tasks[tag := tasks[tag].(pc := pc)];
    PcStanding(copies, tasks, tag, pc);
    forall c | Standing(copies, tasks', c) ensures Counted(originals, runs, copies, tasks', c) {
      assert Counted(originals, runs, copies, tasks, c);
    }
  }

  /** The handler having run: its copy becomes handled, and its message has one more run. */
  lemma RunCounted(originals: Originals, runs: map<string, nat>, copies: Copies, tasks: Tasks, tag: nat, pc: Pc)
    requires HoldsSound(copies, tasks) && Fresh(copies, tasks) && OneStanding(copies, tasks)
    requires AllCounted(originals, runs, copies, tasks)
    requires tag in tasks && tasks[tag].pc.Running? && (pc.Sleeping? || pc.Publishing?)
    ensures var id := tasks[tag].envelope.id;
            AllCounted(originals, runs[id := Count(runs, id) + 1], copies, tasks[tag := tasks[tag].(pc := pc)])
  {
    var id, mine := tasks[tag].envelope.id, tasks[tag].copy;
    var runs', tasks' := runs[id := Count(runs, id) + 1], tasks[tag := tasks[tag].(pc := pc)];
    PcStanding(copies, tasks, tag, pc);
    assert Standing(copies, tasks, mine) && Counted(originals, runs, copies, tasks, mine);
    assert copies[mine].place == Held(tag, tasks[tag].channel) && HeldIn(mine, copies[mine], tasks[tag]);
    forall c | Standing(copies, tasks', c) ensures Counted(originals, runs', copies, tasks', c) {
      if c != mine {
        assert Counted(originals, runs, copies, tasks, c) && copies[c].envelope.id != id;
      }
    }
  }

  lemma PcFresh(p: RetryPolicy, copies: Copies, tasks: Tasks, tag: nat, pc: Pc)
    requires Fresh(copies, tasks) && TasksCalm(p, tasks) && tag in tasks && CalmPc(p, tasks[tag].envelope, pc)
    ensures Fresh(copies, tasks[tag := tasks[tag].(pc := pc)])
    ensures TasksCalm(p, tasks[tag := tasks[tag].(pc := pc)])
  {
  }

  /** A copy put in a place where it still stands, handled or not as before. */
  lemma PlacePut(copies: Copies, tasks: Tasks, c: nat, copy: Copy, tasks': Tasks)
    requires Standing(copies, tasks, c) && copy.envelope == copies[c].envelope
    requires forall d :: d in copies && copies[d].place.Held? && copies[d].place.tag in tasks' ==>
               copies[d].place.tag in tasks && tasks[copies[d].place.tag] == tasks'[copies[d].place.tag]
    requires forall tag :: tag in tasks ==> tag in tasks'
    ensures forall d :: Standing(copies[c := copy], tasks', d) ==> Standing(copies, tasks, d)
    ensures forall d :: d in copies && d != c ==> (Handled(copies[c := copy], tasks', d) <==> Handled(copies, tasks, d))
  {
  }

  lemma PlaceCounted(originals: Originals, runs: map<string, nat>, copies: Copies, tasks: Tasks, c: nat, copy: Copy,
                     tasks': Tasks)
    requires OneStanding(copies, tasks) && AllCounted(originals, runs, copies, tasks)
    requires Standing(copies, tasks, c) && copy.envelope == copies[c].envelope
    requires forall d :: Standing(copies[c := copy], tasks', d) ==> Standing(copies, tasks, d)
    requires forall d :: d in copies && d != c ==>
               (Handled(copies[c := copy], tasks', d) <==> Handled(copies, tasks, d))
    requires Handled(copies[c := copy], tasks', c) <==> Handled(copies, tasks, c)
    ensures OneStanding(copies[c := copy], tasks') && AllCounted(originals, runs, copies[c := copy], tasks')
  {
    var copies' := copies[c := copy];
    StillOne(copies, tasks, copies', tasks');
    forall d | Standing(copies', tasks', d) ensures Counted(originals, runs, copies', tasks', d) {
      assert Counted(originals, runs, copies, tasks, d);
    }
  }

  /** The copy a handled delivery leaves behind stands in for the one about to be acknowledged. */
  lemma StandIn(copies: Copies, tasks: Tasks, nextCopy: nat, tag: nat, copy: Copy)
    requires OneStanding(copies, tasks) && Fresh(copies, tasks) && nextCopy !in copies && tag in tasks
    requires HoldsSound(copies, tasks) && !tasks[tag].pc.Acking? && copy.place.Ready? &&
               copy.envelope.id == tasks[tag].envelope.id
    ensures var tasks' := tasks[tag := tasks[tag].(pc := Acking)];
            && OneStanding(copies[nextCopy := copy], tasks')
            && forall c :: Standing(copies[nextCopy := copy], tasks', c) && c != nextCopy ==>
                 Standing(copies, tasks, c) && c != tasks[tag].copy && copies[c].envelope.id != copy.envelope.id
  {
    var mine := tasks[tag].copy;
    var tasks' := tasks[tag := tasks[tag].(pc := Acking)];
    assert copies[mine].place == Held(tag, tasks[tag].channel) && HeldIn(mine, copies[mine], tasks[tag]);
    assert Standing(copies, tasks, mine);
    forall c | Standing(copies[nextCopy := copy], tasks', c) && c != nextCopy
      ensures Standing(copies, tasks, c) && c != mine && copies[c].envelope.id != copy.envelope.id
    {
      assert c in copies && copies[nextCopy := copy][c] == copies[c];
    }
  }

  lemma StandInCounted(originals: Originals, runs: map<string, nat>, copies: Copies, tasks: Tasks, nextCopy: nat,
                       tag: nat, copy: Copy)
    requires OneStanding(copies, tasks) && Fresh(copies, tasks) && HoldsSound(copies, tasks)
    requires AllCounted(originals, runs, copies, tasks) && nextCopy !in copies && tag in tasks &&
               tasks[tag].pc.Publishing?
    requires copy.place.Ready? && copy.envelope.id == tasks[tag].envelope.id
    requires copy.envelope.attempt == tasks[tag].envelope.attempt + if copy.place == Ready(DeadLetters) then 0 else 1
    ensures AllCounted(originals, runs, copies[nextCopy := copy], tasks[tag := tasks[tag].(pc := Acking)])
  {
    var mine := tasks[tag].copy;
    var copies', tasks' := copies[nextCopy := copy], tasks[tag := tasks[tag].(pc := Acking)];
    StandIn(copies, tasks, nextCopy, tag, copy);
    assert copies[mine].place == Held(tag, tasks[tag].channel) && HeldIn(mine, copies[mine], tasks[tag]);
    assert Standing(copies, tasks, mine) && Counted(originals, runs, copies, tasks, mine) &&
             Handled(copies, tasks, mine);
    forall c | Standing(copies', tasks', c) ensures Counted(originals, runs, copies', tasks', c) {
      if c != nextCopy {
        assert Counted(originals, runs, copies, tasks, c);
      }
    }
  }

  // ---------------------------------------------------------------- every calm step

  lemma NewMessageCounted(originals: Originals, runs: map<string, nat>, copies: Copies, tasks: Tasks, nextCopy: nat,
                          t: Limits, e: Envelope, body: Body)
    requires CopiesSound(t, originals, copies, nextCopy) && e.id !in originals && e.id !in runs
    requires OneStanding(copies, tasks) && AllCounted(originals, runs, copies, tasks)
    ensures var copies' := copies[nextCopy := Copy(e, body, Ready(Source))];
            OneStanding(copies', tasks) && AllCounted(originals[e.id := Original(e, body)], runs, copies', tasks)
  {
    var copies' := copies[nextCopy := Copy(e, body, Ready(Source))];
    forall c | Standing(copies', tasks, c) && c != nextCopy
      ensures Standing(copies, tasks, c) && copies[c].envelope.id != e.id
      ensures Counted(originals[e.id := Original(e, body)], runs, copies', tasks, c)
    {
      assert c in copies && Descends(t, originals, copies[c].envelope, copies[c].body);
      assert Counted(originals, runs, copies, tasks, c);
    }
  }

  lemma StoredFresh(p: RetryPolicy, copies: Copies, tasks: Tasks, nextCopy: nat, copy: Copy)
    requires Fresh(copies, tasks) && PlacesCalm(p, copies) && nextCopy !in copies && copy.place.Ready?
    requires !copy.place.queue.ParkingLot? && (copy.place.queue.DeadLetters? ==> MayGiveUp(p, copy.envelope))
    ensures Fresh(copies[nextCopy := copy], tasks) && PlacesCalm(p, copies[nextCopy := copy])
  {
  }

  lemma ArrivedRest(p: RetryPolicy, w: World, e: Envelope, body: Body)
    requires CalmRest(p, w) && CopiesSound(LimitsOf(p), w.originals, w.copies, w.nextCopy) && e.id !in w.originals
    ensures CalmRest(p, Arrived(w, e, body))
  {
    NewMessageCounted(w.originals, w.runs, w.copies, w.tasks, w.nextCopy, LimitsOf(p), e, body);
    StoredFresh(p, w.copies, w.tasks, w.nextCopy, Copy(e, body, Ready(Source)));
  }

  /** A ready copy is nobody's, so moving it disturbs no worker. */
  lemma ReadyMoved(p: RetryPolicy, copies: Copies, tasks: Tasks, c: nat, copy: Copy)
    requires Fresh(copies, tasks) && PlacesCalm(p, copies) && c in copies && copies[c].place.Ready?
    requires copy.place.Held? || copy.place == Ready(Source)
    ensures Fresh(copies[c := copy], tasks) && PlacesCalm(p, copies[c := copy])
    ensures forall tag :: tag in tasks ==> tasks[tag].copy != c
  {
  }

  lemma TaskFresh(p: RetryPolicy, copies: Copies, tasks: Tasks, c: nat, copy: Copy)
    requires Fresh(copies[c := copy], tasks) && TasksCalm(p, tasks) && copy.place.Held?
    ensures var tasks' := tasks[copy.place.tag := Task(c, copy.place.channel, copy.envelope, copy.body, Queued)];
            Fresh(copies[c := copy], tasks') && TasksCalm(p, tasks')
  {
  }

  lemma DeliveredRest(p: RetryPolicy, w: World, c: nat, channel: nat)
    requires CalmRest(p, w) && HoldsSound(w.copies, w.tasks) && w.nextTag !in w.tasks
    requires c in w.copies && w.copies[c].place == Ready(Source)
    ensures CalmRest(p, Delivered(w, c, channel))
  {
    var copy := w.copies[c].(place := Held(w.nextTag, channel));
    var tasks' := w.tasks[w.nextTag := Task(c, channel, copy.envelope, copy.body, Queued)];
    ReadyMoved(p, w.copies, w.tasks, c, copy);
    TaskFresh(p, w.copies, w.tasks, c, copy);
    PlacePut(w.copies, w.tasks, c, copy, tasks');
    PlaceCounted(w.originals, w.runs, w.copies, w.tasks, c, copy, tasks');
  }

  lemma ExpiredRest(p: RetryPolicy, w: World, c: nat)
    requires CalmRest(p, w) && HoldsSound(w.copies, w.tasks) && w.homeBound && Source in w.queues
    requires c in w.copies && w.copies[c].place.Ready? && w.copies[c].place.queue.Rung?
    ensures CalmRest(p, Expired(w, c))
  {
    var copy := w.copies[c].(place := Ready(Source));
    ReadyMoved(p, w.copies, w.tasks, c, copy);
    PlacePut(w.copies, w.tasks, c, copy, w.tasks);
    PlaceCounted(w.originals, w.runs, w.copies, w.tasks, c, copy, w.tasks);
  }

  /** A worker starting, or waking to publish: nothing is handled that was not. */
  lemma PcRest(p: RetryPolicy, w: World, tag: nat, pc: Pc)
    requires CalmRest(p, w) && HoldsSound(w.copies, w.tasks) && tag in w.tasks
    requires CalmPc(p, w.tasks[tag].envelope, pc) && !pc.Acking? && !w.tasks[tag].pc.Acking?
    requires (pc.Sleeping? || pc.Publishing?) <==> (w.tasks[tag].pc.Sleeping? || w.tasks[tag].pc.Publishing?)
    ensures CalmRest(p, Moved(w, tag, pc))
  {
    PcFresh(p, w.copies, w.tasks, tag, pc);
    PcStanding(w.copies, w.tasks, tag, pc);
    StillOne(w.copies, w.tasks, w.copies, Moved(w, tag, pc).tasks);
    PcCounted(w.originals, w.runs, w.copies, w.tasks, tag, pc);
  }

  lemma HandledRest(p: RetryPolicy, w: World, tag: nat, pc: Pc)
    requires CalmRest(p, w) && HoldsSound(w.copies, w.tasks) && tag in w.tasks && w.tasks[tag].pc.Running?
    requires w.tasks[tag].envelope.id in w.originals
    requires (pc.Sleeping? || pc.Publishing?) && CalmPc(p, w.tasks[tag].envelope, pc)
    ensures var id := w.tasks[tag].envelope.id;
            CalmRest(p, Moved(w, tag, pc).(runs := w.runs[id := Count(w.runs, id) + 1]))
  {
    PcFresh(p, w.copies, w.tasks, tag, pc);
    PcStanding(w.copies, w.tasks, tag, pc);
    StillOne(w.copies, w.tasks, w.copies, Moved(w, tag, pc).tasks);
    RunCounted(w.originals, w.runs, w.copies, w.tasks, tag, pc);
  }

  lemma FinishedIs(p: RetryPolicy, w: World, tag: nat, why: Failure, age: Micros, moved: Micros)
    requires tag in w.tasks && why.Plain?
    ensures var e := w.tasks[tag].envelope;
            Finished(p, w, tag, Again(why), age, moved) ==
            Moved(w, tag, CarryOut(Decide(p, e, Again(why), age, moved)))
              .(runs := w.runs[e.id := Count(w.runs, e.id) + 1])
  {
  }

  lemma FinishedRest(p: RetryPolicy, w: World, tag: nat, why: Failure, age: Micros, moved: Micros)
    requires CalmRest(p, w) && HoldsSound(w.copies, w.tasks) && tag in w.tasks && w.tasks[tag].pc.Running?
    requires w.tasks[tag].envelope.attempt >= 1 && w.tasks[tag].envelope.id in w.originals && why.Plain?
    ensures CalmRest(p, Finished(p, w, tag, Again(why), age, moved))
  {
    CalmDecision(p, w.tasks[tag].envelope, why, age, moved);
    FinishedIs(p, w, tag, why, age, moved);
    HandledRest(p, w, tag, CarryOut(Decide(p, w.tasks[tag].envelope, Again(why), age, moved)));
  }

  lemma PublishedRest(p: RetryPolicy, w: World, tag: nat)
    requires CalmRest(p, w) && HoldsSound(w.copies, w.tasks) && w.nextCopy !in w.copies
    requires tag in w.tasks && w.tasks[tag].pc.Publishing?
    ensures CalmRest(p, Published(w, tag, Answered(true, true), true))
  {
    var task := w.tasks[tag];
    assert CalmPc(p, task.envelope, task.pc);
    LeftBehind(p, w, tag, HopCopy(task.pc.hop, task.envelope, task.body));
  }

  /** A handled delivery's copy is on its queue, and the delivery about to be acknowledged. */
  lemma LeftBehind(p: RetryPolicy, w: World, tag: nat, copy: Copy)
    requires CalmRest(p, w) && HoldsSound(w.copies, w.tasks) && w.nextCopy !in w.copies
    requires tag in w.tasks && w.tasks[tag].pc.Publishing?
    requires copy.place.Ready? && copy.envelope.id == w.tasks[tag].envelope.id && !copy.place.queue.ParkingLot?
    requires copy.place.queue.DeadLetters? ==> MayGiveUp(p, copy.envelope)
    requires copy.envelope.attempt == w.tasks[tag].envelope.attempt + if copy.place == Ready(DeadLetters) then 0 else 1
    ensures CalmRest(p, Moved(WithCopy(w, copy), tag, Acking))
  {
    StandIn(w.copies, w.tasks, w.nextCopy, tag, copy);
    StandInCounted(w.originals, w.runs, w.copies, w.tasks, w.nextCopy, tag, copy);
    PcFresh(p, w.copies, w.tasks, tag, Acking);
    StoredFresh(p, w.copies, Moved(w, tag, Acking).tasks, w.nextCopy, copy);
  }

  lemma AckStanding(w: World, tag: nat)
    requires HoldsSound(w.copies, w.tasks) && Fresh(w.copies, w.tasks) && tag in w.tasks
    ensures Fresh(Acknowledged(w, tag).copies, Acknowledged(w, tag).tasks)
    ensures var v := Acknowledged(w, tag);
            forall c :: Standing(v.copies, v.tasks, c) ==>
              && Standing(w.copies, w.tasks, c) && v.copies[c] == w.copies[c]
              && (Handled(v.copies, v.tasks, c) <==> Handled(w.copies, w.tasks, c))
  {
  }

  lemma AcknowledgedRest(p: RetryPolicy, w: World, tag: nat)
    requires CalmRest(p, w) && HoldsSound(w.copies, w.tasks) && tag in w.tasks
    ensures CalmRest(p, Acknowledged(w, tag))
  {
    var v := Acknowledged(w, tag);
    AckStanding(w, tag);
    StillOne(w.copies, w.tasks, v.copies, v.tasks);
    forall c | Standing(v.copies, v.tasks, c) ensures Counted(w.originals, w.runs, v.copies, v.tasks, c) {
      assert Counted(w.originals, w.runs, w.copies, w.tasks, c);
    }
  }

  /** What of the general invariant a calm step needs. */
  predicate Grounded(t: Limits, w: World) {
    && HoldsSound(w.copies, w.tasks) && CopiesSound(t, w.originals, w.copies, w.nextCopy)
    && w.nextTag !in w.tasks && w.nextCopy !in w.copies && w.homeBound && Source in w.queues
    && forall tag :: tag in w.tasks ==> w.tasks[tag].envelope.attempt >= 1 && w.tasks[tag].envelope.id in w.originals
  }

  lemma Needed(t: Limits, w: World)
    requires Inv(t, w)
    ensures Grounded(t, w)
  {
    forall tag | tag in w.tasks ensures w.tasks[tag].envelope.attempt >= 1 && w.tasks[tag].envelope.id in w.originals {
      assert Descends(t, w.originals, w.tasks[tag].envelope, w.tasks[tag].body);
    }
  }

  predicate MovesCopy(step: Step) { step.Arrive? || step.Deliver? || step.Ack? || step.Expire? }

  lemma CopyStepRest(p: RetryPolicy, w: World, step: Step)
    requires CalmRest(p, w) && Grounded(LimitsOf(p), w) && Enabled(w, step) && Calm(step) && MovesCopy(step)
    requires step.Arrive? ==> step.envelope.id !in w.originals
    ensures CalmRest(p, Apply(p, w, step))
  {
    match step
    case Arrive(e, body) => ArrivedRest(p, w, e, body);
    case Deliver(c, channel) => DeliveredRest(p, w, c, channel);
    case Ack(tag) => AcknowledgedRest(p, w, tag);
    case Expire(c) => ExpiredRest(p, w, c);
  }

  lemma WokenRest(p: RetryPolicy, w: World, tag: nat)
    requires CalmRest(p, w) && HoldsSound(w.copies, w.tasks) && tag in w.tasks && w.tasks[tag].pc.Sleeping?
    ensures CalmRest(p, Moved(w, tag, Publishing(w.tasks[tag].pc.hop)))
  {
    assert CalmPc(p, w.tasks[tag].envelope, w.tasks[tag].pc);
    PcRest(p, w, tag, Publishing(w.tasks[tag].pc.hop));
  }

  lemma StartedRest(p: RetryPolicy, w: World, tag: nat)
    requires CalmRest(p, w) && HoldsSound(w.copies, w.tasks) && tag in w.tasks && w.tasks[tag].pc.Queued?
    ensures CalmRest(p, Started(w, tag, None))
  {
    PcRest(p, w, tag, Running);
  }

  lemma WorkStepRest(p: RetryPolicy, w: World, step: Step)
    requires CalmRest(p, w) && Grounded(LimitsOf(p), w) && Enabled(w, step) && Calm(step) && !MovesCopy(step)
    ensures CalmRest(p, Apply(p, w, step))
  {
    match step
    case Start(tag, _) => StartedRest(p, w, tag);
    case Finish(tag, answer, age, moved) => FinishedRest(p, w, tag, answer.why, age, moved);
    case Wake(tag) => WokenRest(p, w, tag);
    case Publish(tag, _, _) => PublishedRest(p, w, tag);
  }

  lemma CalmStepKeeps(p: RetryPolicy, w: World, step: Step)
    requires CalmInv(p, w) && Enabled(w, step) && Calm(step)
    requires step.Arrive? ==> step.envelope.id !in w.originals
    ensures CalmInv(p, Apply(p, w, step))
  {
    StepKeeps(p, LimitsOf(p), w, step);
    Needed(LimitsOf(p), w);
    if MovesCopy(step) { CopyStepRest(p, w, step); } else { WorkStepRest(p, w, step); }
  }

  lemma {:induction false} EveryCalmRunKeeps(p: RetryPolicy, w: World, steps: seq<Step>)
    requires CalmInv(p, w) && ValidRun(p, w, steps) && CalmRun(p, w, steps)
    ensures CalmInv(p, Run(p, w, steps))
    decreases |steps|
  {
    if steps != [] {
      CalmStepKeeps(p, w, steps[0]);
      EveryCalmRunKeeps(p, Apply(p, w, steps[0]), steps[1..]);
    }
  }

  // ---------------------------------------------------------------- the theorems

  /** Whether the policy's age limit was reached, in some answer of the run, by this message. */
  predicate AgeCutsIn(p: RetryPolicy, w: World, steps: seq<Step>, id: string)
    requires ValidRun(p, w, steps)
    decreases |steps|
  {
    steps != [] &&
    (|| (&& steps[0].Finish? && w.tasks[steps[0].tag].envelope.id == id
         && p.maxMessageAge > 0 && steps[0].age >= p.maxMessageAge)
     || AgeCutsIn(p, Apply(p, w, steps[0]), steps[1..], id))
  }

  /** A message is given up, or about to be, only on its last attempt, or once its age has cut in. */
  predicate GivenUpFairly(p: RetryPolicy, copies: Copies, tasks: Tasks, id: string, cut: bool) {
    && (forall c :: c in copies && copies[c].envelope.id == id && copies[c].place == Ready(DeadLetters) ==>
          copies[c].envelope.attempt >= p.maxAttempts || cut)
    && (forall tag :: tag in tasks && tasks[tag].envelope.id == id && GivingUp(tasks[tag].pc) ==>
          tasks[tag].envelope.attempt >= p.maxAttempts || cut)
  }

  predicate GivingUp(pc: Pc) { (pc.Sleeping? || pc.Publishing?) && Target(pc.hop) == DeadLetters }

  lemma PublishedFairly(p: RetryPolicy, w: World, tag: nat, id: string, cut: bool)
    requires tag in w.tasks && w.tasks[tag].pc.Publishing? && GivenUpFairly(p, w.copies, w.tasks, id, cut)
    requires !w.tasks[tag].pc.hop.ToRung? || Target(w.tasks[tag].pc.hop) != DeadLetters
    ensures var v := Published(w, tag, Answered(true, true), true); GivenUpFairly(p, v.copies, v.tasks, id, cut)
  {
  }

  lemma PcFairly(p: RetryPolicy, copies: Copies, tasks: Tasks, tag: nat, pc: Pc, id: string, cut: bool)
    requires tag in tasks && GivenUpFairly(p, copies, tasks, id, cut)
    requires GivingUp(pc) ==>
               || GivingUp(tasks[tag].pc) || tasks[tag].envelope.id != id
               || tasks[tag].envelope.attempt >= p.maxAttempts || cut
    ensures GivenUpFairly(p, copies, tasks[tag := tasks[tag].(pc := pc)], id, cut)
  {
  }

  lemma StartedFairly(p: RetryPolicy, w: World, tag: nat, id: string, cut: bool)
    requires tag in w.tasks && GivenUpFairly(p, w.copies, w.tasks, id, cut)
    ensures var v := Started(w, tag, None); GivenUpFairly(p, v.copies, v.tasks, id, cut)
  {
    PcFairly(p, w.copies, w.tasks, tag, if w.tasks[tag].channel in w.halted then Nacking else Running, id, cut);
  }

  lemma FinishedFairly(p: RetryPolicy, w: World, tag: nat, why: Failure, age: Micros, moved: Micros, id: string,
                       cut: bool)
    requires tag in w.tasks && GivenUpFairly(p, w.copies, w.tasks, id, cut) && why.Plain?
    requires w.tasks[tag].envelope.id == id && p.maxMessageAge > 0 && age >= p.maxMessageAge ==> cut
    ensures var v := Finished(p, w, tag, Again(why), age, moved); GivenUpFairly(p, v.copies, v.tasks, id, cut)
  {
    PcFairly(p, w.copies, w.tasks, tag, CarryOut(Decide(p, w.tasks[tag].envelope, Again(why), age, moved)), id, cut);
    FinishedIs(p, w, tag, why, age, moved);
  }

  lemma WokenFairly(p: RetryPolicy, w: World, tag: nat, id: string, cut: bool)
    requires tag in w.tasks && w.tasks[tag].pc.Sleeping? && GivenUpFairly(p, w.copies, w.tasks, id, cut)
    ensures GivenUpFairly(p, w.copies, Moved(w, tag, Publishing(w.tasks[tag].pc.hop)).tasks, id, cut)
  {
    PcFairly(p, w.copies, w.tasks, tag, Publishing(w.tasks[tag].pc.hop), id, cut);
  }

  /** A calm step gives up nothing but what has no attempt left or is too old. */
  lemma StepFairly(p: RetryPolicy, w: World, step: Step, id: string, cut: bool)
    requires Enabled(w, step) && Calm(step) && GivenUpFairly(p, w.copies, w.tasks, id, cut)
    requires step.Finish? && w.tasks[step.tag].envelope.id == id ==>
               p.maxMessageAge > 0 && step.age >= p.maxMessageAge ==> cut
    ensures var v := Apply(p, w, step); GivenUpFairly(p, v.copies, v.tasks, id, cut)
  {
    if MovesCopy(step) {
    } else if step.Publish? {
      PublishedFairly(p, w, step.tag, id, cut);
    } else {
      match step
      case Start(tag, _) => StartedFairly(p, w, tag, id, cut);
      case Finish(tag, answer, age, moved) => FinishedFairly(p, w, tag, answer.why, age, moved, id, cut);
      case Wake(tag) => WokenFairly(p, w, tag, id, cut);
    }
  }

  lemma {:induction false} RunFairly(p: RetryPolicy, w: World, steps: seq<Step>, id: string, cut: bool)
    requires ValidRun(p, w, steps) && CalmRun(p, w, steps) && GivenUpFairly(p, w.copies, w.tasks, id, cut)
    requires AgeCutsIn(p, w, steps, id) ==> cut
    ensures var v := Run(p, w, steps); GivenUpFairly(p, v.copies, v.tasks, id, cut)
    decreases |steps|
  {
    if steps != [] {
      StepFairly(p, w, steps[0], id, cut);
      RunFairly(p, Apply(p, w, steps[0]), steps[1..], id, cut);
    }
  }

  lemma {:induction false} NoneAccepted(p: RetryPolicy, w: World, steps: seq<Step>)
    requires ValidRun(p, w, steps) && CalmRun(p, w, steps)
    ensures LedgerOf(p, w, Ledger({}, {}), steps) == Ledger({}, {})
    decreases |steps|
  {
    if steps != [] {
      NoneAccepted(p, Apply(p, w, steps[0]), steps[1..]);
    }
  }

  lemma SomeStanding(p: RetryPolicy, start: World, steps: seq<Step>, id: string) returns (c: nat)
    requires Initial(start) && ValidRun(p, start, steps) && CalmRun(p, start, steps)
    requires id in Run(p, start, steps).originals
    ensures var w := Run(p, start, steps); Standing(w.copies, w.tasks, c) && w.copies[c].envelope.id == id
  {
    InitialHolds(LimitsOf(p), start);
    EveryRunThere(p, LimitsOf(p), start, Ledger({}, {}), steps);
    NoneAccepted(p, start, steps);
    var w := Run(p, start, steps);
    c :| Remains(w.copies, w.tasks, {}, c, id);
  }

  /** However calm runs interleave, no message is ever run more often than its policy and its first
      attempt allow, and one that has come to rest in the dead letters was run exactly that often, unless
      in this very run one of its answers came when it was past the policy's age limit. */
  lemma RetriesEnd(p: RetryPolicy, start: World, steps: seq<Step>, id: string)
    requires Initial(start) && start.halted == {} && ValidRun(p, start, steps) && CalmRun(p, start, steps)
    requires id in Run(p, start, steps).originals
    ensures var w := Run(p, start, steps);
            var inAll := RunsInAll(LimitsOf(p), w.originals[id].envelope.attempt);
            && Count(w.runs, id) <= inAll
            && forall c :: c in w.copies && w.copies[c].envelope.id == id && w.copies[c].place == Ready(DeadLetters) ==>
                 Count(w.runs, id) == inAll || AgeCutsIn(p, start, steps, id)
  {
    InitialHolds(LimitsOf(p), start);
    EveryCalmRunKeeps(p, start, steps);
    RunFairly(p, start, steps, id, AgeCutsIn(p, start, steps, id));
    var w := Run(p, start, steps);
    var s := SomeStanding(p, start, steps, id);
    BoundedRuns(p, w, s);
    forall c | c in w.copies && w.copies[c].envelope.id == id && w.copies[c].place == Ready(DeadLetters)
      ensures Count(w.runs, id) == RunsInAll(LimitsOf(p), w.originals[id].envelope.attempt) ||
                AgeCutsIn(p, start, steps, id)
    {
      BoundedRuns(p, w, c);
    }
  }

  lemma BoundedRuns(p: RetryPolicy, w: World, c: nat)
    requires CalmInv(p, w) && Standing(w.copies, w.tasks, c)
    ensures var e, id := w.copies[c].envelope, w.copies[c].envelope.id;
            && id in w.originals
            && Count(w.runs, id) <= RunsInAll(LimitsOf(p), w.originals[id].envelope.attempt)
            && (w.copies[c].place == Ready(DeadLetters) && e.attempt >= p.maxAttempts ==>
                  Count(w.runs, id) == RunsInAll(LimitsOf(p), w.originals[id].envelope.attempt))
  {
    var e := w.copies[c].envelope;
    assert Descends(LimitsOf(p), w.originals, e, w.copies[c].body);
    assert Counted(w.originals, w.runs, w.copies, w.tasks, c);
  }

  /** Whatever is not yet at rest can move on: a copy outside the dead letters always has a calm
      step, given the queues a consumer declares. */
  lemma SomethingCanMove(p: RetryPolicy, w: World, c: nat, channel: nat) returns (step: Step)
    requires CalmInv(p, w) && c in w.copies && w.copies[c].place != Ready(DeadLetters)
    requires DeadLetters in w.queues && forall d :: d in BrokerRungs(p) ==> RungOf(d) in w.queues
    ensures Calm(step) && !step.Arrive? && Enabled(w, step)
  {
    Needed(LimitsOf(p), w);
    if w.copies[c].place.Held? {
      var tag := w.copies[c].place.tag;
      var task := w.tasks[tag];
      assert CalmPc(p, task.envelope, task.pc) && PcAllowed(LimitsOf(p), task.envelope, task.pc);
      step := WorkerStep(p, LimitsOf(p), w, tag);
    } else if w.copies[c].place.queue == Source {
      step := Deliver(c, channel);
    } else {
      assert w.copies[c].place.Ready? && !w.copies[c].place.queue.ParkingLot?;
      step := Expire(c);
    }
  }

  lemma WorkerStep(p: RetryPolicy, t: Limits, w: World, tag: nat) returns (step: Step)
    requires tag in w.tasks && CalmPc(p, w.tasks[tag].envelope, w.tasks[tag].pc)
    requires PcAllowed(t, w.tasks[tag].envelope, w.tasks[tag].pc) && Source in w.queues
    requires DeadLetters in w.queues && forall d :: d in t.rungs ==> RungOf(d) in w.queues
    ensures Calm(step) && !step.Arrive? && Enabled(w, step)
  {
    match w.tasks[tag].pc
    case Queued => step := Start(tag, None);
    case Running => step := Finish(tag, Again(Plain("")), 0, 0);
    case Sleeping(_, _) => step := Wake(tag);
    case Publishing(_) => step := Publish(tag, Answered(true, true), true);
    case Acking => step := Ack(tag);
  }
}
