/** Every calm run comes to rest: a measure over the copies on the broker that each step of
    src/acemq_amqp/connection.py's retry path makes smaller. */
module RetriesRest {
  import opened Retry
  import opened Envelopes
  import opened Settlement
  import opened RetriesEnd
  import opened Sums

  // ---------------------------------------------------------------- how far a copy has to go

  function Stage(pc: Pc): nat {
    match pc
    case Queued => 5
    case Running => 4
    case Sleeping(_, _) => 3
    case _ => 2
  }

  /** The steps a copy may still cause: none at rest, one when it is only to be acknowledged. */
  function Ahead(t: Limits, originals: Originals, tasks: Tasks, copy: Copy): nat {
    if copy.envelope.id !in originals then 0
    else if copy.place == Ready(DeadLetters) then 0
    else if copy.place.Held? && copy.place.tag in tasks && tasks[copy.place.tag].pc.Acking? then 1
    else
      9 * Max(LastAttempt(t, originals[copy.envelope.id].envelope.attempt) - copy.envelope.attempt, 0)
      + if copy.place.Held? && copy.place.tag in tasks then Stage(tasks[copy.place.tag].pc)
        else if copy.place == Ready(Source) then 6 else 7
  }

  function Weights(t: Limits, w: World): map<nat, nat> {
    map c | c in w.copies :: Ahead(t, w.originals, w.tasks, w.copies[c])
  }

  ghost function Effort(t: Limits, w: World): nat { Total(Weights(t, w)) }

  /** A worker's step weighs on its own copy only. */
  lemma PcWeighs(t: Limits, w: World, tag: nat, pc: Pc)
    requires HoldsSound(w.copies, w.tasks) && Fresh(w.copies, w.tasks) && tag in w.tasks
    ensures var c, v := w.tasks[tag].copy, Moved(w, tag, pc);
            Weights(t, v) == Weights(t, w)[c := Ahead(t, w.originals, v.tasks, w.copies[c])]
  {
    var c, v := w.tasks[tag].copy, Moved(w, tag, pc);
    forall d | d in w.copies && d != c
      ensures Ahead(t, w.originals, v.tasks, w.copies[d]) == Ahead(t, w.originals, w.tasks, w.copies[d])
    {
      assert w.copies[d].place.Held? ==> HeldIn(d, w.copies[d], w.tasks[w.copies[d].place.tag]);
    }
  }

  lemma PcEffort(t: Limits, w: World, tag: nat, pc: Pc)
    requires HoldsSound(w.copies, w.tasks) && Fresh(w.copies, w.tasks) && tag in w.tasks
    requires w.tasks[tag].envelope.id in w.originals
    requires !pc.Acking? && !w.tasks[tag].pc.Acking? && Stage(pc) < Stage(w.tasks[tag].pc)
    ensures Effort(t, Moved(w, tag, pc)) < Effort(t, w)
  {
    var c := w.tasks[tag].copy;
    assert HeldIn(c, w.copies[c], w.tasks[tag]);
    PcWeighs(t, w, tag, pc);
    TotalChanged(Weights(t, w), c, Ahead(t, w.originals, Moved(w, tag, pc).tasks, w.copies[c]));
  }

  /** What the published copy and the delivery about to be acknowledged have ahead of them is less
      than what the delivery had. */
  lemma PublishAhead(t: Limits, originals: Originals, tasks: Tasks, held: Copy, task: Task, copy: Copy)
    requires held.place.Held? && held.envelope == task.envelope && held.place.tag in tasks &&
               tasks[held.place.tag] == task
    requires task.pc.Publishing? && task.envelope.id in originals
    requires copy.place.Ready? && copy.envelope.id == task.envelope.id
    requires copy.place == Ready(DeadLetters) ||
             (&& copy.envelope.attempt == task.envelope.attempt + 1
              && task.envelope.attempt < LastAttempt(t, originals[copy.envelope.id].envelope.attempt))
    ensures 1 + Ahead(t, originals, tasks, copy) < Ahead(t, originals, tasks, held)
  {
  }

  lemma StoredWeighs(t: Limits, w: World, copy: Copy)
    requires w.nextCopy !in w.copies
    ensures Weights(t, WithCopy(w, copy)) == Weights(t, w)[w.nextCopy := Ahead(t, w.originals, w.tasks, copy)]
  {
  }

  lemma PublishWeighs(t: Limits, w: World, tag: nat, copy: Copy)
    requires HoldsSound(w.copies, w.tasks) && Fresh(w.copies, w.tasks) && w.nextCopy !in w.copies
    requires tag in w.tasks && copy.place.Ready? && w.tasks[tag].envelope.id in w.originals
    ensures Weights(t, Moved(WithCopy(w, copy), tag, Acking)) ==
            Weights(t, w)[w.tasks[tag].copy := 1][w.nextCopy := Ahead(t, w.originals, w.tasks, copy)]
  {
    var c, u := w.tasks[tag].copy, Moved(w, tag, Acking);
    assert HeldIn(c, w.copies[c], w.tasks[tag]);
    PcWeighs(t, w, tag, Acking);
    StoredWeighs(t, u, copy);
    assert Moved(WithCopy(w, copy), tag, Acking) == WithCopy(u, copy);
  }

  lemma PublishEffort(t: Limits, w: World, tag: nat, copy: Copy)
    requires HoldsSound(w.copies, w.tasks) && Fresh(w.copies, w.tasks) && w.nextCopy !in w.copies
    requires tag in w.tasks && w.tasks[tag].pc.Publishing? && w.tasks[tag].envelope.id in w.originals
    requires copy.place.Ready? && copy.envelope.id == w.tasks[tag].envelope.id
    requires copy.place == Ready(DeadLetters) ||
             (&& copy.envelope.attempt == w.tasks[tag].envelope.attempt + 1
              && w.tasks[tag].envelope.attempt < LastAttempt(t, w.originals[copy.envelope.id].envelope.attempt))
    ensures Effort(t, Moved(WithCopy(w, copy), tag, Acking)) < Effort(t, w)
  {
    var c := w.tasks[tag].copy;
    assert HeldIn(c, w.copies[c], w.tasks[tag]);
    PublishWeighs(t, w, tag, copy);
    PublishAhead(t, w.originals, w.tasks, w.copies[c], w.tasks[tag], copy);
    TotalChanged(Weights(t, w), c, 1);
    TotalChanged(Weights(t, w)[c := 1], w.nextCopy, Ahead(t, w.originals, w.tasks, copy));
  }

  lemma AckEffort(t: Limits, w: World, tag: nat)
    requires HoldsSound(w.copies, w.tasks) && Fresh(w.copies, w.tasks)
    requires tag in w.tasks && w.tasks[tag].pc.Acking? && w.tasks[tag].envelope.id in w.originals
    ensures Effort(t, Acknowledged(w, tag)) < Effort(t, w)
  {
    var c, v := w.tasks[tag].copy, Acknowledged(w, tag);
    assert HeldIn(c, w.copies[c], w.tasks[tag]);
    forall d | d in w.copies && d != c
      ensures d in v.copies && Ahead(t, w.originals, v.tasks, w.copies[d]) ==
                Ahead(t, w.originals, w.tasks, w.copies[d])
    {
      assert w.copies[d].place.Held? ==> HeldIn(d, w.copies[d], w.tasks[w.copies[d].place.tag]);
    }
    assert Weights(t, v) == Weights(t, w) - {c};
    TotalWithout(Weights(t, w), c);
  }

  /** Delivering a copy, or bringing it home from a rung. */
  lemma PlaceEffort(t: Limits, w: World, c: nat, v: World)
    requires c in w.copies && c in v.copies && v.originals == w.originals
    requires v.copies == w.copies[c := v.copies[c]]
    requires forall d :: d in w.copies && d != c ==>
               Ahead(t, w.originals, v.tasks, w.copies[d]) == Ahead(t, w.originals, w.tasks, w.copies[d])
    requires Ahead(t, w.originals, v.tasks, v.copies[c]) < Ahead(t, w.originals, w.tasks, w.copies[c])
    ensures Effort(t, v) < Effort(t, w)
  {
    assert Weights(t, v) == Weights(t, w)[c := Ahead(t, w.originals, v.tasks, v.copies[c])];
    TotalChanged(Weights(t, w), c, Ahead(t, w.originals, v.tasks, v.copies[c]));
  }

  lemma DeliverEffort(t: Limits, w: World, c: nat, channel: nat)
    requires HoldsSound(w.copies, w.tasks) && w.nextTag !in w.tasks
    requires c in w.copies && w.copies[c].place == Ready(Source) && w.copies[c].envelope.id in w.originals
    ensures Effort(t, Delivered(w, c, channel)) < Effort(t, w)
  {
    PlaceEffort(t, w, c, Delivered(w, c, channel));
  }

  lemma FinishEffort(p: RetryPolicy, w: World, tag: nat, answer: Answer, age: Micros, moved: Micros)
    requires HoldsSound(w.copies, w.tasks) && Fresh(w.copies, w.tasks)
    requires tag in w.tasks && w.tasks[tag].pc.Running? && Calm(Finish(tag, answer, age, moved))
    requires w.tasks[tag].envelope.attempt >= 1 && w.tasks[tag].envelope.id in w.originals
    ensures Effort(LimitsOf(p), Finished(p, w, tag, answer, age, moved)) < Effort(LimitsOf(p), w)
  {
    CalmDecision(p, w.tasks[tag].envelope, answer.why, age, moved);
    var pc := CarryOut(Decide(p, w.tasks[tag].envelope, answer, age, moved));
    PcEffort(LimitsOf(p), w, tag, pc);
    assert Weights(LimitsOf(p), Finished(p, w, tag, answer, age, moved)) == Weights(LimitsOf(p), Moved(w, tag, pc));
  }

  lemma DeliverStepEffort(p: RetryPolicy, w: World, c: nat, channel: nat)
    requires CalmInv(p, w) && c in w.copies && w.copies[c].place == Ready(Source)
    ensures Effort(LimitsOf(p), Delivered(w, c, channel)) < Effort(LimitsOf(p), w)
  {
    Needed(LimitsOf(p), w);
    DeliverEffort(LimitsOf(p), w, c, channel);
  }

  lemma ExpireEffort(t: Limits, w: World, c: nat)
    requires HoldsSound(w.copies, w.tasks) && w.homeBound && Source in w.queues
    requires c in w.copies && w.copies[c].envelope.id in w.originals
    requires w.copies[c].place.Ready? && w.copies[c].place.queue.Rung?
    ensures Effort(t, Expired(w, c)) < Effort(t, w)
  {
    PlaceEffort(t, w, c, Expired(w, c));
  }

  lemma ExpireStepEffort(p: RetryPolicy, w: World, c: nat)
    requires CalmInv(p, w) && c in w.copies && w.copies[c].place.Ready? && w.copies[c].place.queue.Rung?
    ensures Effort(LimitsOf(p), Expired(w, c)) < Effort(LimitsOf(p), w)
  {
    Needed(LimitsOf(p), w);
    ExpireEffort(LimitsOf(p), w, c);
  }

  lemma AckStepEffort(p: RetryPolicy, w: World, tag: nat)
    requires CalmInv(p, w) && tag in w.tasks && w.tasks[tag].pc.Acking?
    ensures Effort(LimitsOf(p), Acknowledged(w, tag)) < Effort(LimitsOf(p), w)
  {
    Needed(LimitsOf(p), w);
    AckEffort(LimitsOf(p), w, tag);
  }

  /** A publish that the broker takes, for a worker whose hop a calm run allows. */
  lemma TakenEffort(p: RetryPolicy, t: Limits, w: World, tag: nat)
    requires HoldsSound(w.copies, w.tasks) && Fresh(w.copies, w.tasks) && w.nextCopy !in w.copies
    requires tag in w.tasks && w.tasks[tag].pc.Publishing? && w.tasks[tag].envelope.id in w.originals
    requires CalmPc(p, w.tasks[tag].envelope, w.tasks[tag].pc) && t.maxAttempts == p.maxAttempts
    ensures Effort(t, Published(w, tag, Answered(true, true), true)) < Effort(t, w)
  {
    PublishEffort(t, w, tag, HopCopy(w.tasks[tag].pc.hop, w.tasks[tag].envelope, w.tasks[tag].body));
  }

  lemma PublishStepEffort(p: RetryPolicy, w: World, tag: nat)
    requires CalmInv(p, w) && tag in w.tasks && w.tasks[tag].pc.Publishing?
    ensures Effort(LimitsOf(p), Published(w, tag, Answered(true, true), true)) < Effort(LimitsOf(p), w)
  {
    Needed(LimitsOf(p), w);
    TakenEffort(p, LimitsOf(p), w, tag);
  }

  lemma FinishStepEffort(p: RetryPolicy, w: World, tag: nat, answer: Answer, age: Micros, moved: Micros)
    requires CalmInv(p, w) && tag in w.tasks && w.tasks[tag].pc.Running? && Calm(Finish(tag, answer, age, moved))
    ensures Effort(LimitsOf(p), Finished(p, w, tag, answer, age, moved)) < Effort(LimitsOf(p), w)
  {
    Needed(LimitsOf(p), w);
    FinishEffort(p, w, tag, answer, age, moved);
  }

  lemma StartEffort(t: Limits, w: World, tag: nat)
    requires HoldsSound(w.copies, w.tasks) && Fresh(w.copies, w.tasks) && w.halted == {}
    requires tag in w.tasks && w.tasks[tag].pc.Queued? && w.tasks[tag].envelope.id in w.originals
    ensures Effort(t, Started(w, tag, None)) < Effort(t, w)
  {
    PcEffort(t, w, tag, Running);
  }

  lemma WakeEffort(t: Limits, w: World, tag: nat, hop: Hop)
    requires HoldsSound(w.copies, w.tasks) && Fresh(w.copies, w.tasks)
    requires tag in w.tasks && w.tasks[tag].pc.Sleeping? && w.tasks[tag].pc.hop == hop
    requires w.tasks[tag].envelope.id in w.originals
    ensures Effort(t, Moved(w, tag, Publishing(hop))) < Effort(t, w)
  {
    PcEffort(t, w, tag, Publishing(hop));
  }

  lemma CopyStepEffort(p: RetryPolicy, w: World, step: Step)
    requires CalmInv(p, w) && Enabled(w, step) && Calm(step) && (step.Deliver? || step.Ack? || step.Expire?)
    ensures Effort(LimitsOf(p), Apply(p, w, step)) < Effort(LimitsOf(p), w)
  {
    match step
    case Deliver(c, channel) => DeliverStepEffort(p, w, c, channel);
    case Ack(tag) => AckStepEffort(p, w, tag);
    case Expire(c) => ExpireStepEffort(p, w, c);
  }

  lemma WorkStepEffort(p: RetryPolicy, w: World, step: Step)
    requires CalmInv(p, w) && Enabled(w, step) && Calm(step) && (step.Finish? || step.Publish?)
    ensures Effort(LimitsOf(p), Apply(p, w, step)) < Effort(LimitsOf(p), w)
  {
    match step
    case Finish(tag, answer, age, moved) => FinishStepEffort(p, w, tag, answer, age, moved);
    case Publish(tag, _, _) => PublishStepEffort(p, w, tag);
  }

  lemma TurnStepEffort(p: RetryPolicy, t: Limits, w: World, step: Step)
    requires Grounded(t, w) && Fresh(w.copies, w.tasks) && w.halted == {}
    requires Enabled(w, step) && Calm(step) && (step.Start? || step.Wake?)
    ensures Effort(t, Apply(p, w, step)) < Effort(t, w)
  {
    match step
    case Start(tag, _) => StartEffort(t, w, tag);
    case Wake(tag) => WakeEffort(t, w, tag, w.tasks[tag].pc.hop);
  }

  lemma CalmStepEffort(p: RetryPolicy, w: World, step: Step)
    requires CalmInv(p, w) && Enabled(w, step) && Calm(step) && !step.Arrive?
    ensures Effort(LimitsOf(p), Apply(p, w, step)) < Effort(LimitsOf(p), w)
  {
    if step.Finish? || step.Publish? {
      WorkStepEffort(p, w, step);
    } else if step.Start? || step.Wake? {
      Needed(LimitsOf(p), w);
      TurnStepEffort(p, LimitsOf(p), w, step);
    } else {
      CopyStepEffort(p, w, step);
    }
  }

  /** Whatever a step keeps and takes away, a run keeps and takes away as often as it is long. */
  lemma {:induction false} RunsTakeEffort(p: RetryPolicy, w: World, steps: seq<Step>, inv: World -> bool,
                                          effort: World -> nat)
    requires inv(w) && ValidRun(p, w, steps) && forall i :: 0 <= i < |steps| ==> Calm(steps[i]) && !steps[i].Arrive?
    requires forall u, step :: inv(u) && Enabled(u, step) && Calm(step) && !step.Arrive? ==>
               inv(Apply(p, u, step)) && effort(Apply(p, u, step)) < effort(u)
    ensures |steps| + effort(Run(p, w, steps)) <= effort(w)
    decreases |steps|
  {
    if steps != [] {
      assert Calm(steps[0]) && !steps[0].Arrive?;
      RunsTakeEffort(p, Apply(p, w, steps[0]), steps[1..], inv, effort);
    }
  }

  /** Without new messages a calm run is at most as long as the effort ahead of it. */
  lemma CalmRunsComeToRest(p: RetryPolicy, w: World, steps: seq<Step>)
    requires CalmInv(p, w) && ValidRun(p, w, steps)
    requires forall i :: 0 <= i < |steps| ==> Calm(steps[i]) && !steps[i].Arrive?
    ensures |steps| + Effort(LimitsOf(p), Run(p, w, steps)) <= Effort(LimitsOf(p), w)
  {
    forall u, step | CalmInv(p, u) && Enabled(u, step) && Calm(step) && !step.Arrive?
      ensures CalmInv(p, Apply(p, u, step)) && Effort(LimitsOf(p), Apply(p, u, step)) < Effort(LimitsOf(p), u)
    {
      CalmStepKeeps(p, u, step);
      CalmStepEffort(p, u, step);
    }
    RunsTakeEffort(p, w, steps, (u: World) => CalmInv(p, u), (u: World) => Effort(LimitsOf(p), u));
  }

  // ---------------------------------------------------------------- where they come to rest

  /** Nothing but a new message could move anything. */
  ghost predicate AtRest(w: World) { forall step :: Calm(step) && Enabled(w, step) ==> step.Arrive? }

  predicate AllDead(copies: Copies) { forall c :: c in copies ==> copies[c].place == Ready(DeadLetters) }

  predicate Declared(p: RetryPolicy, queues: set<QueueId>) {
    DeadLetters in queues && forall d :: d in BrokerRungs(p) ==> RungOf(d) in queues
  }

  /** With the queues a consumer declares, nothing can move exactly when everything is in the dead letters. */
  lemma RestIsTheDeadLetters(p: RetryPolicy, w: World)
    requires CalmInv(p, w) && Declared(p, w.queues)
    ensures AtRest(w) <==> AllDead(w.copies)
  {
    if AllDead(w.copies) {
    } else {
      var c :| c in w.copies && w.copies[c].place != Ready(DeadLetters);
      var step := SomethingCanMove(p, w, c, 0);
    }
  }

  lemma {:induction false} CalmKeepsQueues(p: RetryPolicy, w: World, steps: seq<Step>)
    requires ValidRun(p, w, steps) && CalmRun(p, w, steps)
    ensures Run(p, w, steps).queues == w.queues
    decreases |steps|
  {
    if steps != [] {
      CalmStepKeepsQueues(p, w, steps[0]);
      CalmKeepsQueues(p, Apply(p, w, steps[0]), steps[1..]);
    }
  }

  lemma CalmStepKeepsQueues(p: RetryPolicy, w: World, step: Step)
    requires Enabled(w, step) && Calm(step)
    ensures Apply(p, w, step).queues == w.queues
  {
  }

  lemma {:induction false} CalmSplits(p: RetryPolicy, w: World, front: seq<Step>, back: seq<Step>)
    requires ValidRun(p, w, front + back) && CalmRun(p, w, front + back)
    ensures ValidRun(p, w, front) && CalmRun(p, w, front)
    ensures ValidRun(p, Run(p, w, front), back) && CalmRun(p, Run(p, w, front), back)
    ensures Run(p, w, front + back) == Run(p, Run(p, w, front), back)
    decreases |front|
  {
    if front == [] {
      assert front + back == back;
    } else {
      assert (front + back)[1..] == front[1..] + back;
      CalmSplits(p, Apply(p, w, front[0]), front[1..], back);
    }
  }

  lemma {:induction false} CalmSteps(p: RetryPolicy, w: World, steps: seq<Step>)
    requires ValidRun(p, w, steps) && CalmRun(p, w, steps)
    ensures forall i :: 0 <= i < |steps| ==> Calm(steps[i])
    decreases |steps|
  {
    if steps != [] {
      CalmSteps(p, Apply(p, w, steps[0]), steps[1..]);
      assert forall i :: 1 <= i < |steps| ==> steps[i] == steps[1..][i - 1];
    }
  }

  /** Retries end, and where: once the new messages stop, a calm run goes on for no more steps than the
      effort ahead of it; and when nothing can move any more, each message has one copy, in the dead
      letters, and was run exactly as often as its policy and its first attempt allow, unless in this run
      one of its answers came when it was past the age limit. */
  lemma EveryMessageComesToRest(p: RetryPolicy, start: World, before: seq<Step>, after: seq<Step>, id: string)
    returns (c: nat)
    requires Initial(start) && start.halted == {} && Declared(p, start.queues)
    requires ValidRun(p, start, before + after) && CalmRun(p, start, before + after)
    requires forall i :: 0 <= i < |after| ==> !after[i].Arrive?
    requires id in Run(p, start, before + after).originals
    ensures ValidRun(p, start, before) && |after| <= Effort(LimitsOf(p), Run(p, start, before))
    ensures var w := Run(p, start, before + after);
            AtRest(w) ==>
              && c in w.copies && w.copies[c].envelope.id == id && w.copies[c].place == Ready(DeadLetters)
              && (forall d :: d in w.copies && w.copies[d].envelope.id == id ==> d == c)
              && (Count(w.runs, id) == RunsInAll(LimitsOf(p), w.originals[id].envelope.attempt)
                  || AgeCutsIn(p, start, before + after, id))
  {
    InitialHolds(LimitsOf(p), start);
    CalmSplits(p, start, before, after);
    EveryCalmRunKeeps(p, start, before);
    CalmSteps(p, Run(p, start, before), after);
    CalmRunsComeToRest(p, Run(p, start, before), after);
    c := RestsOnce(p, start, before + after, id);
  }

  lemma RestsOnce(p: RetryPolicy, start: World, steps: seq<Step>, id: string) returns (c: nat)
    requires Initial(start) && start.halted == {} && Declared(p, start.queues)
    requires ValidRun(p, start, steps) && CalmRun(p, start, steps) && id in Run(p, start, steps).originals
    ensures var w := Run(p, start, steps);
            AtRest(w) ==>
              && c in w.copies && w.copies[c].envelope.id == id && w.copies[c].place == Ready(DeadLetters)
              && (forall d :: d in w.copies && w.copies[d].envelope.id == id ==> d == c)
              && (Count(w.runs, id) == RunsInAll(LimitsOf(p), w.originals[id].envelope.attempt)
                  || AgeCutsIn(p, start, steps, id))
  {
    InitialHolds(LimitsOf(p), start);
    EveryCalmRunKeeps(p, start, steps);
    CalmKeepsQueues(p, start, steps);
    var w := Run(p, start, steps);
    RestIsTheDeadLetters(p, w);
    RetriesEnd.RetriesEnd(p, start, steps, id);
    c := SomeStanding(p, start, steps, id);
    if AtRest(w) {
      forall d | d in w.copies && w.copies[d].envelope.id == id ensures d == c {
        assert Standing(w.copies, w.tasks, d);
      }
    }
  }

  lemma MovesOn(p: RetryPolicy, w: World, c: nat) returns (step: Step)
    requires CalmInv(p, w) && Declared(p, w.queues) && c in w.copies && w.copies[c].place != Ready(DeadLetters)
    ensures Calm(step) && !step.Arrive? && Enabled(w, step) && CalmInv(p, Apply(p, w, step))
    ensures Apply(p, w, step).queues == w.queues
    ensures Effort(LimitsOf(p), Apply(p, w, step)) < Effort(LimitsOf(p), w)
  {
    step := SomethingCanMove(p, w, c, 0);
    CalmStepKeeps(p, w, step);
    CalmStepEffort(p, w, step);
    CalmStepKeepsQueues(p, w, step);
  }

  ghost predicate Advances(p: RetryPolicy, w: World, step: Step, inv: World -> bool, effort: World -> nat) {
    Calm(step) && !step.Arrive? && Enabled(w, step) && inv(Apply(p, w, step)) && effort(Apply(p, w, step)) < effort(w)
  }

  lemma {:induction false} StepsReach(p: RetryPolicy, w: World, inv: World -> bool, done: World -> bool,
                                      effort: World -> nat)
    returns (steps: seq<Step>)
    requires inv(w) && forall u :: inv(u) && !done(u) ==> exists step :: Advances(p, u, step, inv, effort)
    ensures ValidRun(p, w, steps) && done(Run(p, w, steps))
    ensures forall i :: 0 <= i < |steps| ==> Calm(steps[i]) && !steps[i].Arrive?
    decreases effort(w)
  {
    if done(w) {
      steps := [];
    } else {
      var step :| Advances(p, w, step, inv, effort);
      var rest := StepsReach(p, Apply(p, w, step), inv, done, effort);
      steps := [step] + rest;
    }
  }

  /** And that end can always be reached. */
  lemma RestCanBeReached(p: RetryPolicy, w: World) returns (steps: seq<Step>)
    requires CalmInv(p, w) && Declared(p, w.queues)
    ensures ValidRun(p, w, steps) && AllDead(Run(p, w, steps).copies)
    ensures forall i :: 0 <= i < |steps| ==> Calm(steps[i]) && !steps[i].Arrive?
  {
    var inv := (u: World) => CalmInv(p, u) && u.queues == w.queues;
    var done, effort := (u: World) => AllDead(u.copies), (u: World) => Effort(LimitsOf(p), u);
    forall u | inv(u) && !done(u) ensures exists step :: Advances(p, u, step, inv, effort) {
      var c :| c in u.copies && u.copies[c].place != Ready(DeadLetters);
      var step := MovesOn(p, u, c);
      assert Advances(p, u, step, inv, effort);
    }
    steps := StepsReach(p, w, inv, done, effort);
  }
}
