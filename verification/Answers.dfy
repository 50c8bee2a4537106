/** What a handler's answer comes to, over whole runs of the settlement machine
    (src/acemq_amqp/connection.py): what is stored for a delivery before it may be acknowledged, how long
    the consumer sleeps first, what becomes of a body nobody can read, and of what was prefetched when a
    reader stopped. */
module Answers {
  import opened Retry
  import opened Envelopes
  import opened Settlement

  function TaskOf(step: Step): Option<nat> {
    match step
    case Start(tag, _) => Some(tag)
    case Finish(tag, _, _, _) => Some(tag)
    case Wake(tag) => Some(tag)
    case Publish(tag, _, _) => Some(tag)
    case Ack(tag) => Some(tag)
    case Nack(tag) => Some(tag)
    case _ => None
  }

  // ---------------------------------------------------------------- one worker among the others

  lemma FinishedLeaves(p: RetryPolicy, w: World, other: nat, answer: Answer, age: Micros, moved: Micros, tag: nat)
    requires other in w.tasks && tag in w.tasks && other != tag
    ensures var v := Finished(p, w, other, answer, age, moved); tag in v.tasks && v.tasks[tag] == w.tasks[tag]
  {
  }

  lemma FinishedTags(p: RetryPolicy, w: World, other: nat, answer: Answer, age: Micros, moved: Micros)
    requires other in w.tasks
    ensures var v := Finished(p, w, other, answer, age, moved); v.tasks.Keys == w.tasks.Keys && v.nextTag == w.nextTag
  {
  }

  lemma PublishedTags(w: World, other: nat, reply: Reply, stored: bool)
    requires other in w.tasks && w.tasks[other].pc.Publishing?
    ensures var v := Published(w, other, reply, stored); v.tasks.Keys == w.tasks.Keys && v.nextTag == w.nextTag
  {
  }

  lemma PublishedLeaves(w: World, other: nat, reply: Reply, stored: bool, tag: nat)
    requires other in w.tasks && w.tasks[other].pc.Publishing? && tag in w.tasks && other != tag
    ensures var v := Published(w, other, reply, stored); tag in v.tasks && v.tasks[tag] == w.tasks[tag]
  {
  }

  lemma BrokerLeaves(p: RetryPolicy, w: World, step: Step, tag: nat)
    requires Enabled(w, step) && TaskOf(step).None? && tag in w.tasks && tag < w.nextTag
    requires step != Crash(w.tasks[tag].channel)
    ensures tag in Apply(p, w, step).tasks && Apply(p, w, step).tasks[tag] == w.tasks[tag]
  {
  }

  lemma OthersLeaveATask(p: RetryPolicy, w: World, step: Step, tag: nat)
    requires Enabled(w, step) && TaskOf(step) != Some(tag) && tag in w.tasks && tag < w.nextTag
    requires step != Crash(w.tasks[tag].channel)
    ensures tag in Apply(p, w, step).tasks && Apply(p, w, step).tasks[tag] == w.tasks[tag]
  {
    match step
    case Finish(other, answer, age, moved) => FinishedLeaves(p, w, other, answer, age, moved, tag);
    case Publish(other, reply, stored) => PublishedLeaves(w, other, reply, stored, tag);
    case Start(_, _) =>
    case Wake(_) =>
    case Ack(_) =>
    case Nack(_) =>
    case _ => BrokerLeaves(p, w, step, tag);
  }

  lemma GoneStaysGone(p: RetryPolicy, w: World, step: Step, tag: nat)
    requires Enabled(w, step) && tag !in w.tasks && tag < w.nextTag
    ensures tag !in Apply(p, w, step).tasks && tag < Apply(p, w, step).nextTag && TaskOf(step) != Some(tag)
  {
    match step
    case Finish(other, answer, age, moved) => FinishedTags(p, w, other, answer, age, moved);
    case Publish(other, reply, stored) => PublishedTags(w, other, reply, stored);
    case _ =>
  }

  /** What is known of a delivery while a worker has it: its message, and where its worker may be. */
  predicate InHands(w: World, tag: nat, e: Envelope, body: Body, may: Pc -> bool) {
    && tag < w.nextTag
    && (tag in w.tasks ==> w.tasks[tag].envelope == e && w.tasks[tag].body == body && may(w.tasks[tag].pc))
  }

  /** Places a worker does not leave by waking up or by however its publish ends, and in which the handler
      is not to be run. */
  ghost predicate Stays(may: Pc -> bool) {
    && (forall hop, length :: may(Sleeping(hop, length)) ==> may(Publishing(hop)))
    && (forall hop, end :: may(Publishing(hop)) ==> may(AfterPublish(hop, end)))
    && !may(Queued) && !may(Running)
  }

  lemma StepStays(p: RetryPolicy, w: World, step: Step, tag: nat, e: Envelope, body: Body, may: Pc -> bool)
    requires Enabled(w, step) && InHands(w, tag, e, body, may) && Stays(may)
    ensures InHands(Apply(p, w, step), tag, e, body, may)
    ensures step.Finish? ==> step.tag != tag
  {
    if tag !in w.tasks {
      GoneStaysGone(p, w, step, tag);
    } else if TaskOf(step) == Some(tag) {
      OwnStepStays(p, w, step, tag, may);
    } else if step != Crash(w.tasks[tag].channel) {
      OthersLeaveATask(p, w, step, tag);
      TagsGoUp(p, w, step);
    }
  }

  lemma OwnStepStays(p: RetryPolicy, w: World, step: Step, tag: nat, may: Pc -> bool)
    requires Enabled(w, step) && TaskOf(step) == Some(tag) && may(w.tasks[tag].pc) && Stays(may)
    ensures var v := Apply(p, w, step);
            && v.nextTag == w.nextTag && !step.Finish?
            && (tag in v.tasks ==> may(v.tasks[tag].pc) && v.tasks[tag] == w.tasks[tag].(pc := v.tasks[tag].pc))
  {
  }

  lemma TagsGoUp(p: RetryPolicy, w: World, step: Step)
    requires Enabled(w, step)
    ensures w.nextTag <= Apply(p, w, step).nextTag
  {
    match step
    case Finish(other, answer, age, moved) => FinishedTags(p, w, other, answer, age, moved);
    case Publish(other, reply, stored) => PublishedTags(w, other, reply, stored);
    case _ =>
  }

  predicate NotHandled(steps: seq<Step>, tag: nat) {
    forall i :: 0 <= i < |steps| ==> !(steps[i].Finish? && steps[i].tag == tag)
  }

  lemma {:induction false} RunStays(p: RetryPolicy, w: World, steps: seq<Step>, tag: nat, e: Envelope, body: Body,
                                    may: Pc -> bool)
    requires ValidRun(p, w, steps) && InHands(w, tag, e, body, may) && Stays(may)
    ensures InHands(Run(p, w, steps), tag, e, body, may) && NotHandled(steps, tag)
    decreases |steps|
  {
    if steps != [] {
      StepStays(p, w, steps[0], tag, e, body, may);
      RunStays(p, Apply(p, w, steps[0]), steps[1..], tag, e, body, may);
      assert forall i :: 0 < i < |steps| ==> steps[i] == steps[1..][i - 1];
    }
  }

  // ---------------------------------------------------------------- what is owed for an answer

  /** The queue a message is set aside on for an answer, and the reason that goes with it. */
  function SetAside(p: RetryPolicy, e: Envelope, answer: Answer, age: Micros): Option<(QueueId, string)> {
    match answer
    case Accept => None
    case InProgress(_) => None
    case Reject(why) => Some((DeadLetters, "the handler rejected it: " + why.text))
    case Park(why) => Some((ParkingLot, "the handler parked it: " + why.text))
    case NotAnAck(name) => Some((DeadLetters, "the handler returned " + name + " instead of an Ack"))
    case Again(why) =>
      if why.StopReading? then None
      else if why.Fatal? then Some((DeadLetters, "the handler reported an unprocessable message: " + why.text))
      else if e.attempt >= p.maxAttempts then
        Some((DeadLetters,
              "exhausted " + IntText(p.maxAttempts) + (if p.maxAttempts == 1 then " attempt" else " attempts")
              + ": " + why.text))
      else if p.maxMessageAge > 0 && age >= p.maxMessageAge then
        Some((DeadLetters, "exceeded the maximum message age: " + why.text))
      else None
  }

  /** How long the consumer is to wait before it puts a message back or sends it on: what the answer asks
      for, or the policy. */
  function WaitFor(p: RetryPolicy, e: Envelope, answer: Answer, age: Micros, moved: Micros): Micros {
    if answer.InProgress? && answer.delay.Some? then answer.delay.value
    else if answer.Again? && NextWait(p, e.attempt, age, moved).Some? then
      NextWait(p, e.attempt, age, moved).value.delay
    else 0
  }

  /** A message that may be stored for an answer: set aside with the reason as its error; on its own queue
      as it came, when somebody else is working on it; or one attempt further on and otherwise as it came,
      on its own queue, or on the rung of the wait when that is spent in the broker. */
  predicate Owed(p: RetryPolicy, e: Envelope, answer: Answer, age: Micros, moved: Micros, queue: QueueId,
                 sent: Envelope) {
    var aside := SetAside(p, e, answer, age);
    if aside.Some? then queue == aside.value.0 && sent == e.(error := aside.value.1)
    else if answer.InProgress? then queue == Source && sent == e
    else
      && answer.Again? && answer.why.Plain? && sent == e.(attempt := e.attempt + 1)
      && (queue == Source ||
          var wait := NextWait(p, e.attempt, age, moved);
          wait.Some? && wait.value.inBroker && queue == RungOf(wait.value.delay))
  }

  /** Where a worker may be after the answer. */
  predicate OwedPc(p: RetryPolicy, e: Envelope, answer: Answer, age: Micros, moved: Micros, pc: Pc) {
    match pc
    case Queued => false
    case Running => false
    case Sleeping(hop, length) =>
      && Owed(p, e, answer, age, moved, Target(hop), Carried(hop, e)) && !hop.ToRung?
      && length > 0 && length == WaitFor(p, e, answer, age, moved)
    case Publishing(hop) =>
      && Owed(p, e, answer, age, moved, Target(hop), Carried(hop, e))
      && (hop.ToRung? ==>
            answer.Again? && SetAside(p, e, answer, age).None? && hop.delay == WaitFor(p, e, answer, age, moved))
    case _ => true
  }

  lemma DecidedAside(p: RetryPolicy, e: Envelope, answer: Answer, age: Micros, moved: Micros)
    requires SetAside(p, e, answer, age).Some?
    ensures var aside := SetAside(p, e, answer, age).value;
            CarryOut(Decide(p, e, answer, age, moved)) == Publishing(Aside(aside.0, aside.1))
  {
    if answer.Again? && answer.why.Plain? {
      assert NextWait(p, e.attempt, age, moved).None?;
      assert Exhausted(p, e) + ": " + answer.why.text == SetAside(p, e, answer, age).value.1;
    }
  }

  lemma DecidedIsOwed(p: RetryPolicy, e: Envelope, answer: Answer, age: Micros, moved: Micros)
    ensures OwedPc(p, e, answer, age, moved, CarryOut(Decide(p, e, answer, age, moved)))
  {
    if SetAside(p, e, answer, age).Some? {
      DecidedAside(p, e, answer, age, moved);
    } else if answer.Again? && answer.why.Plain? {
      RetryLeads(p, e, answer.why, age, moved);
    }
  }

  lemma OwedStays(p: RetryPolicy, e: Envelope, answer: Answer, age: Micros, moved: Micros)
    ensures Stays(pc => OwedPc(p, e, answer, age, moved, pc))
  {
    var may := (pc: Pc) => OwedPc(p, e, answer, age, moved, pc);
    forall hop, end | may(Publishing(hop)) ensures may(AfterPublish(hop, end)) {
      assert Owed(p, e, answer, age, moved, Target(hop), Carried(hop, e));
    }
  }

  /** What a publish does to the copies, and to the worker that made it, for a delivery whose handler
      answered: a copy that is owed for the answer is stored, with the message's own bytes, or nothing is;
      and only a stored one lets the delivery be acknowledged. */
  predicate StoresWhatIsOwed(p: RetryPolicy, e: Envelope, body: Body, answer: Answer, age: Micros, moved: Micros,
                             w: World, v: World, tag: nat, stored: bool, queue: QueueId, sent: Envelope)
    requires tag in v.tasks
  {
    && (stored ==>
          && Owed(p, e, answer, age, moved, queue, sent)
          && v.copies == w.copies[w.nextCopy := Copy(sent, body, Ready(queue))])
    && (!stored ==> v.copies == w.copies && !v.tasks[tag].pc.Acking?)
  }

  lemma PublishStores(p: RetryPolicy, w: World, tag: nat, reply: Reply, stored: bool, e: Envelope, answer: Answer,
                      age: Micros, moved: Micros)
    requires Enabled(w, Publish(tag, reply, stored)) && w.tasks[tag].envelope == e
    requires OwedPc(p, e, answer, age, moved, w.tasks[tag].pc)
    ensures var hop := w.tasks[tag].pc.hop;
            StoresWhatIsOwed(p, e, w.tasks[tag].body, answer, age, moved, w, Published(w, tag, reply, stored), tag,
                             stored, Target(hop), Carried(hop, e))
  {
    AckNeedsStored(w.tasks[tag].pc.hop, reply, stored, Target(w.tasks[tag].pc.hop) in w.queues);
  }

  /** Whatever this worker does next, it stores what is owed for the answer. */
  ghost predicate AlwaysStores(p: RetryPolicy, e: Envelope, body: Body, answer: Answer, age: Micros, moved: Micros,
                               w: World, tag: nat) {
    forall reply, stored :: Enabled(w, Publish(tag, reply, stored)) ==>
      exists queue, sent ::
        StoresWhatIsOwed(p, e, body, answer, age, moved, w, Published(w, tag, reply, stored), tag, stored, queue, sent)
  }

  lemma EachPublishStores(p: RetryPolicy, w: World, tag: nat, answer: Answer, age: Micros, moved: Micros)
    requires tag in w.tasks && OwedPc(p, w.tasks[tag].envelope, answer, age, moved, w.tasks[tag].pc)
    ensures AlwaysStores(p, w.tasks[tag].envelope, w.tasks[tag].body, answer, age, moved, w, tag)
  {
    var e, body := w.tasks[tag].envelope, w.tasks[tag].body;
    forall reply, stored | Enabled(w, Publish(tag, reply, stored))
      ensures exists queue, sent ::
                StoresWhatIsOwed(p, e, body, answer, age, moved, w, Published(w, tag, reply, stored), tag, stored,
                    queue, sent)
    {
      PublishStores(p, w, tag, reply, stored, e, answer, age, moved);
    }
  }

  /** From an answer on, in every run: the handler is not run again on that delivery; the consumer sleeps
      only for it, and as long as the answer or the policy says; and each publish for it stores what is
      owed for the answer, or nothing, and an acknowledgement comes only after one that stored. */
  lemma AnswersAreKept(p: RetryPolicy, start: World, before: seq<Step>, tag: nat, answer: Answer, age: Micros,
                       moved: Micros, after: seq<Step>)
    requires Initial(start) && ValidRun(p, start, before)
    requires Enabled(Run(p, start, before), Finish(tag, answer, age, moved))
    requires ValidRun(p, Apply(p, Run(p, start, before), Finish(tag, answer, age, moved)), after)
    ensures NotHandled(after, tag)
    ensures var task := Run(p, start, before).tasks[tag];
            var w := Run(p, Apply(p, Run(p, start, before), Finish(tag, answer, age, moved)), after);
            tag in w.tasks ==>
              && !w.tasks[tag].pc.Queued? && !w.tasks[tag].pc.Running?
              && (w.tasks[tag].pc.Sleeping? ==>
                    w.tasks[tag].pc.length == WaitFor(p, task.envelope, answer, age, moved) > 0)
              && AlwaysStores(p, task.envelope, task.body, answer, age, moved, w, tag)
  {
    var w := Run(p, start, before);
    var e, body := w.tasks[tag].envelope, w.tasks[tag].body;
    var may := (pc: Pc) => OwedPc(p, e, answer, age, moved, pc);
    InitialHolds(LimitsOf(p), start);
    EveryRunKeeps(p, LimitsOf(p), start, before);
    DecidedIsOwed(p, e, answer, age, moved);
    OwedStays(p, e, answer, age, moved);
    FinishedInHands(p, w, tag, answer, age, moved, may);
    RunStays(p, Finished(p, w, tag, answer, age, moved), after, tag, e, body, may);
    var v := Run(p, Finished(p, w, tag, answer, age, moved), after);
    if tag in v.tasks {
      EachPublishStores(p, v, tag, answer, age, moved);
    }
  }

  lemma FinishedInHands(p: RetryPolicy, w: World, tag: nat, answer: Answer, age: Micros, moved: Micros, may: Pc -> bool)
    requires tag in w.tasks && tag < w.nextTag
    requires may(CarryOut(Decide(p, w.tasks[tag].envelope, answer, age, moved)))
    ensures InHands(Finished(p, w, tag, answer, age, moved), tag, w.tasks[tag].envelope, w.tasks[tag].body, may)
  {
  }

  /** The consumer sleeps before it sends a message on exactly when the answer asks it to put the message
      back later, or the wait for another attempt is to be spent here, and either is of any length. */
  lemma SleepsExactlyWhen(p: RetryPolicy, w: World, tag: nat, answer: Answer, age: Micros, moved: Micros)
    requires tag in w.tasks
    ensures var e, v := w.tasks[tag].envelope, Finished(p, w, tag, answer, age, moved);
            v.tasks[tag].pc.Sleeping? <==>
              && WaitFor(p, e, answer, age, moved) > 0
              && (answer.InProgress? ||
                  (answer.Again? && answer.why.Plain? && NextWait(p, e.attempt, age, moved).Some?
                   && !NextWait(p, e.attempt, age, moved).value.inBroker))
  {
    if answer.Again? && answer.why.Plain? {
      RetryLeads(p, w.tasks[tag].envelope, answer.why, age, moved);
    }
  }

  /** How a publish leaves its delivery: unsettled only after an error nobody caught; acknowledged, next,
      only when it was confirmed and routed; waited for here when the rung is not there; and given back
      when the broker refused it, or did not say in time, or had no such queue. */
  lemma PublishEnds(w: World, tag: nat, reply: Reply, stored: bool)
    requires Enabled(w, Publish(tag, reply, stored))
    ensures var hop, pc := w.tasks[tag].pc.hop, Published(w, tag, reply, stored).tasks[tag].pc;
            && (pc.Unsettled? <==> reply.Raised?)
            && (pc.Acking? <==> reply == Answered(true, true))
            && (hop.ToRung? && reply.Answered? && !reply.routed ==>
                  pc == if hop.delay > 0 then Sleeping(OntoSource, hop.delay) else Publishing(OntoSource))
            && (pc.Nacking? <==>
                  || reply.Blocked? || reply.NoPermit? || reply.TimedOut? || reply == Answered(false, true)
                  || (reply.Answered? && !reply.routed && !hop.ToRung?))
  {
  }

  // ---------------------------------------------------------------- given back

  /** A delivery given back, or lost with its channel or its process, is on its own queue again as it was;
      no other copy changes. */
  lemma GivenBackAsItWas(p: RetryPolicy, w: World, step: Step, c: nat)
    requires Enabled(w, step) && (step.Nack? || step.LoseChannel? || step.Crash?) && c in w.copies
    ensures var place := w.copies[c].place;
            var back := place.Held? && if step.Nack? then place.tag == step.tag else place.channel == step.channel;
            && c in Apply(p, w, step).copies
            && Apply(p, w, step).copies[c] == if back then w.copies[c].(place := Ready(Source)) else w.copies[c]
  {
  }

  // ---------------------------------------------------------------- what is set aside

  predicate There(copies: map<nat, Copy>, copy: Copy) { exists c :: c in copies && copies[c] == copy }

  /** What is set aside stays where it is, whatever happens. */
  lemma StaysAside(p: RetryPolicy, w: World, step: Step, c: nat)
    requires Enabled(w, step) && c in w.copies && w.nextCopy !in w.copies
    requires w.copies[c].place == Ready(DeadLetters) || w.copies[c].place == Ready(ParkingLot)
    ensures var v := Apply(p, w, step); c in v.copies && v.copies[c] == w.copies[c]
  {
    match step
    case Finish(tag, answer, age, moved) => FinishedCopies(p, w, tag, answer, age, moved);
    case Publish(tag, reply, stored) => PublishedCopies(w, tag, reply, stored, c);
    case Nack(_) => GivenBackAsItWas(p, w, step, c);
    case LoseChannel(_) => GivenBackAsItWas(p, w, step, c);
    case Crash(_) => GivenBackAsItWas(p, w, step, c);
    case _ =>
  }

  lemma PublishedCopies(w: World, tag: nat, reply: Reply, stored: bool, c: nat)
    requires tag in w.tasks && w.tasks[tag].pc.Publishing? && c in w.copies && w.nextCopy !in w.copies
    ensures var v := Published(w, tag, reply, stored); c in v.copies && v.copies[c] == w.copies[c]
  {
  }

  lemma FinishedCopies(p: RetryPolicy, w: World, tag: nat, answer: Answer, age: Micros, moved: Micros)
    requires tag in w.tasks
    ensures Finished(p, w, tag, answer, age, moved).copies == w.copies
  {
  }

  /** Where a worker may be that is setting its message aside. */
  predicate AsidePc(queue: QueueId, reason: string, pc: Pc) {
    pc == Publishing(Aside(queue, reason)) || pc.Acking? || pc.Nacking? || pc.Unsettled?
  }

  /** It acknowledges, or has acknowledged, only with the message set aside. */
  ghost predicate AsideFirst(w: World, tag: nat, acked: bool, copy: Copy) {
    (tag in w.tasks && w.tasks[tag].pc.Acking?) || acked ==> There(w.copies, copy)
  }

  lemma AsideStep(p: RetryPolicy, w: World, step: Step, tag: nat, acked: bool, e: Envelope, body: Body, queue: QueueId,
                  reason: string)
    requires Enabled(w, step) && w.nextCopy !in w.copies && (queue == DeadLetters || queue == ParkingLot)
    requires InHands(w, tag, e, body, pc => AsidePc(queue, reason, pc))
    requires AsideFirst(w, tag, acked, Copy(e.(error := reason), body, Ready(queue)))
    ensures AsideFirst(Apply(p, w, step), tag, acked || step == Ack(tag), Copy(e.(error := reason), body, Ready(queue)))
  {
    var copy := Copy(e.(error := reason), body, Ready(queue));
    if There(w.copies, copy) {
      var c :| c in w.copies && w.copies[c] == copy;
      StaysAside(p, w, step, c);
    } else if tag !in w.tasks {
      GoneStaysGone(p, w, step, tag);
    } else if TaskOf(step) == Some(tag) {
      OwnAsideStep(p, w, step, tag, e, body, queue, reason);
    } else if step != Crash(w.tasks[tag].channel) {
      OthersLeaveATask(p, w, step, tag);
    }
  }

  lemma OwnAsideStep(p: RetryPolicy, w: World, step: Step, tag: nat, e: Envelope, body: Body, queue: QueueId,
                     reason: string)
    requires Enabled(w, step) && TaskOf(step) == Some(tag) && !w.tasks[tag].pc.Acking?
    requires InHands(w, tag, e, body, pc => AsidePc(queue, reason, pc))
    ensures var v := Apply(p, w, step);
            tag in v.tasks && v.tasks[tag].pc.Acking? ==> There(v.copies, Copy(e.(error := reason), body, Ready(queue)))
  {
    if step.Publish? {
      var v := Apply(p, w, step);
      AckNeedsStored(Aside(queue, reason), step.reply, step.stored, queue in w.queues);
      if v.tasks[tag].pc.Acking? {
        assert v.copies[w.nextCopy] == Copy(e.(error := reason), body, Ready(queue));
      }
    }
  }

  lemma AsideStays(queue: QueueId, reason: string)
    ensures Stays(pc => AsidePc(queue, reason, pc))
  {
  }

  lemma {:induction false} AsideRun(p: RetryPolicy, t: Limits, w: World, steps: seq<Step>, tag: nat, acked: bool,
                                    e: Envelope, body: Body, queue: QueueId, reason: string)
    requires t == LimitsOf(p) && Inv(t, w) && ValidRun(p, w, steps) && (queue == DeadLetters || queue == ParkingLot)
    requires InHands(w, tag, e, body, pc => AsidePc(queue, reason, pc))
    requires AsideFirst(w, tag, acked, Copy(e.(error := reason), body, Ready(queue)))
    ensures AsideFirst(Run(p, w, steps), tag, acked || Ack(tag) in steps, Copy(e.(error := reason), body, Ready(queue)))
    decreases |steps|
  {
    if steps != [] {
      AsideStays(queue, reason);
      SoundAt(t, w);
      AsideStep(p, w, steps[0], tag, acked, e, body, queue, reason);
      StepStays(p, w, steps[0], tag, e, body, pc => AsidePc(queue, reason, pc));
      StepKeeps(p, t, w, steps[0]);
      AsideRun(p, t, Apply(p, w, steps[0]), steps[1..], tag, acked || steps[0] == Ack(tag), e, body, queue, reason);
      assert steps == [steps[0]] + steps[1..];
    }
  }

  /** A delivery whose worker has set out to set it aside: no handler is run on it from there; and if it is
      acknowledged, its message is on that queue from then on, with its own bytes and metadata and the
      reason as its error. */
  lemma SetAsideIsThere(p: RetryPolicy, w: World, tag: nat, queue: QueueId, reason: string, after: seq<Step>)
    requires Inv(LimitsOf(p), w) && (queue == DeadLetters || queue == ParkingLot) && ValidRun(p, w, after)
    requires tag in w.tasks && w.tasks[tag].pc == Publishing(Aside(queue, reason))
    ensures NotHandled(after, tag)
    ensures Ack(tag) in after ==>
              There(Run(p, w, after).copies,
                    Copy(w.tasks[tag].envelope.(error := reason), w.tasks[tag].body, Ready(queue)))
  {
    var e, body := w.tasks[tag].envelope, w.tasks[tag].body;
    AsideStays(queue, reason);
    RunStays(p, w, after, tag, e, body, pc => AsidePc(queue, reason, pc));
    AsideRun(p, LimitsOf(p), w, after, tag, false, e, body, queue, reason);
  }

  /** A body nobody can read: no handler runs, and when the delivery is acknowledged the message is in the
      parking lot, with the reason. */
  lemma UnreadableIsParked(p: RetryPolicy, start: World, before: seq<Step>, tag: nat, failure: string, after: seq<Step>)
    requires Initial(start) && ValidRun(p, start, before)
    requires Enabled(Run(p, start, before), Start(tag, Some(failure)))
    requires Run(p, start, before).tasks[tag].channel !in Run(p, start, before).halted
    requires ValidRun(p, Apply(p, Run(p, start, before), Start(tag, Some(failure))), after)
    ensures NotHandled(after, tag)
    ensures var task := Run(p, start, before).tasks[tag];
            Ack(tag) in after ==>
              There(Run(p, Apply(p, Run(p, start, before), Start(tag, Some(failure))), after).copies,
                    Copy(task.envelope.(error := "could not be decoded: " + failure), task.body, Ready(ParkingLot)))
  {
    var w := Run(p, start, before);
    InitialHolds(LimitsOf(p), start);
    EveryRunKeeps(p, LimitsOf(p), start, before);
    StepKeeps(p, LimitsOf(p), w, Start(tag, Some(failure)));
    SetAsideIsThere(p, Started(w, tag, Some(failure)), tag, ParkingLot, "could not be decoded: " + failure, after);
  }

  /** An answer that sets a message aside: when its delivery is acknowledged, the message is on the queue
      meant for that answer, with the reason. */
  lemma AnswersSetAside(p: RetryPolicy, start: World, before: seq<Step>, tag: nat, answer: Answer, age: Micros,
                        moved: Micros, after: seq<Step>)
    requires Initial(start) && ValidRun(p, start, before)
    requires Enabled(Run(p, start, before), Finish(tag, answer, age, moved))
    requires ValidRun(p, Apply(p, Run(p, start, before), Finish(tag, answer, age, moved)), after)
    requires SetAside(p, Run(p, start, before).tasks[tag].envelope, answer, age).Some?
    ensures var task := Run(p, start, before).tasks[tag];
            var aside := SetAside(p, task.envelope, answer, age).value;
            Ack(tag) in after ==>
              There(Run(p, Apply(p, Run(p, start, before), Finish(tag, answer, age, moved)), after).copies,
                    Copy(task.envelope.(error := aside.1), task.body, Ready(aside.0)))
  {
    var w := Run(p, start, before);
    var aside := SetAside(p, w.tasks[tag].envelope, answer, age).value;
    InitialHolds(LimitsOf(p), start);
    EveryRunKeeps(p, LimitsOf(p), start, before);
    StepKeeps(p, LimitsOf(p), w, Finish(tag, answer, age, moved));
    DecidedAside(p, w.tasks[tag].envelope, answer, age, moved);
    SetAsideIsThere(p, Finished(p, w, tag, answer, age, moved), tag, aside.0, aside.1, after);
  }

  // ---------------------------------------------------------------- after a reader has stopped

  /** A delivery that waits unhandled in a stopped consumer, if it is on that one's channel. */
  predicate HeldBack(w: World, channel: nat, tag: nat) {
    && channel in w.halted
    && (tag in w.tasks && w.tasks[tag].channel == channel ==> w.tasks[tag].pc.Queued? || w.tasks[tag].pc.Nacking?)
  }

  /** No handler answers for this delivery while it is one of that channel. */
  predicate NeverHandled(p: RetryPolicy, w: World, steps: seq<Step>, channel: nat, tag: nat)
    requires ValidRun(p, w, steps)
    decreases |steps|
  {
    steps == [] ||
    (&& !(steps[0].Finish? && steps[0].tag == tag && w.tasks[tag].channel == channel)
     && NeverHandled(p, Apply(p, w, steps[0]), steps[1..], channel, tag))
  }

  lemma FinishHoldsBack(p: RetryPolicy, w: World, other: nat, answer: Answer, age: Micros, moved: Micros, channel: nat,
                        tag: nat)
    requires other in w.tasks && w.tasks[other].pc.Running? && HeldBack(w, channel, tag)
    ensures HeldBack(Finished(p, w, other, answer, age, moved), channel, tag)
  {
  }

  lemma PublishHoldsBack(w: World, other: nat, reply: Reply, stored: bool, channel: nat, tag: nat)
    requires other in w.tasks && w.tasks[other].pc.Publishing? && HeldBack(w, channel, tag)
    ensures HeldBack(Published(w, other, reply, stored), channel, tag)
  {
  }

  lemma StepHoldsBack(p: RetryPolicy, w: World, step: Step, channel: nat, tag: nat)
    requires Enabled(w, step) && HeldBack(w, channel, tag)
    ensures HeldBack(Apply(p, w, step), channel, tag)
    ensures !(step.Finish? && step.tag == tag && w.tasks[tag].channel == channel)
  {
    match step
    case Finish(other, answer, age, moved) => FinishHoldsBack(p, w, other, answer, age, moved, channel, tag);
    case Publish(other, reply, stored) => PublishHoldsBack(w, other, reply, stored, channel, tag);
    case _ =>
  }

  lemma {:induction false} StoppedStaysStopped(p: RetryPolicy, w: World, steps: seq<Step>, channel: nat, tag: nat)
    requires ValidRun(p, w, steps) && HeldBack(w, channel, tag)
    ensures HeldBack(Run(p, w, steps), channel, tag) && NeverHandled(p, w, steps, channel, tag)
    decreases |steps|
  {
    if steps != [] {
      StepHoldsBack(p, w, steps[0], channel, tag);
      StoppedStaysStopped(p, Apply(p, w, steps[0]), steps[1..], channel, tag);
    }
  }

  /** Nothing after the message a reader stopped at is handled: whatever was prefetched on its channel and
      not started, and whatever is delivered there later, stays queued in the consumer or is given back. */
  lemma NothingAfterTheStop(p: RetryPolicy, w: World, stop: nat, why: Failure, age: Micros, moved: Micros,
                            after: seq<Step>, tag: nat)
    requires Enabled(w, Finish(stop, Again(why), age, moved)) && why.StopReading?
    requires ValidRun(p, Apply(p, w, Finish(stop, Again(why), age, moved)), after)
    requires tag in w.tasks ==> w.tasks[tag].pc.Queued?
    ensures var channel, v := w.tasks[stop].channel, Apply(p, w, Finish(stop, Again(why), age, moved));
            && NeverHandled(p, v, after, channel, tag)
            && var u := Run(p, v, after);
               tag in u.tasks && u.tasks[tag].channel == channel ==> u.tasks[tag].pc.Queued? || u.tasks[tag].pc.Nacking?
  {
    StoppedStaysStopped(p, Finished(p, w, stop, Again(why), age, moved), after, w.tasks[stop].channel, tag);
  }
}
