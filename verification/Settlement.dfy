/** The consumer's settlement engine against a broker (src/acemq_amqp/connection.py): what a
    delivery's answer turns into, and the state machine whose steps are the code between two
    `await`s, interleaved with everything else that can happen meanwhile. */
module Settlement {
  import opened Retry
  import opened Envelopes
  import Naming

  // ---------------------------------------------------------------- deciding

  datatype Failure = Plain(text: string) | Fatal(text: string) | StopReading(text: string)

  /** What a handler answered; an exception it raises is `Again(Plain(...))`. */
  datatype Answer =
    | Accept
    | Again(why: Failure)
    | Reject(why: Failure)
    | Park(why: Failure)
    | InProgress(delay: Option<Micros>)
    | NotAnAck(typeName: string)

  datatype Outcome = Acked | Retried | Rejected | DeadLettered | Parked | HeldElsewhere | Stopped

  datatype Decision = Decision(outcome: Outcome, reason: string, wait: Option<Wait>)

  function Exhausted(p: RetryPolicy, e: Envelope): string {
    if e.attempt >= p.maxAttempts
    then "exhausted " + IntText(p.maxAttempts) + (if p.maxAttempts == 1 then " attempt" else " attempts")
    else "exceeded the maximum message age"
  }

  /** `_decide`, with the age of the message and the delay jitter would give it. */
  function Decide(p: RetryPolicy, e: Envelope, answer: Answer, age: Micros, moved: Micros): Decision {
    match answer
    case Accept => Decision(Acked, "", None)
    case Reject(why) => Decision(Rejected, "the handler rejected it: " + why.text, None)
    case Park(why) => Decision(Parked, "the handler parked it: " + why.text, None)
    case InProgress(delay) =>
      Decision(HeldElsewhere, "", Some(Wait(if delay.Some? then delay.value else 0, false)))
    case NotAnAck(typeName) => Decision(DeadLettered, "the handler returned " + typeName + " instead of an Ack", None)
    case Again(why) =>
      if why.StopReading? then Decision(Stopped, "the reader stopped at it: " + why.text, None)
      else if why.Fatal? then Decision(DeadLettered, "the handler reported an unprocessable message: " + why.text, None)
      else
        var wait := NextWait(p, e.attempt, age, moved);
        if wait.None? then Decision(DeadLettered, Exhausted(p, e) + ": " + why.text, None)
        else Decision(Retried, "", wait)
  }

  // ---------------------------------------------------------------- carrying out

  /** The queues of one consumer. A rung is known by its whole seconds, which is what its name
      tells apart (`QueueIdsAreNames`). */
  datatype QueueId = Source | Rung(seconds: nat) | DeadLetters | ParkingLot

  function NameOf(queue: string, id: QueueId): string {
    match id
    case Source => queue
    case Rung(seconds) => Naming.RetryQueue(queue, seconds * Naming.SECOND)
    case DeadLetters => Naming.DeadLetterQueue(queue)
    case ParkingLot => Naming.ParkedQueue(queue)
  }

  function RungOf(delay: Micros): QueueId { Rung(Max(Naming.Seconds(delay), 0)) }

  lemma NamesTellApart(queue: string, a: QueueId, b: QueueId)
    ensures NameOf(queue, a) == NameOf(queue, b) <==> a == b
  {
    var seconds := if a.Rung? then a.seconds else if b.Rung? then b.seconds else 0;
    Naming.NamesApart(queue, seconds * Naming.SECOND);
    if a.Rung? && b.Rung? {
      Naming.SameNameExactlyWhen(queue, a.seconds * Naming.SECOND, b.seconds * Naming.SECOND);
    }
  }

  /** A queue of the model is another exactly when their names are the same, and the rung of a delay
      exactly when it has the name a message is sent to for that delay. */
  lemma QueueIdsAreNames(queue: string, a: QueueId, b: QueueId, delay: Micros)
    ensures NameOf(queue, a) == NameOf(queue, b) <==> a == b
    ensures NameOf(queue, a) == Naming.RetryQueue(queue, delay) <==> a == RungOf(delay)
  {
    NamesTellApart(queue, a, b);
    NamesTellApart(queue, a, RungOf(delay));
  }

  /** A republish the consumer makes on the message's behalf. */
  datatype Hop = ToRung(delay: Micros) | OntoSource | PutBack | Aside(target: QueueId, reason: string)

  function Target(hop: Hop): QueueId {
    match hop
    case ToRung(delay) => RungOf(delay)
    case OntoSource => Source
    case PutBack => Source
    case Aside(target, _) => target
  }

  function Carried(hop: Hop, e: Envelope): Envelope {
    match hop
    case ToRung(_) => e.(attempt := e.attempt + 1)
    case OntoSource => e.(attempt := e.attempt + 1)
    case PutBack => e
    case Aside(_, reason) => e.(error := reason)
  }

  /** Where a worker is in handling its delivery, and how long it sleeps if it does. */
  datatype Pc =
    | Queued | Running | Sleeping(hop: Hop, length: Micros) | Publishing(hop: Hop) | Acking | Nacking | Unsettled

  /** `_carry_out`, up to its first await. */
  function CarryOut(d: Decision): Pc {
    if d.outcome.Acked? then Acking
    else if d.outcome.Stopped? then Nacking
    else if d.outcome.Parked? then Publishing(Aside(ParkingLot, d.reason))
    else if d.wait.None? then Publishing(Aside(DeadLetters, d.reason))
    else if d.outcome.HeldElsewhere? then
      if d.wait.value.delay > 0 then Sleeping(PutBack, d.wait.value.delay) else Publishing(PutBack)
    else if d.wait.value.inBroker then Publishing(ToRung(d.wait.value.delay))
    else if d.wait.value.delay > 0 then Sleeping(OntoSource, d.wait.value.delay) else Publishing(OntoSource)
  }

  /** How a publish ended for `publish_raw`: refused before it was sent, answered by the broker,
      unconfirmed in time, or broken by an error that is not the library's own. */
  datatype Reply = Blocked | NoPermit | Answered(confirmed: bool, routed: bool) | TimedOut | Raised

  datatype End = Routed | Unrouted | Refused | Broke

  function EndOf(reply: Reply): End {
    match reply
    case Blocked => Refused
    case NoPermit => Refused
    case TimedOut => Refused
    case Raised => Broke
    case Answered(confirmed, routed) =>
      if !confirmed && routed then Refused else if routed then Routed else Unrouted
  }

  /** Whether a broker can give this reply and keep, or not keep, the message: it keeps nothing it
      was not sent or could not route, and what it confirms and routes is on the queue. */
  predicate Possible(reply: Reply, stored: bool, queueExists: bool) {
    && (stored ==> queueExists && !reply.Blocked? && !reply.NoPermit?)
    && (reply.Answered? && !reply.routed ==> !stored)
    && (reply == Answered(true, true) ==> stored)
  }

  /** What each hop does with the end of its publish: a missing rung is waited for here instead,
      a refusal gives the delivery back, and an error nobody catches leaves it unsettled. */
  function AfterPublish(hop: Hop, end: End): Pc {
    match end
    case Routed => Acking
    case Broke => Unsettled
    case Refused => Nacking
    case Unrouted =>
      if hop.ToRung? then if hop.delay > 0 then Sleeping(OntoSource, hop.delay) else Publishing(OntoSource) else Nacking
  }

  // ---------------------------------------------------------------- the machine

  datatype Body = Body(bytes: seq<int>, contentType: string)

  datatype Place = Ready(queue: QueueId) | Held(tag: nat, channel: nat)

  datatype Copy = Copy(envelope: Envelope, body: Body, place: Place)

  datatype Task = Task(copy: nat, channel: nat, envelope: Envelope, body: Body, pc: Pc)

  datatype Original = Original(envelope: Envelope, body: Body)

  /** The broker's copies and queues, the consumers' workers by delivery tag, and, for stating
      what must hold, every message that was published and how often each was handled. */
  datatype World = World(
    copies: map<nat, Copy>, nextCopy: nat,
    tasks: map<nat, Task>, nextTag: nat,
    queues: set<QueueId>, homeBound: bool, halted: set<nat>,
    originals: map<string, Original>, runs: map<string, nat>)

  datatype Step =
    | Arrive(envelope: Envelope, body: Body)
    | Deliver(copy: nat, channel: nat)
    | Start(tag: nat, unreadable: Option<string>)
    | Finish(tag: nat, answer: Answer, age: Micros, moved: Micros)
    | Wake(tag: nat)
    | Publish(tag: nat, reply: Reply, stored: bool)
    | Ack(tag: nat)
    | Nack(tag: nat)
    | Expire(copy: nat)
    | LoseChannel(channel: nat)
    | Crash(channel: nat)
    | Declare(queue: QueueId)
    | Delete(queue: QueueId)

  predicate AtPc(w: World, tag: nat, p: Pc -> bool) { tag in w.tasks && p(w.tasks[tag].pc) }

  predicate Enabled(w: World, step: Step) {
    match step
    case Arrive(e, body) =>
      && Normal(e) && Source in w.queues
      && (e.id in w.originals ==> w.originals[e.id] == Original(e, body))
    case Deliver(copy, _) => copy in w.copies && w.copies[copy].place == Ready(Source)
    case Start(tag, _) => AtPc(w, tag, (pc: Pc) => pc.Queued?)
    case Finish(tag, _, _, _) => AtPc(w, tag, (pc: Pc) => pc.Running?)
    case Wake(tag) => AtPc(w, tag, (pc: Pc) => pc.Sleeping?)
    case Publish(tag, reply, stored) =>
      && AtPc(w, tag, (pc: Pc) => pc.Publishing?)
      && Possible(reply, stored, Target(w.tasks[tag].pc.hop) in w.queues)
    case Ack(tag) => AtPc(w, tag, (pc: Pc) => pc.Acking?)
    case Nack(tag) => AtPc(w, tag, (pc: Pc) => pc.Nacking?)
    case Expire(copy) => copy in w.copies && w.copies[copy].place.Ready? && w.copies[copy].place.queue.Rung?
    case LoseChannel(_) => true
    case Crash(_) => true
    case Declare(_) => true
    case Delete(queue) => queue != Source && forall c :: c in w.copies ==> w.copies[c].place != Ready(queue)
  }

  function Moved(w: World, tag: nat, pc: Pc): World
    requires tag in w.tasks
  {
    w.(tasks := w.tasks[tag := w.tasks[tag].(pc := pc)])
  }

  predicate HeldBy(copy: Copy, tag: nat) { copy.place.Held? && copy.place.tag == tag }

  function Requeued(copies: map<nat, Copy>, back: Copy -> bool): map<nat, Copy> {
    map c | c in copies :: if back(copies[c]) then copies[c].(place := Ready(Source)) else copies[c]
  }

  function Started(w: World, tag: nat, unreadable: Option<string>): World
    requires tag in w.tasks
  {
    if w.tasks[tag].channel in w.halted then Moved(w, tag, Nacking)
    else if unreadable.Some?
    then Moved(w, tag, Publishing(Aside(ParkingLot, "could not be decoded: " + unreadable.value)))
    else Moved(w, tag, Running)
  }

  function Count(runs: map<string, nat>, id: string): nat { if id in runs then runs[id] else 0 }

  function Finished(p: RetryPolicy, w: World, tag: nat, answer: Answer, age: Micros, moved: Micros): World
    requires tag in w.tasks
  {
    var e := w.tasks[tag].envelope;
    var d := Decide(p, e, answer, age, moved);
    Moved(w, tag, CarryOut(d)).(
      halted := if d.outcome.Stopped? then w.halted + {w.tasks[tag].channel} else w.halted,
      runs := w.runs[e.id := Count(w.runs, e.id) + 1])
  }

  function WithCopy(w: World, copy: Copy): World {
    w.(copies := w.copies[w.nextCopy := copy], nextCopy := w.nextCopy + 1)
  }

  /** The copy a hop publishes: the original bytes, the hop's envelope. */
  function HopCopy(hop: Hop, e: Envelope, body: Body): Copy { Copy(Carried(hop, e), body, Ready(Target(hop))) }

  function Published(w: World, tag: nat, reply: Reply, stored: bool): World
    requires tag in w.tasks && w.tasks[tag].pc.Publishing?
  {
    var task := w.tasks[tag];
    var kept := if stored then WithCopy(w, HopCopy(task.pc.hop, task.envelope, task.body)) else w;
    Moved(kept, tag, AfterPublish(task.pc.hop, EndOf(reply)))
  }

  function Arrived(w: World, e: Envelope, body: Body): World {
    WithCopy(w, Copy(e, body, Ready(Source))).(originals := w.originals[e.id := Original(e, body)])
  }

  function Delivered(w: World, copy: nat, channel: nat): World
    requires copy in w.copies
  {
    var c := w.copies[copy];
    w.(copies := w.copies[copy := c.(place := Held(w.nextTag, channel))],
       tasks := w.tasks[w.nextTag := Task(copy, channel, c.envelope, c.body, Queued)], nextTag := w.nextTag + 1)
  }

  function Acknowledged(w: World, tag: nat): World {
    w.(copies := map c | c in w.copies && !HeldBy(w.copies[c], tag) :: w.copies[c], tasks := w.tasks - {tag})
  }

  function Returned(w: World, tag: nat): World {
    w.(copies := Requeued(w.copies, (c: Copy) => HeldBy(c, tag)), tasks := w.tasks - {tag})
  }

  /** The rung's dead-letter route, through the retry exchange to the source queue. */
  function Expired(w: World, copy: nat): World
    requires copy in w.copies
  {
    w.(copies := if w.homeBound && Source in w.queues then w.copies[copy := w.copies[copy].(place := Ready(Source))]
                 else w.copies - {copy})
  }

  /** A channel goes: the broker takes back what was unsettled on it. Its workers may live on, with
      deliveries they can no longer settle, or be gone with their process. */
  function Dropped(w: World, channel: nat, workersGo: bool): World {
    w.(copies := Requeued(w.copies, (c: Copy) => c.place.Held? && c.place.channel == channel),
       tasks := if workersGo then map tag | tag in w.tasks && w.tasks[tag].channel != channel :: w.tasks[tag]
                else w.tasks)
  }

  function Apply(p: RetryPolicy, w: World, step: Step): World
    requires Enabled(w, step)
  {
    match step
    case Arrive(e, body) => Arrived(w, e, body)
    case Deliver(copy, channel) => Delivered(w, copy, channel)
    case Start(tag, unreadable) => Started(w, tag, unreadable)
    case Finish(tag, answer, age, moved) => Finished(p, w, tag, answer, age, moved)
    case Wake(tag) => Moved(w, tag, Publishing(w.tasks[tag].pc.hop))
    case Publish(tag, reply, stored) => Published(w, tag, reply, stored)
    case Ack(tag) => Acknowledged(w, tag)
    case Nack(tag) => Returned(w, tag)
    case Expire(copy) => Expired(w, copy)
    case LoseChannel(channel) => Dropped(w, channel, false)
    case Crash(channel) => Dropped(w, channel, true)
    case Declare(queue) => w.(queues := w.queues + {queue})
    case Delete(queue) => w.(queues := w.queues - {queue})
  }

  /** A run: every step enabled where it is taken. */
  predicate ValidRun(p: RetryPolicy, w: World, steps: seq<Step>)
    decreases |steps|
  {
    steps == [] || (Enabled(w, steps[0]) && ValidRun(p, Apply(p, w, steps[0]), steps[1..]))
  }

  function Run(p: RetryPolicy, w: World, steps: seq<Step>): World
    requires ValidRun(p, w, steps)
    decreases |steps|
  {
    if steps == [] then w else Run(p, Apply(p, w, steps[0]), steps[1..])
  }

  /** A consumer that has just declared its topology: nothing published, nothing in flight. */
  predicate Initial(w: World) {
    && w.copies == map[] && w.tasks == map[] && w.originals == map[] && w.runs == map[]
    && Source in w.queues && w.homeBound
  }

  // ---------------------------------------------------------------- what every step keeps

  /** The envelope a message was first published with, but for its attempt and its error. */
  predicate SameMessage(e: Envelope, original: Envelope) {
    e == original.(attempt := e.attempt, error := e.error)
  }

  type Originals = map<string, Original>

  /** What of a policy limits where its messages go: the last attempt, and the rungs. */
  datatype Limits = Limits(maxAttempts: int, rungs: seq<Micros>)

  function LimitsOf(p: RetryPolicy): Limits { Limits(p.maxAttempts, BrokerRungs(p)) }

  predicate Descends(t: Limits, originals: Originals, e: Envelope, body: Body) {
    && e.id in originals
    && SameMessage(e, originals[e.id].envelope)
    && body == originals[e.id].body
    && originals[e.id].envelope.attempt <= e.attempt <= Max(t.maxAttempts, originals[e.id].envelope.attempt)
  }

  predicate RungDeclared(t: Limits, seconds: nat) {
    exists delay :: delay in t.rungs && RungOf(delay) == Rung(seconds)
  }

  predicate PlaceAllowed(t: Limits, place: Place) {
    place.Ready? && place.queue.Rung? ==> RungDeclared(t, place.queue.seconds)
  }

  predicate HopAllowed(t: Limits, e: Envelope, hop: Hop) {
    match hop
    case ToRung(delay) => e.attempt < t.maxAttempts && delay in t.rungs
    case OntoSource => e.attempt < t.maxAttempts
    case PutBack => true
    case Aside(target, reason) => (target == DeadLetters || target == ParkingLot) && reason != ""
  }

  predicate PcAllowed(t: Limits, e: Envelope, pc: Pc) {
    pc.Sleeping? || pc.Publishing? ==> HopAllowed(t, e, pc.hop)
  }

  predicate CopiesSound(t: Limits, originals: Originals, copies: map<nat, Copy>, nextCopy: nat) {
    && (forall c :: c in copies ==> c < nextCopy)
    && (forall c :: c in copies ==> Descends(t, originals, copies[c].envelope, copies[c].body))
    && (forall c :: c in copies ==> PlaceAllowed(t, copies[c].place))
  }

  predicate TasksSound(t: Limits, originals: Originals, tasks: map<nat, Task>, nextTag: nat) {
    && (forall tag :: tag in tasks ==> tag < nextTag)
    && (forall tag :: tag in tasks ==> Descends(t, originals, tasks[tag].envelope, tasks[tag].body))
    && (forall tag :: tag in tasks ==> PcAllowed(t, tasks[tag].envelope, tasks[tag].pc))
  }

  /** A held copy is in the hands of the worker with its tag, which holds no other. */
  predicate HoldsSound(copies: map<nat, Copy>, tasks: map<nat, Task>) {
    forall c :: c in copies && copies[c].place.Held? ==>
      && copies[c].place.tag in tasks
      && HeldIn(c, copies[c], tasks[copies[c].place.tag])
  }

  predicate HeldIn(c: nat, copy: Copy, task: Task)
    requires copy.place.Held?
  {
    task.copy == c && task.channel == copy.place.channel && task.envelope == copy.envelope && task.body == copy.body
  }

  predicate OriginalsSound(originals: Originals) {
    forall id :: id in originals ==> originals[id].envelope.id == id && Normal(originals[id].envelope)
  }

  ghost predicate Inv(t: Limits, w: World) {
    && Source in w.queues && w.homeBound
    && OriginalsSound(w.originals)
    && CopiesSound(t, w.originals, w.copies, w.nextCopy)
    && TasksSound(t, w.originals, w.tasks, w.nextTag)
    && HoldsSound(w.copies, w.tasks)
  }

  lemma RetryAllowed(p: RetryPolicy, t: Limits, e: Envelope, age: Micros, moved: Micros)
    requires e.attempt >= 1 && t == LimitsOf(p)
    ensures var wait := NextWait(p, e.attempt, age, moved);
            wait.Some? ==> e.attempt < t.maxAttempts && (wait.value.inBroker ==> wait.value.delay in t.rungs)
  {
    BrokerWaitsAreRungs(p, e.attempt, age, moved);
  }

  lemma DecisionAllowed(p: RetryPolicy, t: Limits, e: Envelope, answer: Answer, age: Micros, moved: Micros)
    requires e.attempt >= 1 && t == LimitsOf(p)
    ensures PcAllowed(t, e, CarryOut(Decide(p, e, answer, age, moved)))
  {
    if answer.Again? && answer.why.Plain? {
      RetryAllowed(p, t, e, age, moved);
      RetryLeads(p, e, answer.why, age, moved);
    } else {
    }
  }

  /** A failure leads where its wait says, and without one to the dead letters. */
  lemma RetryLeads(p: RetryPolicy, e: Envelope, why: Failure, age: Micros, moved: Micros)
    requires why.Plain?
    ensures var wait, pc := NextWait(p, e.attempt, age, moved), CarryOut(Decide(p, e, Again(why), age, moved));
            && (wait.None? ==> pc.Publishing? && pc.hop.Aside? && pc.hop.target == DeadLetters && pc.hop.reason != "")
            && (wait.Some? && wait.value.inBroker ==> pc == Publishing(ToRung(wait.value.delay)))
            && (wait.Some? && !wait.value.inBroker ==>
                  pc == if wait.value.delay > 0 then Sleeping(OntoSource, wait.value.delay) else Publishing(OntoSource))
  {
  }

  lemma AfterAllowed(t: Limits, e: Envelope, hop: Hop, end: End)
    requires HopAllowed(t, e, hop)
    ensures var pc := AfterPublish(hop, end);
            && (pc.Acking? <==> end.Routed?)
            && (pc.Sleeping? || pc.Publishing? ==> HopAllowed(t, e, pc.hop))
  {
  }

  lemma OriginalAdded(t: Limits, originals: Originals, o: Original, copies: map<nat, Copy>, nextCopy: nat,
                      tasks: map<nat, Task>, nextTag: nat)
    requires o.envelope.id !in originals
    requires CopiesSound(t, originals, copies, nextCopy) && TasksSound(t, originals, tasks, nextTag)
    ensures CopiesSound(t, originals[o.envelope.id := o], copies, nextCopy)
    ensures TasksSound(t, originals[o.envelope.id := o], tasks, nextTag)
  {
    var id := o.envelope.id;
    forall c | c in copies ensures Descends(t, originals[id := o], copies[c].envelope, copies[c].body) {
    }
    forall tag | tag in tasks ensures Descends(t, originals[id := o], tasks[tag].envelope, tasks[tag].body) {
    }
  }

  /** A copy stored, or put in another place. */
  lemma CopyPut(t: Limits, originals: Originals, copies: map<nat, Copy>, nextCopy: nat, c: nat, copy: Copy)
    requires CopiesSound(t, originals, copies, nextCopy) && c <= nextCopy
    requires Descends(t, originals, copy.envelope, copy.body) && PlaceAllowed(t, copy.place)
    ensures CopiesSound(t, originals, copies[c := copy], if c == nextCopy then nextCopy + 1 else nextCopy)
  {
  }

  lemma ReadyPut(copies: map<nat, Copy>, tasks: map<nat, Task>, c: nat, copy: Copy)
    requires HoldsSound(copies, tasks) && copy.place.Ready?
    ensures HoldsSound(copies[c := copy], tasks)
  {
  }

  lemma HeldPut(copies: map<nat, Copy>, tasks: map<nat, Task>, c: nat, copy: Copy, pc: Pc)
    requires HoldsSound(copies, tasks) && copy.place.Held? && copy.place.tag !in tasks
    ensures var task := Task(c, copy.place.channel, copy.envelope, copy.body, pc);
            HoldsSound(copies[c := copy], tasks[copy.place.tag := task])
  {
    var tag := copy.place.tag;
    var more := tasks[tag := Task(c, copy.place.channel, copy.envelope, copy.body, pc)];
    assert forall t :: t in tasks ==> t != tag && more[t] == tasks[t];
  }

  /** The same message published a second time: one copy more. */
  lemma ArrivedAgainKeeps(t: Limits, w: World, e: Envelope, body: Body)
    requires Inv(t, w) && e.id in w.originals && w.originals[e.id] == Original(e, body)
    ensures Inv(t, Arrived(w, e, body))
  {
    var v := Arrived(w, e, body);
    var copy := Copy(e, body, Ready(Source));
    assert v.originals == w.originals && Descends(t, w.originals, e, body);
    CopyPut(t, w.originals, w.copies, w.nextCopy, w.nextCopy, copy);
    ReadyPut(w.copies, w.tasks, w.nextCopy, copy);
  }

  lemma ArrivedKeeps(t: Limits, w: World, e: Envelope, body: Body)
    requires Inv(t, w) && Normal(e) && e.id !in w.originals
    ensures Inv(t, Arrived(w, e, body))
  {
    var v := Arrived(w, e, body);
    var copy := Copy(e, body, Ready(Source));
    OriginalAdded(t, w.originals, Original(e, body), w.copies, w.nextCopy, w.tasks, w.nextTag);
    assert Descends(t, v.originals, e, body);
    CopyPut(t, v.originals, w.copies, w.nextCopy, w.nextCopy, copy);
    ReadyPut(w.copies, w.tasks, w.nextCopy, copy);
  }

  lemma TaskAdded(t: Limits, originals: Originals, tasks: map<nat, Task>, nextTag: nat, task: Task)
    requires TasksSound(t, originals, tasks, nextTag)
    requires Descends(t, originals, task.envelope, task.body) && PcAllowed(t, task.envelope, task.pc)
    ensures TasksSound(t, originals, tasks[nextTag := task], nextTag + 1)
  {
  }

  lemma DeliveredKeeps(t: Limits, w: World, c: nat, channel: nat)
    requires Inv(t, w) && c in w.copies && w.copies[c].place.Ready?
    ensures Inv(t, Delivered(w, c, channel))
  {
    var copy := w.copies[c].(place := Held(w.nextTag, channel));
    CopyPut(t, w.originals, w.copies, w.nextCopy, c, copy);
    HeldPut(w.copies, w.tasks, c, copy, Queued);
    TaskAdded(t, w.originals, w.tasks, w.nextTag, Task(c, channel, copy.envelope, copy.body, Queued));
  }

  lemma MovedKeeps(t: Limits, w: World, tag: nat, pc: Pc, v: World)
    requires Inv(t, w) && tag in w.tasks && PcAllowed(t, w.tasks[tag].envelope, pc)
    requires v == Moved(w, tag, pc).(halted := v.halted, runs := v.runs)
    ensures Inv(t, v)
  {
  }

  lemma StartedKeeps(t: Limits, w: World, tag: nat, unreadable: Option<string>)
    requires Inv(t, w) && tag in w.tasks
    ensures Inv(t, Started(w, tag, unreadable))
  {
    var v := Started(w, tag, unreadable);
    MovedKeeps(t, w, tag, v.tasks[tag].pc, v);
  }

  lemma WokenKeeps(t: Limits, w: World, tag: nat)
    requires Inv(t, w) && tag in w.tasks && w.tasks[tag].pc.Sleeping?
    ensures Inv(t, Moved(w, tag, Publishing(w.tasks[tag].pc.hop)))
  {
    var pc := Publishing(w.tasks[tag].pc.hop);
    assert PcAllowed(t, w.tasks[tag].envelope, w.tasks[tag].pc);
    MovedKeeps(t, w, tag, pc, Moved(w, tag, pc));
  }

  lemma FinishedKeeps(p: RetryPolicy, t: Limits, w: World, tag: nat, answer: Answer, age: Micros, moved: Micros)
    requires t == LimitsOf(p) && Inv(t, w) && tag in w.tasks
    ensures Inv(t, Finished(p, w, tag, answer, age, moved))
  {
    var e := w.tasks[tag].envelope;
    assert Descends(t, w.originals, e, w.tasks[tag].body);
    DecisionAllowed(p, t, e, answer, age, moved);
    MovedKeeps(t, w, tag, CarryOut(Decide(p, e, answer, age, moved)), Finished(p, w, tag, answer, age, moved));
  }

  /** The copy a publish makes may be stored whenever its hop may be taken. */
  lemma StoredKeeps(t: Limits, w: World, hop: Hop, e: Envelope, body: Body)
    requires Inv(t, w) && Descends(t, w.originals, e, body) && HopAllowed(t, e, hop)
    ensures Inv(t, WithCopy(w, HopCopy(hop, e, body)))
  {
    var copy := HopCopy(hop, e, body);
    CopyPut(t, w.originals, w.copies, w.nextCopy, w.nextCopy, copy);
    ReadyPut(w.copies, w.tasks, w.nextCopy, copy);
  }

  lemma PublishedKeeps(t: Limits, w: World, tag: nat, reply: Reply, stored: bool)
    requires Inv(t, w) && tag in w.tasks && w.tasks[tag].pc.Publishing?
    requires Possible(reply, stored, Target(w.tasks[tag].pc.hop) in w.queues)
    ensures Inv(t, Published(w, tag, reply, stored))
  {
    var task := w.tasks[tag];
    var hop, pc := task.pc.hop, AfterPublish(task.pc.hop, EndOf(reply));
    var kept := if stored then WithCopy(w, HopCopy(hop, task.envelope, task.body)) else w;
    assert PcAllowed(t, task.envelope, task.pc) && Descends(t, w.originals, task.envelope, task.body);
    AfterAllowed(t, task.envelope, hop, EndOf(reply));
    if stored {
      StoredKeeps(t, w, hop, task.envelope, task.body);
    }
    MovedKeeps(t, kept, tag, pc, Moved(kept, tag, pc));
  }

  lemma AcknowledgedKeeps(t: Limits, w: World, tag: nat)
    requires Inv(t, w) && tag in w.tasks && w.tasks[tag].pc.Acking?
    ensures Inv(t, Acknowledged(w, tag))
  {
    var v := Acknowledged(w, tag);
    assert HoldsSound(v.copies, v.tasks);
    assert CopiesSound(t, v.originals, v.copies, v.nextCopy);
  }

  lemma RequeueHolds(copies: map<nat, Copy>, tasks: map<nat, Task>, back: Copy -> bool, left: map<nat, Task>)
    requires HoldsSound(copies, tasks)
    requires forall tag :: tag in left ==> tag in tasks && left[tag] == tasks[tag]
    requires forall c :: c in copies && copies[c].place.Held? && copies[c].place.tag !in left ==> back(copies[c])
    ensures HoldsSound(Requeued(copies, back), left)
  {
    var requeued := Requeued(copies, back);
    assert forall c :: c in requeued && requeued[c].place.Held? ==> c in copies && requeued[c] == copies[c];
  }

  lemma RequeueCopies(t: Limits, originals: Originals, copies: map<nat, Copy>, nextCopy: nat, back: Copy -> bool)
    requires CopiesSound(t, originals, copies, nextCopy)
    ensures CopiesSound(t, originals, Requeued(copies, back), nextCopy)
  {
  }

  /** Copies that go back to the source queue, with the workers that held them gone or not. */
  lemma RequeueKeeps(t: Limits, w: World, back: Copy -> bool, v: World)
    requires Inv(t, w)
    requires v == w.(copies := Requeued(w.copies, back), tasks := v.tasks)
    requires forall tag :: tag in v.tasks ==> tag in w.tasks && v.tasks[tag] == w.tasks[tag]
    requires forall c :: c in w.copies && w.copies[c].place.Held? && w.copies[c].place.tag !in v.tasks ==>
               back(w.copies[c])
    ensures Inv(t, v)
  {
    RequeueCopies(t, w.originals, w.copies, w.nextCopy, back);
    RequeueHolds(w.copies, w.tasks, back, v.tasks);
    assert TasksSound(t, v.originals, v.tasks, v.nextTag);
  }

  lemma ExpiredKeeps(t: Limits, w: World, c: nat)
    requires Inv(t, w) && c in w.copies && w.copies[c].place.Ready?
    ensures Inv(t, Expired(w, c))
  {
    var copy := w.copies[c].(place := Ready(Source));
    CopyPut(t, w.originals, w.copies, w.nextCopy, c, copy);
    ReadyPut(w.copies, w.tasks, c, copy);
  }

  predicate IsWorkerStep(step: Step) { step.Start? || step.Finish? || step.Wake? || step.Publish? || step.Ack? }

  lemma WorkerStepKeeps(p: RetryPolicy, t: Limits, w: World, step: Step)
    requires t == LimitsOf(p) && Inv(t, w) && Enabled(w, step) && IsWorkerStep(step)
    ensures Inv(t, Apply(p, w, step))
  {
    match step
    case Start(tag, unreadable) => StartedKeeps(t, w, tag, unreadable);
    case Finish(tag, answer, age, moved) => FinishedKeeps(p, t, w, tag, answer, age, moved);
    case Wake(tag) => WokenKeeps(t, w, tag);
    case Publish(tag, reply, stored) => PublishedKeeps(t, w, tag, reply, stored);
    case Ack(tag) => AcknowledgedKeeps(t, w, tag);
  }

  lemma DroppedKeeps(t: Limits, w: World, channel: nat, workersGo: bool)
    requires Inv(t, w)
    ensures Inv(t, Dropped(w, channel, workersGo))
  {
    RequeueKeeps(t, w, (c: Copy) => c.place.Held? && c.place.channel == channel, Dropped(w, channel, workersGo));
  }

  lemma BrokerStepKeeps(p: RetryPolicy, t: Limits, w: World, step: Step)
    requires t == LimitsOf(p) && Inv(t, w) && Enabled(w, step) && !IsWorkerStep(step)
    ensures Inv(t, Apply(p, w, step))
  {
    match step
    case Arrive(e, body) =>
      if e.id in w.originals { ArrivedAgainKeeps(t, w, e, body); } else { ArrivedKeeps(t, w, e, body); }
    case Deliver(c, channel) => DeliveredKeeps(t, w, c, channel);
    case Nack(tag) => RequeueKeeps(t, w, (c: Copy) => HeldBy(c, tag), Returned(w, tag));
    case Expire(c) => ExpiredKeeps(t, w, c);
    case LoseChannel(channel) => DroppedKeeps(t, w, channel, false);
    case Crash(channel) => DroppedKeeps(t, w, channel, true);
    case Declare(_) =>
    case Delete(_) =>
  }

  lemma StepKeeps(p: RetryPolicy, t: Limits, w: World, step: Step)
    requires t == LimitsOf(p) && Inv(t, w) && Enabled(w, step)
    ensures Inv(t, Apply(p, w, step))
  {
    if IsWorkerStep(step) { WorkerStepKeeps(p, t, w, step); } else { BrokerStepKeeps(p, t, w, step); }
  }

  lemma {:induction false} EveryRunKeeps(p: RetryPolicy, t: Limits, w: World, steps: seq<Step>)
    requires t == LimitsOf(p) && Inv(t, w) && ValidRun(p, w, steps)
    ensures Inv(t, Run(p, w, steps))
    decreases |steps|
  {
    if steps != [] {
      StepKeeps(p, t, w, steps[0]);
      EveryRunKeeps(p, t, Apply(p, w, steps[0]), steps[1..]);
    }
  }

  // ---------------------------------------------------------------- the theorems

  /** Where a message may be while it is nobody's yet. */
  predicate Safe(t: Limits, place: Place) {
    || place.Held? || place.queue == Source || place.queue == DeadLetters || place.queue == ParkingLot
    || RungDeclared(t, place.queue.seconds)
  }

  /** What a run leaves to say of acknowledgements: the deliveries whose handler accepted, and the
      messages acknowledged by one of those while it still held its copy. */
  datatype Ledger = Ledger(accepting: set<nat>, acked: set<string>)

  predicate HoldsACopy(w: World, tag: nat) { exists c :: c in w.copies && HeldBy(w.copies[c], tag) }

  function Noted(w: World, l: Ledger, step: Step): Ledger
    requires Enabled(w, step)
  {
    match step
    case Finish(tag, answer, _, _) => if answer.Accept? then l.(accepting := l.accepting + {tag}) else l
    case Ack(tag) =>
      if tag in l.accepting && HoldsACopy(w, tag) then l.(acked := l.acked + {w.tasks[tag].envelope.id}) else l
    case _ => l
  }

  function LedgerOf(p: RetryPolicy, w: World, l: Ledger, steps: seq<Step>): Ledger
    requires ValidRun(p, w, steps)
    decreases |steps|
  {
    if steps == [] then l else LedgerOf(p, Apply(p, w, steps[0]), Noted(w, l, steps[0]), steps[1..])
  }

  /** Whether a message was acknowledged by a delivery whose handler accepted it. */
  predicate AckedAfterAccept(p: RetryPolicy, start: World, steps: seq<Step>, id: string)
    requires ValidRun(p, start, steps)
  {
    id in LedgerOf(p, start, Ledger({}, {}), steps).acked
  }

  /** A copy that is there until its message is acknowledged after an accept: any but one about to be
      acknowledged because another copy was stored. */
  predicate Remains(copies: map<nat, Copy>, tasks: map<nat, Task>, accepting: set<nat>, c: nat, id: string) {
    && c in copies && copies[c].envelope.id == id
    && !(copies[c].place.Held? && copies[c].place.tag in tasks && tasks[copies[c].place.tag].pc.Acking?
         && copies[c].place.tag !in accepting)
  }

  ghost predicate AckedOrThere(w: World, l: Ledger) {
    forall id :: id in w.originals ==> id in l.acked || exists c :: Remains(w.copies, w.tasks, l.accepting, c, id)
  }

  /** It is enough that every copy that remained still does, or that copy `c` does in its stead. */
  lemma StillThere(w: World, l: Ledger, v: World, m: Ledger, c: nat)
    requires AckedOrThere(w, l) && l.acked <= m.acked
    requires forall id :: id in v.originals && id !in w.originals ==> Remains(v.copies, v.tasks, m.accepting, c, id)
    requires forall b, id :: Remains(w.copies, w.tasks, l.accepting, b, id) && id !in m.acked ==>
               Remains(v.copies, v.tasks, m.accepting, b, id) || Remains(v.copies, v.tasks, m.accepting, c, id)
    ensures AckedOrThere(v, m)
  {
    forall id | id in v.originals && id !in m.acked ensures exists d :: Remains(v.copies, v.tasks, m.accepting, d, id) {
      if id in w.originals {
        var b :| Remains(w.copies, w.tasks, l.accepting, b, id);
        assert Remains(v.copies, v.tasks, m.accepting, b, id) || Remains(v.copies, v.tasks, m.accepting, c, id);
      }
    }
  }

  lemma ArrivedThere(w: World, l: Ledger, e: Envelope, body: Body)
    requires AckedOrThere(w, l) && w.nextCopy !in w.copies
    ensures AckedOrThere(Arrived(w, e, body), l)
  {
    StillThere(w, l, Arrived(w, e, body), l, w.nextCopy);
  }

  lemma DeliveredThere(w: World, l: Ledger, c: nat, channel: nat)
    requires AckedOrThere(w, l) && HoldsSound(w.copies, w.tasks) && w.nextTag !in w.tasks && c in w.copies
    ensures AckedOrThere(Delivered(w, c, channel), l)
  {
    StillThere(w, l, Delivered(w, c, channel), l, c);
  }

  /** A worker moving on, to an acknowledgement only if its handler accepted. */
  lemma MovedThere(w: World, l: Ledger, tag: nat, pc: Pc, v: World, m: Ledger)
    requires AckedOrThere(w, l) && tag in w.tasks
    requires v.copies == w.copies && v.originals == w.originals && v.tasks == w.tasks[tag := w.tasks[tag].(pc := pc)]
    requires m.acked == l.acked && l.accepting <= m.accepting && (pc.Acking? ==> tag in m.accepting)
    ensures AckedOrThere(v, m)
  {
    StillThere(w, l, v, m, 0);
  }

  lemma FinishedThere(p: RetryPolicy, w: World, l: Ledger, tag: nat, answer: Answer, age: Micros, moved: Micros)
    requires AckedOrThere(w, l) && tag in w.tasks
    requires CarryOut(Decide(p, w.tasks[tag].envelope, answer, age, moved)).Acking? ==> answer.Accept?
    ensures AckedOrThere(Finished(p, w, tag, answer, age, moved),
                         if answer.Accept? then l.(accepting := l.accepting + {tag}) else l)
  {
    MovedThere(w, l, tag, CarryOut(Decide(p, w.tasks[tag].envelope, answer, age, moved)),
               Finished(p, w, tag, answer, age, moved),
               if answer.Accept? then l.(accepting := l.accepting + {tag}) else l);
  }

  /** A worker about to acknowledge what another copy stands for. */
  lemma StoodForThere(w: World, l: Ledger, tag: nat, c: nat)
    requires AckedOrThere(w, l) && HoldsSound(w.copies, w.tasks) && tag in w.tasks
    requires c in w.copies && w.copies[c].place.Ready? && w.copies[c].envelope.id == w.tasks[tag].envelope.id
    ensures AckedOrThere(Moved(w, tag, Acking), l)
  {
    StillThere(w, l, Moved(w, tag, Acking), l, c);
  }

  lemma StoredThere(w: World, l: Ledger, copy: Copy)
    requires AckedOrThere(w, l) && w.nextCopy !in w.copies
    ensures AckedOrThere(WithCopy(w, copy), l)
  {
    StillThere(w, l, WithCopy(w, copy), l, 0);
  }

  lemma PublishedThere(w: World, l: Ledger, tag: nat, reply: Reply, stored: bool)
    requires AckedOrThere(w, l) && HoldsSound(w.copies, w.tasks) && w.nextCopy !in w.copies
    requires tag in w.tasks && w.tasks[tag].pc.Publishing?
    requires AfterPublish(w.tasks[tag].pc.hop, EndOf(reply)).Acking? ==> stored
    ensures AckedOrThere(Published(w, tag, reply, stored), l)
  {
    var task := w.tasks[tag];
    var hop, pc := task.pc.hop, AfterPublish(task.pc.hop, EndOf(reply));
    var copy := HopCopy(hop, task.envelope, task.body);
    var kept := if stored then WithCopy(w, copy) else w;
    if stored {
      StoredThere(w, l, copy);
      assert HoldsSound(kept.copies, kept.tasks);
    }
    if pc.Acking? {
      StoodForThere(kept, l, tag, w.nextCopy);
    } else {
      MovedThere(kept, l, tag, pc, Moved(kept, tag, pc), l);
    }
  }

  lemma AcknowledgedThere(w: World, l: Ledger, tag: nat)
    requires AckedOrThere(w, l) && HoldsSound(w.copies, w.tasks) && tag in w.tasks && w.tasks[tag].pc.Acking?
    ensures AckedOrThere(Acknowledged(w, tag), Noted(w, l, Ack(tag)))
  {
    var v, m := Acknowledged(w, tag), Noted(w, l, Ack(tag));
    forall b | b in w.copies && HeldBy(w.copies[b], tag)
      ensures HoldsACopy(w, tag) && HeldIn(b, w.copies[b], w.tasks[tag])
    {
    }
    StillThere(w, l, v, m, 0);
  }

  /** Copies that go back to the source queue, with the workers that held them gone or not. */
  lemma RequeuedThere(w: World, l: Ledger, back: Copy -> bool, v: World)
    requires AckedOrThere(w, l) && HoldsSound(w.copies, w.tasks)
    requires v == w.(copies := Requeued(w.copies, back), tasks := v.tasks)
    requires forall tag :: tag in v.tasks ==> tag in w.tasks && v.tasks[tag] == w.tasks[tag]
    ensures AckedOrThere(v, l)
  {
    StillThere(w, l, v, l, 0);
  }

  lemma ExpiredThere(w: World, l: Ledger, c: nat)
    requires AckedOrThere(w, l) && w.homeBound && Source in w.queues && c in w.copies
    ensures AckedOrThere(Expired(w, c), l)
  {
    StillThere(w, l, Expired(w, c), l, c);
  }

  lemma StartThere(w: World, l: Ledger, tag: nat, unreadable: Option<string>)
    requires AckedOrThere(w, l) && tag in w.tasks
    ensures AckedOrThere(Started(w, tag, unreadable), l)
  {
    MovedThere(w, l, tag, Started(w, tag, unreadable).tasks[tag].pc, Started(w, tag, unreadable), l);
  }

  lemma WakeThere(w: World, l: Ledger, tag: nat, hop: Hop)
    requires AckedOrThere(w, l) && tag in w.tasks
    ensures AckedOrThere(Moved(w, tag, Publishing(hop)), l)
  {
    MovedThere(w, l, tag, Publishing(hop), Moved(w, tag, Publishing(hop)), l);
  }

  lemma FinishThere(p: RetryPolicy, w: World, l: Ledger, tag: nat, answer: Answer, age: Micros, moved: Micros)
    requires AckedOrThere(w, l) && tag in w.tasks && w.tasks[tag].pc.Running?
    ensures AckedOrThere(Finished(p, w, tag, answer, age, moved), Noted(w, l, Finish(tag, answer, age, moved)))
  {
    FinishedThere(p, w, l, tag, answer, age, moved);
  }

  /** What of the invariant the ledger needs. */
  predicate Sound(w: World) {
    && HoldsSound(w.copies, w.tasks) && w.nextCopy !in w.copies && w.nextTag !in w.tasks
    && w.homeBound && Source in w.queues
  }

  lemma SoundAt(t: Limits, w: World)
    requires Inv(t, w)
    ensures Sound(w)
  {
  }

  lemma WorkerStepThere(p: RetryPolicy, w: World, l: Ledger, step: Step)
    requires Sound(w) && AckedOrThere(w, l) && Enabled(w, step) && IsWorkerStep(step)
    ensures AckedOrThere(Apply(p, w, step), Noted(w, l, step))
  {
    match step
    case Start(tag, unreadable) => StartThere(w, l, tag, unreadable);
    case Finish(tag, answer, age, moved) => FinishThere(p, w, l, tag, answer, age, moved);
    case Wake(tag) => WakeThere(w, l, tag, w.tasks[tag].pc.hop);
    case Publish(tag, reply, stored) =>
      AckNeedsStored(w.tasks[tag].pc.hop, reply, stored, Target(w.tasks[tag].pc.hop) in w.queues);
      PublishedThere(w, l, tag, reply, stored);
    case Ack(tag) => AcknowledgedThere(w, l, tag);
  }

  lemma AckNeedsStored(hop: Hop, reply: Reply, stored: bool, queueExists: bool)
    requires Possible(reply, stored, queueExists)
    ensures AfterPublish(hop, EndOf(reply)).Acking? ==> stored
  {
  }

  lemma BrokerStepThere(p: RetryPolicy, w: World, l: Ledger, step: Step)
    requires Sound(w) && AckedOrThere(w, l) && Enabled(w, step) && !IsWorkerStep(step)
    ensures AckedOrThere(Apply(p, w, step), l)
  {
    match step
    case Arrive(e, body) => ArrivedThere(w, l, e, body);
    case Deliver(c, channel) => DeliveredThere(w, l, c, channel);
    case Nack(tag) => RequeuedThere(w, l, (c: Copy) => HeldBy(c, tag), Returned(w, tag));
    case Expire(c) => ExpiredThere(w, l, c);
    case LoseChannel(channel) =>
      RequeuedThere(w, l, (c: Copy) => c.place.Held? && c.place.channel == channel, Dropped(w, channel, false));
    case Crash(channel) =>
      RequeuedThere(w, l, (c: Copy) => c.place.Held? && c.place.channel == channel, Dropped(w, channel, true));
    case Declare(_) =>
    case Delete(_) =>
  }

  lemma {:induction false} EveryRunThere(p: RetryPolicy, t: Limits, w: World, l: Ledger, steps: seq<Step>)
    requires t == LimitsOf(p) && Inv(t, w) && AckedOrThere(w, l) && ValidRun(p, w, steps)
    ensures AckedOrThere(Run(p, w, steps), LedgerOf(p, w, l, steps))
    decreases |steps|
  {
    if steps != [] {
      SoundAt(t, w);
      if IsWorkerStep(steps[0]) { WorkerStepThere(p, w, l, steps[0]); } else { BrokerStepThere(p, w, l, steps[0]); }
      StepKeeps(p, t, w, steps[0]);
      EveryRunThere(p, t, Apply(p, w, steps[0]), Noted(w, l, steps[0]), steps[1..]);
    }
  }

  /** In every reachable state, a published message either was acknowledged by a delivery whose handler
      accepted it, or still has a copy, unsettled or on one of the consumer's own queues, with the body
      and the metadata it was published with and its attempt never past the policy's. An accept whose
      acknowledgement never got through is not enough. */
  lemma NoMessageIsLost(p: RetryPolicy, start: World, steps: seq<Step>, id: string) returns (c: nat)
    requires Initial(start) && ValidRun(p, start, steps)
    requires id in Run(p, start, steps).originals && !AckedAfterAccept(p, start, steps, id)
    ensures var w := Run(p, start, steps);
            && c in w.copies && w.copies[c].envelope.id == id
            && Safe(LimitsOf(p), w.copies[c].place)
            && w.copies[c].body == w.originals[id].body
            && SameMessage(w.copies[c].envelope, w.originals[id].envelope)
            && w.copies[c].envelope.attempt <= Max(p.maxAttempts, w.originals[id].envelope.attempt)
  {
    InitialHolds(LimitsOf(p), start);
    EveryRunKeeps(p, LimitsOf(p), start, steps);
    EveryRunThere(p, LimitsOf(p), start, Ledger({}, {}), steps);
    var w, l := Run(p, start, steps), LedgerOf(p, start, Ledger({}, {}), steps);
    c :| Remains(w.copies, w.tasks, l.accepting, c, id);
  }

  lemma InitialHolds(t: Limits, start: World)
    requires Initial(start)
    ensures Inv(t, start)
  {
  }

  /** Every copy in every reachable state is of a message that was published, changed in nothing but
      its attempt, which is never past the policy's, and the reason it was set aside; and it reads back
      from the wire exactly as it was written. */
  lemma EveryHopIsLossless(p: RetryPolicy, start: World, steps: seq<Step>, c: nat, at: Arrival, parse: Parser)
    requires Initial(start) && ValidRun(p, start, steps) && Sensible(parse)
    requires c in Run(p, start, steps).copies
    ensures var w := Run(p, start, steps);
            var e := w.copies[c].envelope;
            && e.id in w.originals && SameMessage(e, w.originals[e.id].envelope)
            && e.attempt <= Max(p.maxAttempts, w.originals[e.id].envelope.attempt)
            && Normal(e) && Trip(e, at.routingKey, at, parse) == e
  {
    InitialHolds(LimitsOf(p), start);
    EveryRunKeeps(p, LimitsOf(p), start, steps);
    var w := Run(p, start, steps);
    assert Descends(LimitsOf(p), w.originals, w.copies[c].envelope, w.copies[c].body);
    assert Normal(w.originals[w.copies[c].envelope.id].envelope);
    NormalTrips(w.copies[c].envelope, at.routingKey, at, parse);
  }

  /** A publish lets its delivery be acknowledged only when the broker confirmed it, routed it, and
      put it on the queue it was meant for. */
  lemma AckOnlyWhenStored(t: Limits, w: World, tag: nat, reply: Reply, stored: bool)
    requires Inv(t, w) && Enabled(w, Publish(tag, reply, stored))
    ensures var task, v := w.tasks[tag], Published(w, tag, reply, stored);
            v.tasks[tag].pc.Acking? <==>
              && reply == Answered(true, true)
              && stored && Target(task.pc.hop) in w.queues
              && v.copies == w.copies[w.nextCopy := HopCopy(task.pc.hop, task.envelope, task.body)]
  {
    assert PcAllowed(t, w.tasks[tag].envelope, w.tasks[tag].pc);
    AfterAllowed(t, w.tasks[tag].envelope, w.tasks[tag].pc.hop, EndOf(reply));
  }

  /** Of what a handler can answer, only an accept starts an acknowledgement. */
  lemma FinishAcksOnlyAccept(p: RetryPolicy, w: World, tag: nat, answer: Answer, age: Micros, moved: Micros)
    requires tag in w.tasks
    ensures var v := Finished(p, w, tag, answer, age, moved);
            && (v.tasks[tag].pc.Acking? <==> answer.Accept?)
            && v.copies == w.copies
  {
  }

  /** Whether a worker is on its way to a hop of this kind. */
  predicate HeadsFor(pc: Pc, kind: Hop -> bool) { (pc.Sleeping? || pc.Publishing?) && kind(pc.hop) }

  predicate NoAttemptLeft(p: RetryPolicy, e: Envelope, age: Micros) {
    e.attempt >= p.maxAttempts || (p.maxMessageAge > 0 && age >= p.maxMessageAge)
  }

  /** Where each answer leads, and nothing else leads there: the parking lot is for what the handler
      parks; the dead letters for what it rejects, what is no answer, what it calls unprocessable and
      what has run out of attempts or of time; a further attempt for a failure with one left; the queue
      it came from, on the attempt it is on, for what somebody else is working on. */
  lemma WhereAnswersLead(p: RetryPolicy, e: Envelope, answer: Answer, age: Micros, moved: Micros)
    ensures var pc := CarryOut(Decide(p, e, answer, age, moved));
            && (HeadsFor(pc, (hop: Hop) => hop.Aside? && hop.target == ParkingLot) <==> answer.Park?)
            && (HeadsFor(pc, (hop: Hop) => hop.Aside? && hop.target == DeadLetters) <==>
                  || answer.Reject? || answer.NotAnAck?
                  || (answer.Again? && (answer.why.Fatal? || (answer.why.Plain? && NoAttemptLeft(p, e, age)))))
            && (HeadsFor(pc, (hop: Hop) => Carried(hop, e).attempt == e.attempt + 1) <==>
                  answer.Again? && answer.why.Plain? && !NoAttemptLeft(p, e, age))
            && (HeadsFor(pc, (hop: Hop) => Target(hop) == Source && Carried(hop, e) == e) <==> answer.InProgress?)
            && (pc.Nacking? <==> answer.Again? && answer.why.StopReading?)
  {
    if answer.Again? && answer.why.Plain? {
      RetryLeads(p, e, answer.why, age, moved);
    }
  }
}
