/** The scheduler's messages on their way (src/acemq_amqp/patterns/scheduler.py): from `at` through
    any number of rungs and passes over the control queue to their target, with publishes that fail
    in every way, schedulers that die, and strangers publishing into the control queue. */
module Scheduler {
  import opened Retry
  import opened Ladder
  import S = Settlement
  import Broker

  /** The due header as `_number` finds it. */
  datatype DueAt = At(due: Millis) | Unreadable

  /** The four headers a scheduled message carries. */
  datatype Headers = Headers(exchange: Option<string>, routingKey: Option<string>, dueAt: Option<DueAt>,
                             contentType: Option<string>)

  /** The serial number tells scheduled messages apart for stating what must hold; it is not on the
      wire, and a stranger's message has none. */
  datatype Message = Message(serial: Option<nat>, body: seq<int>, headers: Headers)

  /** What a caller of `at` schedules. */
  datatype Cargo = Cargo(body: seq<int>, exchange: string, routingKey: string, due: Millis, contentType: string)

  const JSON_CONTENT_TYPE := "application/json"

  function Labelled(serial: nat, cargo: Cargo): Message {
    Message(Some(serial), cargo.body,
            Headers(Some(cargo.exchange), Some(cargo.routingKey), Some(At(cargo.due)), Some(cargo.contentType)))
  }

  /** Whether `_forward` can move a message on; if not, it rejects it. */
  predicate Forwardable(h: Headers) { h.exchange.Some? && h.routingKey.Some? && h.dueAt.Some? && h.dueAt.value.At? }

  /** What arrives at the target: the bytes, under the content type they were encoded as, and none of
      the scheduler's headers. */
  datatype Place =
    | OnRung(rung: Millis)
    | OnDue
    | Held(tag: nat)
    | AtTarget(exchange: string, routingKey: string, contentType: string)

  datatype Copy = Copy(message: Message, place: Place)

  /** Where one `_forward`, or one `at`, is. */
  datatype Pc = Routing | Delivering | Hopping(rung: Millis) | PuttingBack | Acking | Nacking | Refusing | Unsettled

  /** A task with no copy held is an `at`. */
  datatype Task = Task(held: Option<nat>, message: Message, pc: Pc)

  datatype World = World(copies: map<nat, Copy>, nextCopy: nat, tasks: map<nat, Task>, nextTag: nat,
                         promised: map<nat, Cargo>)

  /** What is refused is set aside only where somebody declared the control queue's dead letters, which
      the scheduler does not; otherwise it goes back on the control queue. */
  datatype Step =
    | Schedule(cargo: Cargo)
    | Intrude(message: Message)
    | Receive(copy: nat)
    | Route(tag: nat, now: Millis)
    | Publish(tag: nat, reply: S.Reply, stored: bool, queueExists: bool)
    | Ack(tag: nat)
    | Nack(tag: nat)
    | Refuse(tag: nat, setAside: bool)
    | Expire(copy: nat)
    | Lose(tag: nat)
    | Crash(tag: nat)

  predicate AtPc(w: World, tag: nat, p: Pc -> bool) { tag in w.tasks && p(w.tasks[tag].pc) }

  predicate Publishes(pc: Pc) { pc.Delivering? || pc.Hopping? || pc.PuttingBack? }

  predicate Enabled(w: World, step: Step) {
    match step
    case Schedule(_) => true
    case Intrude(message) => message.serial == None
    case Receive(copy) => copy in w.copies && w.copies[copy].place.OnDue?
    case Route(tag, _) => AtPc(w, tag, (pc: Pc) => pc.Routing?)
    case Publish(tag, reply, stored, queueExists) => AtPc(w, tag, Publishes) && S.Possible(reply, stored, queueExists)
    case Ack(tag) => AtPc(w, tag, (pc: Pc) => pc.Acking?)
    case Nack(tag) => AtPc(w, tag, (pc: Pc) => pc.Nacking?)
    case Refuse(tag, _) => AtPc(w, tag, (pc: Pc) => pc.Refusing?)
    case Expire(copy) => copy in w.copies && w.copies[copy].place.OnRung?
    case Lose(tag) => tag in w.tasks
    case Crash(tag) => tag in w.tasks
  }

  function Moved(w: World, tag: nat, pc: Pc): World
    requires tag in w.tasks
  {
    w.(tasks := w.tasks[tag := w.tasks[tag].(pc := pc)])
  }

  function Placed(w: World, copy: Copy): World {
    w.(copies := w.copies[w.nextCopy := copy], nextCopy := w.nextCopy + 1)
  }

  function Scheduled(w: World, cargo: Cargo): World {
    w.(tasks := w.tasks[w.nextTag := Task(None, Labelled(w.nextTag, cargo), Routing)], nextTag := w.nextTag + 1)
  }

  function Received(w: World, c: nat): World
    requires c in w.copies
  {
    w.(copies := w.copies[c := w.copies[c].(place := Held(w.nextTag))],
       tasks := w.tasks[w.nextTag := Task(Some(c), w.copies[c].message, Routing)], nextTag := w.nextTag + 1)
  }

  /** `_route`: deliver what is due or nearly so, and otherwise the longest rung that does not
      overshoot. */
  function Routed(h: Headers, now: Millis): Pc {
    if !Forwardable(h) then Refusing
    else if h.dueAt.value.due - now < SECOND then Delivering
    else Hopping(Rung(h.dueAt.value.due - now))
  }

  function ContentType(h: Headers): string {
    if h.contentType.None? || h.contentType.value == "" then JSON_CONTENT_TYPE else h.contentType.value
  }

  function AtItsTarget(h: Headers): Place
    requires Forwardable(h)
  {
    AtTarget(h.exchange.value, h.routingKey.value, ContentType(h))
  }

  /** The copy a publish leaves at the broker, if it leaves one. */
  function Outgoing(task: Task): Copy
    requires Publishes(task.pc) && (task.pc.Delivering? ==> Forwardable(task.message.headers))
  {
    match task.pc
    case Delivering => Copy(task.message, AtItsTarget(task.message.headers))
    case Hopping(rung) => Copy(task.message, OnRung(rung))
    case PuttingBack => Copy(task.message, OnDue)
  }

  /** Where a publish that ended like this leaves the task: a delivery that failed goes round a rung, a
      hop that failed is put back, and a put-back ends as the consumer's does. */
  function After(pc: Pc, end: S.End): Pc
    requires Publishes(pc)
  {
    if pc.PuttingBack? then
      match S.AfterPublish(S.PutBack, end) {
        case Acking => Acking
        case Nacking => Nacking
        case _ => Unsettled
      }
    else if end.Routed? then Acking
    else if pc.Delivering? then Hopping(RETRY_RUNG)
    else PuttingBack
  }

  /** An `at` that has nothing to settle returns, having promised its message, or raises. */
  function Settling(w: World, tag: nat, pc: Pc): World
    requires tag in w.tasks
  {
    var task := w.tasks[tag];
    if task.held.Some? || pc.Hopping? then Moved(w, tag, pc)
    else if pc.Acking? then
      w.(tasks := w.tasks - {tag}, promised := w.promised[Serial(task.message) := CargoOf(task.message)])
    else w.(tasks := w.tasks - {tag})
  }

  function Serial(m: Message): nat { if m.serial.Some? then m.serial.value else 0 }

  function CargoOf(m: Message): Cargo {
    var h := m.headers;
    Cargo(m.body, if h.exchange.Some? then h.exchange.value else "",
          if h.routingKey.Some? then h.routingKey.value else "",
          if h.dueAt.Some? && h.dueAt.value.At? then h.dueAt.value.due else 0,
          if h.contentType.Some? then h.contentType.value else "")
  }

  function Published(w: World, tag: nat, reply: S.Reply, stored: bool): World
    requires tag in w.tasks && Publishes(w.tasks[tag].pc)
  {
    var task := w.tasks[tag];
    var kept := if stored && (task.pc.Delivering? ==> Forwardable(task.message.headers))
        then Placed(w, Outgoing(task)) else w;
    Settling(kept, tag, After(task.pc, S.EndOf(reply)))
  }

  function Dropped(w: World, tag: nat): World {
    w.(copies := map c | c in w.copies && w.copies[c].place != Held(tag) :: w.copies[c], tasks := w.tasks - {tag})
  }

  /** The channel a message was received on goes: the broker takes the message back, and the task lives
      on, with a delivery it can no longer settle. */
  function Lost(w: World, tag: nat): World {
    w.(copies := map c | c in w.copies ::
                   if w.copies[c].place == Held(tag) then w.copies[c].(place := OnDue) else w.copies[c])
  }

  function Returned(w: World, tag: nat): World { Lost(w, tag).(tasks := w.tasks - {tag}) }

  function Apply(w: World, step: Step): World
    requires Enabled(w, step)
  {
    match step
    case Schedule(cargo) => Scheduled(w, cargo)
    case Intrude(message) => Placed(w, Copy(message, OnDue))
    case Receive(copy) => Received(w, copy)
    case Route(tag, now) => Moved(w, tag, Routed(w.tasks[tag].message.headers, now))
    case Publish(tag, reply, stored, _) => Published(w, tag, reply, stored)
    case Ack(tag) => Dropped(w, tag)
    case Nack(tag) => Returned(w, tag)
    case Refuse(tag, setAside) => if setAside then Dropped(w, tag) else Returned(w, tag)
    case Expire(copy) => w.(copies := w.copies[copy := w.copies[copy].(place := OnDue)])
    case Lose(tag) => Lost(w, tag)
    case Crash(tag) => Returned(w, tag)
  }

  predicate ValidRun(w: World, steps: seq<Step>)
    decreases |steps|
  {
    steps == [] || (Enabled(w, steps[0]) && ValidRun(Apply(w, steps[0]), steps[1..]))
  }

  function Run(w: World, steps: seq<Step>): World
    requires ValidRun(w, steps)
    decreases |steps|
  {
    if steps == [] then w else Run(Apply(w, steps[0]), steps[1..])
  }

  const EMPTY := World(map[], 0, map[], 0, map[])

  // ---------------------------------------------------------------- what every step keeps

  type Copies = map<nat, Copy>
  type Tasks = map<nat, Task>

  /** A held copy is in the hands of the task with its tag. */
  predicate HoldsSound(copies: Copies, tasks: Tasks) {
    forall c :: c in copies && copies[c].place.Held? ==>
      && copies[c].place.tag in tasks
      && tasks[copies[c].place.tag].held == Some(c) && tasks[copies[c].place.tag].message == copies[c].message
  }

  /** What is refused could not be forwarded, and what is being forwarded could. */
  predicate TasksSound(tasks: Tasks, nextTag: nat) {
    forall tag :: tag in tasks ==>
      && tag < nextTag
      && (tasks[tag].pc.Refusing? ==> !Forwardable(tasks[tag].message.headers))
      && (Publishes(tasks[tag].pc) ==> Forwardable(tasks[tag].message.headers))
      && (tasks[tag].held.None? ==>
            && (tasks[tag].pc.Routing? || tasks[tag].pc.Delivering? || tasks[tag].pc.Hopping?)
            && tasks[tag].message == Labelled(tag, CargoOf(tasks[tag].message)))
  }

  /** A copy there will be whatever happens next, of this message. */
  predicate Stands(copies: Copies, tasks: Tasks, c: nat, m: Message) {
    && c in copies && copies[c].message == m
    && !(copies[c].place.Held? && copies[c].place.tag in tasks && tasks[copies[c].place.tag].pc.Acking?)
  }

  ghost predicate PromisesKept(w: World) {
    forall serial :: serial in w.promised ==>
      exists c :: Stands(w.copies, w.tasks, c, Labelled(serial, w.promised[serial]))
  }

  /** What is at a target got there with the destination and the content type its headers name. */
  predicate TargetsRight(copies: Copies) {
    forall c :: c in copies && copies[c].place.AtTarget? ==>
      && Forwardable(copies[c].message.headers)
      && copies[c].place == AtItsTarget(copies[c].message.headers)
  }

  predicate Numbered(w: World) {
    && (forall c :: c in w.copies ==> c < w.nextCopy)
    && (forall serial :: serial in w.promised ==> serial < w.nextTag)
  }

  ghost predicate Inv(w: World) {
    && HoldsSound(w.copies, w.tasks) && TasksSound(w.tasks, w.nextTag) && TargetsRight(w.copies) && Numbered(w)
    && PromisesKept(w)
  }

  /** It is enough that every standing copy of a promised message still stands, or another does. */
  lemma StillKept(w: World, v: World, c: nat)
    requires PromisesKept(w)
    requires forall serial ::
               serial in v.promised && (serial !in w.promised || v.promised[serial] != w.promised[serial]) ==>
               Stands(v.copies, v.tasks, c, Labelled(serial, v.promised[serial]))
    requires forall b, m :: Stands(w.copies, w.tasks, b, m) && Serial(m) in w.promised
                            && m == Labelled(Serial(m), w.promised[Serial(m)]) ==>
               Stands(v.copies, v.tasks, b, m) || Stands(v.copies, v.tasks, c, m)
    ensures PromisesKept(v)
  {
    forall serial | serial in v.promised
      ensures exists d :: Stands(v.copies, v.tasks, d, Labelled(serial, v.promised[serial]))
    {
      if serial in w.promised && v.promised[serial] == w.promised[serial] {
        var m := Labelled(serial, w.promised[serial]);
        var b :| Stands(w.copies, w.tasks, b, m);
        assert Stands(v.copies, v.tasks, b, m) || Stands(v.copies, v.tasks, c, m);
      }
    }
  }

  lemma ScheduledKeeps(w: World, cargo: Cargo)
    requires Inv(w)
    ensures Inv(Scheduled(w, cargo))
  {
    var v := Scheduled(w, cargo);
    assert forall tag :: tag in w.tasks ==> tag < w.nextTag;
    assert HoldsSound(v.copies, v.tasks);
    StillKept(w, v, 0);
  }

  lemma PlacedKeeps(w: World, copy: Copy)
    requires Inv(w) && !copy.place.Held?
    requires copy.place.AtTarget? ==> TargetsRight(map[0 := copy])
    ensures Inv(Placed(w, copy))
  {
    var v := Placed(w, copy);
    assert copy.place.AtTarget? ==> (map[0 := copy])[0] == copy;
    assert forall c :: c in w.copies ==> v.copies[c] == w.copies[c];
    StillKept(w, v, 0);
  }

  lemma ReceivedKeeps(w: World, c: nat)
    requires Inv(w) && c in w.copies && w.copies[c].place.OnDue?
    ensures Inv(Received(w, c))
  {
    var v := Received(w, c);
    assert forall tag :: tag in w.tasks ==> tag < w.nextTag && v.tasks[tag] == w.tasks[tag];
    StillKept(w, v, c);
  }

  lemma MovedKeeps(w: World, tag: nat, pc: Pc)
    requires Inv(w) && tag in w.tasks && !pc.Acking?
    requires pc.Refusing? ==> !Forwardable(w.tasks[tag].message.headers)
    requires Publishes(pc) ==> Forwardable(w.tasks[tag].message.headers)
    requires w.tasks[tag].held.None? ==> pc.Delivering? || pc.Hopping?
    ensures Inv(Moved(w, tag, pc))
  {
    StillKept(w, Moved(w, tag, pc), 0);
  }

  lemma RoutedKeeps(w: World, tag: nat, now: Millis)
    requires Inv(w) && tag in w.tasks && w.tasks[tag].pc.Routing?
    ensures Inv(Moved(w, tag, Routed(w.tasks[tag].message.headers, now)))
  {
    MovedKeeps(w, tag, Routed(w.tasks[tag].message.headers, now));
  }

  /** The task's message stands elsewhere, so its own copy may go. */
  lemma AckingKeeps(w: World, tag: nat, c: nat)
    requires Inv(w) && tag in w.tasks && w.tasks[tag].held.Some?
    requires c in w.copies && !w.copies[c].place.Held? && w.copies[c].message == w.tasks[tag].message
    ensures Inv(Moved(w, tag, Acking))
  {
    StillKept(w, Moved(w, tag, Acking), c);
  }

  lemma PromisedKeeps(w: World, tag: nat, c: nat)
    requires Inv(w) && tag in w.tasks && w.tasks[tag].held.None?
    requires c in w.copies && !w.copies[c].place.Held? && w.copies[c].message == w.tasks[tag].message
    ensures Inv(Settling(w, tag, Acking))
  {
    var v := Settling(w, tag, Acking);
    assert HoldsSound(v.copies, v.tasks);
    assert Stands(v.copies, v.tasks, c, w.tasks[tag].message);
    StillKept(w, v, c);
  }

  lemma RaisedKeeps(w: World, tag: nat)
    requires Inv(w) && tag in w.tasks && w.tasks[tag].held.None?
    ensures Inv(w.(tasks := w.tasks - {tag}))
  {
    var v := w.(tasks := w.tasks - {tag});
    assert HoldsSound(v.copies, v.tasks);
    StillKept(w, v, 0);
  }

  /** Only a routed and confirmed publish, whose copy is on the rung or the target, lets the control
      message be acknowledged, or `at` return. */
  lemma AckOnlyWhenStored(pc: Pc, reply: S.Reply, stored: bool, queueExists: bool)
    requires Publishes(pc) && S.Possible(reply, stored, queueExists)
    ensures After(pc, S.EndOf(reply)).Acking? <==> reply == S.Answered(true, true) && stored && queueExists
  {
  }

  lemma SettlingKeeps(w: World, tag: nat, pc: Pc, c: nat)
    requires Inv(w) && tag in w.tasks && !pc.Routing? && !pc.Refusing? && !pc.Delivering?
    requires Publishes(pc) ==> Forwardable(w.tasks[tag].message.headers)
    requires pc.Acking? ==> c in w.copies && !w.copies[c].place.Held? && w.copies[c].message == w.tasks[tag].message
    ensures Inv(Settling(w, tag, pc))
  {
    if w.tasks[tag].held.None? {
      if pc.Acking? { PromisedKeeps(w, tag, c); }
      else if pc.Hopping? { MovedKeeps(w, tag, pc); }
      else { RaisedKeeps(w, tag); }
    } else {
      if pc.Acking? { AckingKeeps(w, tag, c); } else { MovedKeeps(w, tag, pc); }
    }
  }

  lemma PublishedKeeps(w: World, tag: nat, reply: S.Reply, stored: bool, queueExists: bool)
    requires Inv(w) && Enabled(w, Publish(tag, reply, stored, queueExists))
    ensures Inv(Published(w, tag, reply, stored))
  {
    var task := w.tasks[tag];
    AckOnlyWhenStored(task.pc, reply, stored, queueExists);
    if stored {
      PlacedKeeps(w, Outgoing(task));
      SettlingKeeps(Placed(w, Outgoing(task)), tag, After(task.pc, S.EndOf(reply)), w.nextCopy);
    } else {
      SettlingKeeps(w, tag, After(task.pc, S.EndOf(reply)), 0);
    }
  }

  lemma DroppedKeeps(w: World, tag: nat)
    requires Inv(w) && tag in w.tasks
    requires w.tasks[tag].pc.Acking? || (w.tasks[tag].pc.Refusing? && !Forwardable(w.tasks[tag].message.headers))
    ensures Inv(Dropped(w, tag))
  {
    var v := Dropped(w, tag);
    assert HoldsSound(v.copies, v.tasks);
    StillKept(w, v, 0);
  }

  /** A message the broker has taken back, its task gone or not. */
  lemma ReturnedKeeps(w: World, tag: nat)
    requires Inv(w)
    ensures Inv(Returned(w, tag)) && Inv(Lost(w, tag))
  {
    StillKept(w, Lost(w, tag), 0);
    var v := Returned(w, tag);
    assert HoldsSound(v.copies, v.tasks);
    StillKept(w, v, 0);
  }

  lemma ExpiredKeeps(w: World, c: nat)
    requires Inv(w) && Enabled(w, Expire(c))
    ensures Inv(Apply(w, Expire(c)))
  {
    StillKept(w, Apply(w, Expire(c)), c);
  }

  lemma StepKeeps(w: World, step: Step)
    requires Inv(w) && Enabled(w, step)
    ensures Inv(Apply(w, step))
  {
    match step
    case Schedule(cargo) => ScheduledKeeps(w, cargo);
    case Intrude(message) => PlacedKeeps(w, Copy(message, OnDue));
    case Receive(copy) => ReceivedKeeps(w, copy);
    case Route(tag, now) => RoutedKeeps(w, tag, now);
    case Publish(tag, reply, stored, queueExists) => PublishedKeeps(w, tag, reply, stored, queueExists);
    case Ack(tag) => DroppedKeeps(w, tag);
    case Nack(tag) => ReturnedKeeps(w, tag);
    case Refuse(tag, setAside) => if setAside { DroppedKeeps(w, tag); } else { ReturnedKeeps(w, tag); }
    case Expire(copy) => ExpiredKeeps(w, copy);
    case Lose(tag) => ReturnedKeeps(w, tag);
    case Crash(tag) => ReturnedKeeps(w, tag);
  }

  lemma {:induction false} EveryRunKeeps(w: World, steps: seq<Step>)
    requires Inv(w) && ValidRun(w, steps)
    ensures Inv(Run(w, steps))
    decreases |steps|
  {
    if steps != [] {
      StepKeeps(w, steps[0]);
      EveryRunKeeps(Apply(w, steps[0]), steps[1..]);
    }
  }

  /** What is on a rung, or on its way to one, is on one of the five that are declared. */
  predicate RungsKnown(copies: Copies, tasks: Tasks) {
    && (forall c :: c in copies && copies[c].place.OnRung? ==> copies[c].place.rung in RUNGS)
    && (forall tag :: tag in tasks && tasks[tag].pc.Hopping? ==> tasks[tag].pc.rung in RUNGS)
  }

  lemma PublishedKnown(w: World, tag: nat, reply: S.Reply, stored: bool)
    requires tag in w.tasks && Publishes(w.tasks[tag].pc) && RungsKnown(w.copies, w.tasks)
    ensures var v := Published(w, tag, reply, stored); RungsKnown(v.copies, v.tasks)
  {
    assert RETRY_RUNG == RUNGS[3];
  }

  lemma StepKnown(w: World, step: Step)
    requires Enabled(w, step) && RungsKnown(w.copies, w.tasks)
    ensures RungsKnown(Apply(w, step).copies, Apply(w, step).tasks)
  {
    match step
    case Route(tag, now) =>
    case Publish(tag, reply, stored, _) => PublishedKnown(w, tag, reply, stored);
    case _ =>
  }

  lemma {:induction false} RunsKnow(w: World, steps: seq<Step>)
    requires ValidRun(w, steps) && RungsKnown(w.copies, w.tasks)
    ensures RungsKnown(Run(w, steps).copies, Run(w, steps).tasks)
    decreases |steps|
  {
    if steps != [] {
      StepKnown(w, steps[0]);
      RunsKnow(Apply(w, steps[0]), steps[1..]);
    }
  }

  /** In every reachable state each message `at` returned for has a copy: on a declared rung, on the control
      queue or in a scheduler's hands with the headers and the body it was scheduled with, or at the
      target it was scheduled for, with that body and content type. */
  lemma NothingScheduledIsLost(steps: seq<Step>, serial: nat) returns (c: nat)
    requires ValidRun(EMPTY, steps) && serial in Run(EMPTY, steps).promised
    ensures var w := Run(EMPTY, steps);
            var cargo := w.promised[serial];
            && c in w.copies && w.copies[c].message.body == cargo.body
            && w.copies[c].message.headers == Headers(Some(cargo.exchange), Some(cargo.routingKey), Some(At(cargo.due)),
                                                      Some(cargo.contentType))
            && (w.copies[c].place.OnRung? ==> w.copies[c].place.rung in RUNGS)
            && (w.copies[c].place.AtTarget? ==>
                  w.copies[c].place == AtTarget(cargo.exchange, cargo.routingKey,
                                                if cargo.contentType == "" then JSON_CONTENT_TYPE
                                                else cargo.contentType))
  {
    EveryRunKeeps(EMPTY, steps);
    RunsKnow(EMPTY, steps);
    var w := Run(EMPTY, steps);
    c :| Stands(w.copies, w.tasks, c, Labelled(serial, w.promised[serial]));
  }

  /** Whether some step of a run was an `at` with this cargo, and got this serial number. */
  predicate WasAsked(w: World, steps: seq<Step>, serial: nat, cargo: Cargo)
    requires ValidRun(w, steps)
    decreases |steps|
  {
    steps != [] &&
    ((steps[0] == Schedule(cargo) && w.nextTag == serial) || WasAsked(Apply(w, steps[0]), steps[1..], serial, cargo))
  }

  ghost predicate AllAsked(w: World, asked: (nat, Cargo) -> bool) {
    && (forall tag :: tag in w.tasks && w.tasks[tag].held.None? ==>
          w.tasks[tag].message.serial == Some(tag) && asked(tag, CargoOf(w.tasks[tag].message)))
    && (forall serial :: serial in w.promised ==> asked(serial, w.promised[serial]))
  }

  lemma StepAsked(w: World, step: Step, asked: (nat, Cargo) -> bool)
    requires Enabled(w, step) && AllAsked(w, asked)
    requires step.Schedule? ==> asked(w.nextTag, step.cargo)
    ensures AllAsked(Apply(w, step), asked)
  {
  }

  lemma {:induction false} RunAsked(w: World, steps: seq<Step>, asked: (nat, Cargo) -> bool)
    requires ValidRun(w, steps) && AllAsked(w, asked)
    requires forall serial, cargo :: WasAsked(w, steps, serial, cargo) ==> asked(serial, cargo)
    ensures AllAsked(Run(w, steps), asked)
    decreases |steps|
  {
    if steps != [] {
      assert steps[0].Schedule? ==> WasAsked(w, steps, w.nextTag, steps[0].cargo);
      StepAsked(w, steps[0], asked);
      RunAsked(Apply(w, steps[0]), steps[1..], asked);
    }
  }

  /** What `at` returned for is what its caller asked for. */
  lemma PromisedAsAsked(steps: seq<Step>, serial: nat)
    requires ValidRun(EMPTY, steps) && serial in Run(EMPTY, steps).promised
    ensures WasAsked(EMPTY, steps, serial, Run(EMPTY, steps).promised[serial])
  {
    RunAsked(EMPTY, steps, (serial: nat, cargo: Cargo) => WasAsked(EMPTY, steps, serial, cargo));
  }

  /** And it returns exactly when a publish of the message, to a rung or to its target, was taken. */
  lemma ReturnsWhenTaken(w: World, tag: nat, reply: S.Reply, stored: bool, queueExists: bool)
    requires Inv(w) && Enabled(w, Publish(tag, reply, stored, queueExists)) && w.tasks[tag].held.None?
    requires w.tasks[tag].message.serial == Some(tag)
    ensures var v := Apply(w, Publish(tag, reply, stored, queueExists));
            if reply == S.Answered(true, true) then
              stored && tag !in v.tasks && tag in v.promised && v.promised.Keys == w.promised.Keys + {tag}
            else
              v.promised == w.promised && (tag in v.tasks <==> w.tasks[tag].pc.Delivering?)
  {
    AckOnlyWhenStored(w.tasks[tag].pc, reply, stored, queueExists);
  }

  // ---------------------------------------------------------------- nothing is early

  /** A message that some step of a run found due, or less than a second from it. */
  ghost predicate FoundDue(w: World, steps: seq<Step>, m: Message)
    requires ValidRun(w, steps)
    decreases |steps|
  {
    steps != [] &&
    (|| (steps[0].Route? && w.tasks[steps[0].tag].message == m && Forwardable(m.headers)
         && m.headers.dueAt.value.due - steps[0].now < 1000)
     || FoundDue(Apply(w, steps[0]), steps[1..], m))
  }

  /** What is at its target, or on its way there, was due. */
  ghost predicate AllDue(w: World, due: Message -> bool) {
    && (forall c :: c in w.copies && w.copies[c].place.AtTarget? ==> due(w.copies[c].message))
    && (forall tag :: tag in w.tasks && w.tasks[tag].pc.Delivering? ==> due(w.tasks[tag].message))
  }

  lemma StepDue(w: World, step: Step, due: Message -> bool)
    requires Enabled(w, step) && AllDue(w, due)
    requires step.Route? && Routed(w.tasks[step.tag].message.headers, step.now).Delivering? ==>
               due(w.tasks[step.tag].message)
    ensures AllDue(Apply(w, step), due)
  {
  }

  lemma {:induction false} RunDue(w: World, steps: seq<Step>, due: Message -> bool)
    requires ValidRun(w, steps) && AllDue(w, due)
    requires forall m :: FoundDue(w, steps, m) ==> due(m)
    ensures AllDue(Run(w, steps), due)
    decreases |steps|
  {
    if steps != [] {
      StepDue(w, steps[0], due);
      RunDue(Apply(w, steps[0]), steps[1..], due);
    }
  }

  /** A message is at a target only if it was due, or less than a second from it, when it was last looked at
      before it was sent there. */
  lemma NothingIsEarly(steps: seq<Step>, c: nat)
    requires ValidRun(EMPTY, steps) && c in Run(EMPTY, steps).copies && Run(EMPTY, steps).copies[c].place.AtTarget?
    ensures FoundDue(EMPTY, steps, Run(EMPTY, steps).copies[c].message)
  {
    RunDue(EMPTY, steps, m => FoundDue(EMPTY, steps, m));
  }

  /** What fails goes round: a delivery that was not taken is tried again after ten seconds on a rung, and a
      message is put back on the control queue only when no rung took it. */
  lemma WhatFailsGoesRound(w: World, tag: nat, reply: S.Reply, stored: bool, queueExists: bool)
    requires Inv(w) && Enabled(w, Publish(tag, reply, stored, queueExists))
    ensures var pc, v := w.tasks[tag].pc, Apply(w, Publish(tag, reply, stored, queueExists));
            && (pc.Delivering? && reply != S.Answered(true, true) ==>
                  tag in v.tasks && v.tasks[tag].pc == Hopping(10_000))
            && (tag in v.tasks && v.tasks[tag].pc.PuttingBack? ==> pc.Hopping? && reply != S.Answered(true, true))
            && (tag in v.tasks && v.tasks[tag].pc.Acking? ==> reply == S.Answered(true, true) && stored)
            && (tag in v.tasks && v.tasks[tag].pc.Unsettled? <==> pc.PuttingBack? && reply.Raised?)
            && (tag in v.tasks && v.tasks[tag].pc.Nacking? <==>
                  pc.PuttingBack? && !reply.Raised? && reply != S.Answered(true, true))
  {
    AckOnlyWhenStored(w.tasks[tag].pc, reply, stored, queueExists);
  }

  // ---------------------------------------------------------------- the methods, one call at a time

  function TaskOf(step: Step): Option<nat> {
    match step
    case Route(tag, _) => Some(tag)
    case Publish(tag, _, _, _) => Some(tag)
    case Ack(tag) => Some(tag)
    case Nack(tag) => Some(tag)
    case Refuse(tag, _) => Some(tag)
    case Crash(tag) => Some(tag)
    case _ => None
  }

  lemma {:induction false} RunFurther(w: World, steps: seq<Step>, step: Step)
    requires ValidRun(w, steps) && Enabled(Run(w, steps), step)
    ensures ValidRun(w, steps + [step]) && Run(w, steps + [step]) == Apply(Run(w, steps), step)
    decreases |steps|
  {
    if steps == [] {
      assert steps + [step] == [step] && [step][1..] == [];
    } else {
      RunFurther(Apply(w, steps[0]), steps[1..], step);
      assert (steps + [step])[1..] == steps[1..] + [step];
    }
  }

  /** What `_forward` answers the consumer, and what that comes to. */
  datatype Forwarded = Accept | InProgress | Reject

  function PcOf(answer: Forwarded): Pc {
    match answer
    case Accept => Acking
    case InProgress => PuttingBack
    case Reject => Refusing
  }

  class Process {
    var world: World
    ghost var trace: seq<Step>

    constructor ()
      ensures Valid() && world == EMPTY
    {
      world, trace := EMPTY, [];
    }

    ghost predicate Valid()
      reads this
    {
      ValidRun(EMPTY, trace) && world == Run(EMPTY, trace)
    }

    predicate Has(tag: nat, pc: Pc)
      reads this
    {
      tag in world.tasks && world.tasks[tag].pc == pc
    }

    method Take(step: Step)
      requires Valid() && Enabled(world, step)
      modifies this
      ensures Valid() && world == Apply(old(world), step) && trace == old(trace) + [step]
    {
      RunFurther(EMPTY, trace, step);
      world := Apply(world, step);
      trace := trace + [step];
    }

    /** Everything anybody else may do before this task goes on. */
    method Await(tag: nat)
      requires Valid() && tag in world.tasks
      modifies this
      ensures Valid() && old(trace) <= trace
      ensures tag in world.tasks && world.tasks[tag] == old(world.tasks[tag])
    {
      var many: int := *;
      while many > 0
        invariant Valid() && old(trace) <= trace
        invariant tag in world.tasks && world.tasks[tag] == old(world.tasks[tag])
      {
        many := many - 1;
        var step: Step := *;
        if Enabled(world, step) && TaskOf(step) != Some(tag) {
          EveryRunKeeps(EMPTY, trace);
          Take(step);
        }
      }
    }

    /** A mandatory publish, which raises unless it was routed and confirmed; then its copy is there. */
    method Send(tag: nat) returns (raised: bool)
      requires Valid() && tag in world.tasks && (world.tasks[tag].pc.Delivering? || world.tasks[tag].pc.Hopping?)
      requires world.tasks[tag].held.Some?
      requires world.tasks[tag].pc.Delivering? ==> Forwardable(world.tasks[tag].message.headers)
      modifies this
      ensures Valid() && old(trace) <= trace && tag in world.tasks
      ensures world.tasks[tag] == old(world.tasks[tag]).(pc := world.tasks[tag].pc)
      ensures world.tasks[tag].pc == if !raised then Acking
                                     else if old(world.tasks[tag].pc).Delivering? then Hopping(RETRY_RUNG)
                                     else PuttingBack
      ensures !raised ==> There(old(Outgoing(world.tasks[tag])))
    {
      Await(tag);
      ghost var copy := Outgoing(world.tasks[tag]);
      var queueExists := false;
      if * { queueExists := true; }
      var reply, kept := Broker.Answer(queueExists);
      ghost var c := world.nextCopy;
      Take(Publish(tag, reply, kept, queueExists));
      raised := !S.EndOf(reply).Routed?;
      assert kept ==> c in world.copies && world.copies[c] == copy;
    }

    /** Whether the broker has such a copy. */
    predicate There(copy: Copy)
      reads this
    {
      exists c :: c in world.copies && world.copies[c] == copy
    }

    /** `_hop`: the message is on the rung, or nothing is. */
    method Hop(tag: nat, rung: Millis) returns (raised: bool)
      requires Valid() && Has(tag, Hopping(rung)) && world.tasks[tag].held.Some?
      modifies this
      ensures Valid() && old(trace) <= trace && Has(tag, if raised then PuttingBack else Acking)
      ensures !raised ==> There(Copy(old(world.tasks[tag].message), OnRung(rung)))
    {
      raised := Send(tag);
    }

    /** `_deliver`: the message is at its target, under its own content type, or gone round the retry
        rung; it raises only when it could not be put there either. */
    method Deliver(tag: nat) returns (raised: bool)
      requires Valid() && Has(tag, Delivering) && world.tasks[tag].held.Some?
      requires Forwardable(world.tasks[tag].message.headers)
      modifies this
      ensures Valid() && old(trace) <= trace && Has(tag, if raised then PuttingBack else Acking)
      ensures var m := old(world.tasks[tag].message);
              !raised ==> There(Copy(m, AtItsTarget(m.headers))) || There(Copy(m, OnRung(RETRY_RUNG)))
    {
      var refused := Send(tag);
      raised := false;
      if refused {
        raised := Hop(tag, RETRY_RUNG);
      }
    }

    /** `_forward`: accepts what the rung it belongs on, the target or the retry rung has, puts back what
        could not even be hopped, and rejects only what lacks the headers of a scheduled message. */
    method Forward(tag: nat, now: Millis) returns (answer: Forwarded)
      requires Valid() && Has(tag, Routing) && world.tasks[tag].held.Some?
      modifies this
      ensures Valid() && old(trace) <= trace && Has(tag, PcOf(answer))
      ensures answer.Reject? <==> !Forwardable(old(world.tasks[tag].message.headers))
      ensures var m := old(world.tasks[tag].message);
              answer.Accept? ==>
                var remaining := m.headers.dueAt.value.due - now;
                if remaining < SECOND then There(Copy(m, AtItsTarget(m.headers))) || There(Copy(m, OnRung(RETRY_RUNG)))
                else There(Copy(m, OnRung(Rung(remaining))))
    {
      var h := world.tasks[tag].message.headers;
      Take(Route(tag, now));
      if h.dueAt.None? || h.exchange.None? || h.routingKey.None? {
        return Reject;
      }
      if h.dueAt.value.Unreadable? {
        return Reject;
      }
      var raised;
      var remaining := h.dueAt.value.due - now;
      if remaining < SECOND {
        raised := Deliver(tag);
      } else {
        var rung := ChooseRung(remaining);
        raised := Hop(tag, rung);
      }
      answer := if raised then InProgress else Accept;
    }
  }
}
