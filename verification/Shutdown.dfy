/** How a consumer closes (src/acemq_amqp/connection.py): the workers, the queue between them and the
    subscription, and `close`, which a handler may start from inside one of the workers. */
module Shutdown {

  /** Where a delivery is: still queued, with a worker, in `close`'s hands to be given back, settled
      with the broker, by giving it back or by acknowledging it, or let go unsettled, by an error of the
      library or by being cut off. */
  datatype Where = InQueue | With(worker: nat) | WithClose | Settled(givenBack: bool) | Failed | CutOff

  datatype Worker = Idle | Handling(delivery: nat) | Ended

  datatype Subscription = Delivering | Cancelled | Released

  /** How the waiting in `close` ended: every worker done, the time up, or an error or a cancellation. */
  datatype Waited = AllDone | TimeUp | Interrupted

  /** Where `close` is. `Left` is a close cancelled while it waits for the workers it has cut off. */
  datatype Closer =
    | Open | Stopping | Draining | GivingBack(delivery: nat) | Dismissing | Waiting
    | Cutting(waited: Waited) | Unwinding(waited: Waited) | Closed(waited: Waited) | Left

  /** The task `_halt` makes to close the consumer from inside a handler: there is none; it is the one
      that is closing; or it came when somebody else was, and returns at once. */
  datatype Halting = NoTask | TheCloser | NothingToDo

  /** The broker's side of it is `settlements`, how often each delivery was settled. */
  datatype World = World(
    at: map<nat, Where>, workers: map<nat, Worker>, sentinels: nat, cancelled: set<nat>,
    subscription: Subscription, closer: Closer, halting: Halting, settlements: map<nat, nat>)

  datatype Step =
    | Arrive(delivery: nat)
    | TakeUp(worker: nat, delivery: nat)
    | Dismissed(worker: nat)
    | Settle(worker: nat, givenBack: bool)
    | Fail(worker: nat)
    | BeCut(worker: nat)
    | Close(byHandler: bool)
    | Halt
    | Stopped
    | PickUp(delivery: nat)
    | GiveBack
    | Emptied
    | Dismiss
    | Done
    | Deadline
    | Interrupt
    | Cut
    | Release

  predicate AllEnded(workers: map<nat, Worker>) { forall n :: n in workers ==> workers[n].Ended? }

  predicate Is(w: World, worker: nat, p: Worker -> bool) { worker in w.workers && p(w.workers[worker]) }

  predicate Enabled(w: World, step: Step) {
    match step
    case Arrive(d) => d !in w.at && w.subscription.Delivering?
    case TakeUp(n, d) => Is(w, n, (k: Worker) => k.Idle?) && d in w.at && w.at[d].InQueue?
    case Dismissed(n) => Is(w, n, (k: Worker) => k.Idle?) && w.sentinels > 0
    case Settle(n, _) => Is(w, n, (k: Worker) => k.Handling?)
    case Fail(n) => Is(w, n, (k: Worker) => k.Handling?)
    case BeCut(n) => Is(w, n, (k: Worker) => !k.Ended?) && n in w.cancelled
    case Close(byHandler) => w.closer.Open? && (byHandler ==> exists n :: n in w.workers && w.workers[n].Handling?)
    case Halt => !w.closer.Open? && w.halting.NoTask? && exists n :: n in w.workers && w.workers[n].Handling?
    case Stopped => w.closer.Stopping?
    case PickUp(d) => w.closer.Draining? && d in w.at && w.at[d].InQueue?
    case GiveBack => w.closer.GivingBack?
    case Emptied => w.closer.Draining? && forall d :: d in w.at ==> !w.at[d].InQueue?
    case Dismiss => w.closer.Dismissing?
    case Done => w.closer.Waiting? && AllEnded(w.workers)
    case Deadline => w.closer.Waiting? && !AllEnded(w.workers)
    case Interrupt => w.closer.Stopping? || w.closer.GivingBack? || w.closer.Waiting? || w.closer.Unwinding?
    case Cut => w.closer.Cutting?
    case Release => w.closer.Unwinding? && AllEnded(w.workers)
  }

  function SettledBy(w: World, d: nat, givenBack: bool): World {
    w.(at := w.at[d := Settled(givenBack)], settlements := w.settlements[d := Count(w.settlements, d) + 1])
  }

  function Count(settlements: map<nat, nat>, d: nat): nat { if d in settlements then settlements[d] else 0 }

  /** What a worker that is cut off was working on is left unsettled. */
  function CutShort(w: World, n: nat): World
    requires n in w.workers
  {
    w.(at := if w.workers[n].Handling? then w.at[w.workers[n].delivery := CutOff] else w.at,
       workers := w.workers[n := Ended])
  }

  function Apply(w: World, step: Step): World
    requires Enabled(w, step)
  {
    match step
    case Arrive(d) => w.(at := w.at[d := InQueue])
    case TakeUp(n, d) => w.(at := w.at[d := With(n)], workers := w.workers[n := Handling(d)])
    case Dismissed(n) => w.(workers := w.workers[n := Ended], sentinels := w.sentinels - 1)
    case Settle(n, givenBack) => SettledBy(w, w.workers[n].delivery, givenBack).(workers := w.workers[n := Idle])
    case Fail(n) => w.(at := w.at[w.workers[n].delivery := Failed], workers := w.workers[n := Idle])
    case BeCut(n) => CutShort(w, n)
    case Close(byHandler) => w.(closer := Stopping, halting := if byHandler then TheCloser else NoTask)
    case Halt => w.(halting := NothingToDo)
    case Stopped => w.(subscription := Cancelled, closer := Draining)
    case PickUp(d) => w.(at := w.at[d := WithClose], closer := GivingBack(d))
    case GiveBack => SettledBy(w, w.closer.delivery, true).(closer := Draining)
    case Emptied => w.(closer := Dismissing)
    case Dismiss => w.(sentinels := w.sentinels + |w.workers|, closer := Waiting)
    case Done => w.(closer := Cutting(AllDone))
    case Deadline => w.(closer := Cutting(TimeUp))
    case Interrupt =>
      if w.closer.Unwinding? then w.(closer := Left)
      else if w.closer.GivingBack? then w.(at := w.at[w.closer.delivery := Failed], closer := Cutting(Interrupted))
      else w.(closer := Cutting(Interrupted))
    case Cut =>
      w.(cancelled := (set n | n in w.workers && !w.workers[n].Ended?), closer := Unwinding(w.closer.waited))
    case Release => w.(subscription := Released, closer := Closed(w.closer.waited))
  }

  predicate ValidRun(w: World, steps: seq<Step>)
    decreases |steps|
  {
    steps == [] || (Enabled(w, steps[0]) && ValidRun(Apply(w, steps[0]), steps[1..]))
  }

  function Run(w: World, steps: seq<Step>): World
    requires ValidRun(w, steps)
    decreases |steps|
  {
    if steps == [] then w else Run(Apply(w, steps[0]), steps[1..])
  }

  predicate Initial(w: World) {
    && w.at == map[] && w.settlements == map[] && w.sentinels == 0 && w.cancelled == {}
    && w.subscription.Delivering? && w.closer.Open? && w.halting.NoTask? &&
         (forall n :: n in w.workers ==> w.workers[n].Idle?)
  }

  // ---------------------------------------------------------------- what every step keeps

  /** A delivery has been settled once if it is settled, and otherwise not at all. */
  ghost predicate Accounted(at: map<nat, Where>, settlements: map<nat, nat>) {
    forall d: nat :: Count(settlements, d) == if d in at && at[d].Settled? then 1 else 0
  }

  predicate InHand(w: World) {
    && (forall n :: n in w.workers && w.workers[n].Handling? ==>
          w.workers[n].delivery in w.at && w.at[w.workers[n].delivery] == With(n))
    && (forall d :: d in w.at && w.at[d].With? ==>
          w.at[d].worker in w.workers && w.workers[w.at[d].worker] == Handling(d))
    && (forall d :: d in w.at && w.at[d].WithClose? ==> w.closer == GivingBack(d))
    && (w.closer.GivingBack? ==> w.closer.delivery in w.at && w.at[w.closer.delivery].WithClose?)
  }

  predicate Drained(w: World) { !w.subscription.Delivering? && forall d :: d in w.at ==> !w.at[d].InQueue? }

  predicate Cleared(waited: Waited, w: World) {
    && (!waited.Interrupted? ==> Drained(w))
    && (waited.AllDone? ==> AllEnded(w.workers) && forall d :: d in w.at ==> !w.at[d].CutOff?)
  }

  /** How far `close` is says what is over: deliveries, the queue, the workers. */
  predicate CloserSound(w: World) {
    && (w.cancelled != {} ==> w.closer.Unwinding? || w.closer.Closed? || w.closer.Left?)
    && (w.closer.Unwinding? ==> forall n :: n in w.workers && !w.workers[n].Ended? ==> n in w.cancelled)
    && ((exists d :: d in w.at && w.at[d].CutOff?) ==> w.cancelled != {})
    && (w.subscription.Released? <==> w.closer.Closed?)
    && (w.closer.Draining? || w.closer.GivingBack? ==> !w.subscription.Delivering?)
    && (w.closer.Dismissing? || w.closer.Waiting? ==> Drained(w))
    && (w.closer.Cutting? || w.closer.Unwinding? || w.closer.Closed? ==> Cleared(w.closer.waited, w))
    && (w.closer.Closed? ==> AllEnded(w.workers))
  }

  ghost predicate Inv(w: World) { Accounted(w.at, w.settlements) && InHand(w) && CloserSound(w) }

  predicate IsClosers(step: Step) {
    step.Close? || step.Stopped? || step.PickUp? || step.GiveBack? || step.Emptied? || step.Dismiss? || step.Done?
    || step.Deadline? || step.Interrupt? || step.Cut? || step.Release?
  }

  lemma ClosersAccounted(w: World, step: Step)
    requires Accounted(w.at, w.settlements) && InHand(w) && Enabled(w, step) && IsClosers(step)
    ensures Accounted(Apply(w, step).at, Apply(w, step).settlements)
  {
  }

  lemma WorkersInHand(w: World, step: Step)
    requires InHand(w) && Enabled(w, step) && !IsClosers(step)
    ensures InHand(Apply(w, step))
  {
  }

  lemma ClosersInHand(w: World, step: Step)
    requires InHand(w) && Enabled(w, step) && IsClosers(step)
    ensures InHand(Apply(w, step))
  {
  }

  lemma WorkersClosing(w: World, step: Step)
    requires CloserSound(w) && Enabled(w, step) && !IsClosers(step) && !step.BeCut?
    ensures CloserSound(Apply(w, step))
  {
  }

  lemma DrainsClosing(w: World, step: Step)
    requires CloserSound(w) && Enabled(w, step)
    requires step.Close? || step.Stopped? || step.PickUp? || step.GiveBack? || step.Emptied? || step.Interrupt?
    ensures CloserSound(Apply(w, step))
  {
  }

  lemma EndsClosing(w: World, step: Step)
    requires CloserSound(w) && Enabled(w, step)
    requires step.Dismiss? || step.Done? || step.Deadline? || step.Cut? || step.Release?
    ensures CloserSound(Apply(w, step))
  {
  }

  lemma StepKeeps(w: World, step: Step)
    requires Inv(w) && Enabled(w, step)
    ensures Inv(Apply(w, step))
  {
    if !IsClosers(step) {
      WorkersInHand(w, step);
      if !step.BeCut? { WorkersClosing(w, step); }
    } else {
      ClosersAccounted(w, step);
      ClosersInHand(w, step);
      if step.Dismiss? || step.Done? || step.Deadline? || step.Cut? || step.Release? {
        EndsClosing(w, step);
      } else {
        DrainsClosing(w, step);
      }
    }
  }

  lemma {:induction false} EveryRunKeeps(w: World, steps: seq<Step>)
    requires Inv(w) && ValidRun(w, steps)
    ensures Inv(Run(w, steps))
    decreases |steps|
  {
    if steps != [] {
      StepKeeps(w, steps[0]);
      EveryRunKeeps(Apply(w, steps[0]), steps[1..]);
    }
  }

  // ---------------------------------------------------------------- the theorems

  lemma {:induction false} NothingSettlesAfterRelease(w: World, steps: seq<Step>)
    requires Inv(w) && w.closer.Closed? && ValidRun(w, steps)
    ensures Run(w, steps).settlements == w.settlements
    decreases |steps|
  {
    if steps != [] {
      StepKeeps(w, steps[0]);
      NothingSettlesAfterRelease(Apply(w, steps[0]), steps[1..]);
    }
  }

  /** Over every interleaving of deliveries, workers, a close from outside or from a handler, its
      deadline, failing transports and cancellations: no delivery is settled twice; once the
      subscription is released none is settled any more, so that what is not settled by then is the
      broker's to hand out again; and a close that says every handler finished has cut none off and
      left nothing queued. */
  lemma ClosingIsClean(start: World, before: seq<Step>, after: seq<Step>, d: nat)
    requires Initial(start) && ValidRun(start, before) && ValidRun(Run(start, before), after)
    ensures var w := Run(start, before);
            && Count(w.settlements, d) <= 1
            && (Count(w.settlements, d) == 1 <==> d in w.at && w.at[d].Settled?)
            && (w.subscription.Released? ==>
                  && AllEnded(w.workers)
                  && Count(Run(w, after).settlements, d) == Count(w.settlements, d))
            && (w.closer == Closed(AllDone) && d in w.at ==> w.at[d].Settled? || w.at[d].Failed?)
  {
    EveryRunKeeps(start, before);
    var w := Run(start, before);
    assert Accounted(w.at, w.settlements);
    if w.closer.Closed? {
      NothingSettlesAfterRelease(w, after);
    }
  }

  /** A delivery no worker has taken up: queued, or given back, or left to the broker. */
  predicate Unstarted(w: World, d: nat) {
    d in w.at ==> w.at[d].InQueue? || w.at[d].WithClose? || w.at[d] == Settled(true) || w.at[d].Failed?
  }

  lemma {:induction false} StaysUnstarted(w: World, steps: seq<Step>, d: nat)
    requires Inv(w) && ValidRun(w, steps) && Unstarted(w, d)
    requires forall i :: 0 <= i < |steps| ==> !(steps[i].TakeUp? && steps[i].delivery == d)
    ensures Unstarted(Run(w, steps), d)
    decreases |steps|
  {
    if steps != [] {
      assert !(steps[0].TakeUp? && steps[0].delivery == d);
      StepKeeps(w, steps[0]);
      StaysUnstarted(Apply(w, steps[0]), steps[1..], d);
    }
  }

  /** A message that was delivered and not started is given back, if it is settled at all: never
      acknowledged, whatever the close and the workers do. */
  lemma UnstartedIsGivenBack(start: World, steps: seq<Step>, d: nat)
    requires Initial(start) && ValidRun(start, steps)
    requires forall i :: 0 <= i < |steps| ==> !(steps[i].TakeUp? && steps[i].delivery == d)
    ensures var w := Run(start, steps); d in w.at && w.at[d].Settled? ==> w.at[d].givenBack
  {
    StaysUnstarted(start, steps, d);
  }

  /** The workers that have not ended. */
  function Live(workers: map<nat, Worker>): set<nat> { set n | n in workers && !workers[n].Ended? }

  /** Nobody is dismissed before the queue is drained, and while `close` waits there is a dismissal in the
      queue for each worker still going. */
  predicate DismissalsSound(w: World) {
    && (w.closer.Open? || w.closer.Stopping? || w.closer.Draining? || w.closer.GivingBack? || w.closer.Dismissing? ==>
          w.sentinels == 0 && w.cancelled == {} && Live(w.workers) == w.workers.Keys)
    && (w.closer.Waiting? ==> w.sentinels == |Live(w.workers)| && w.cancelled == {})
  }

  lemma StepDismisses(w: World, step: Step)
    requires DismissalsSound(w) && Enabled(w, step)
    ensures DismissalsSound(Apply(w, step))
  {
    var v := Apply(w, step);
    match step
    case Dismissed(n) => assert Live(v.workers) == Live(w.workers) - {n};
    case TakeUp(_, _) => assert Live(v.workers) == Live(w.workers);
    case Settle(_, _) => assert Live(v.workers) == Live(w.workers);
    case Fail(_) => assert Live(v.workers) == Live(w.workers);
    case Dismiss => assert |w.workers.Keys| == |w.workers|;
    case _ =>
  }

  lemma {:induction false} RunDismisses(w: World, steps: seq<Step>)
    requires DismissalsSound(w) && ValidRun(w, steps)
    ensures DismissalsSound(Run(w, steps))
    decreases |steps|
  {
    if steps != [] {
      StepDismisses(w, steps[0]);
      RunDismisses(Apply(w, steps[0]), steps[1..]);
    }
  }

  /** In every run the workers keep at it until the queue is drained; from then on, while `close` waits for
      them, each that is idle can end by itself, and none ends otherwise. */
  lemma IdleWorkersAreDismissed(start: World, steps: seq<Step>, n: nat)
    requires Initial(start) && ValidRun(start, steps) && n in Run(start, steps).workers
    ensures var w := Run(start, steps);
            && (w.workers[n].Ended? ==> Drained(w) || w.closer.Cutting? || w.closer.Unwinding? || w.closer.Left?
                                        || w.closer.Closed?)
            && (w.closer.Waiting? && w.workers[n].Idle? ==> Enabled(w, Dismissed(n)))
            && (w.closer.Waiting? ==> !Enabled(w, BeCut(n)))
  {
    assert Live(start.workers) == start.workers.Keys;
    RunDismisses(start, steps);
    EveryRunKeeps(start, steps);
    var w := Run(start, steps);
    assert n in Live(w.workers) <==> !w.workers[n].Ended?;
  }

  /** Closing never gets stuck on the workers: once it has cut them off, each one still going can end. */
  lemma CutWorkersCanEnd(start: World, steps: seq<Step>, n: nat)
    requires Initial(start) && ValidRun(start, steps)
    requires var w := Run(start, steps); w.closer.Unwinding? && n in w.workers && !w.workers[n].Ended?
    ensures Enabled(Run(start, steps), BeCut(n))
    ensures Apply(Run(start, steps), BeCut(n)).workers[n].Ended?
    ensures Apply(Run(start, steps), BeCut(n)).settlements == Run(start, steps).settlements
  {
    EveryRunKeeps(start, steps);
  }

  // ---------------------------------------------------------------- closing a second time

  datatype Answer = Says(everyHandlerFinished: bool) | Waits | Raises

  /** What the close that did the work tells its own caller. */
  function OwnAnswer(waited: Waited): Answer { if waited.Interrupted? then Raises else Says(waited.AllDone?) }

  /** What a `close` is told that comes when one has begun: to wait for the close a handler started, and
      otherwise at once that every handler finished. */
  function AnswerAgain(w: World): Answer
    requires !w.closer.Open?
  {
    if !w.halting.TheCloser? then Says(true)
    else match w.closer
      case Closed(waited) => OwnAnswer(waited)
      case Left => Raises
      case _ => Waits
  }

  /** What the answer says: everything is over, and no handler was cut off. */
  predicate Finished(w: World) {
    w.subscription.Released? && AllEnded(w.workers) && forall d :: d in w.at ==> w.at[d].Settled? || w.at[d].Failed?
  }

  /** A second close is told that every handler finished when not every one did exactly when no handler
      started the first close and that one is not over, or did not see every worker done and has let a
      delivery go unfinished: cut off in its handler, still queued, or in hand. */
  lemma SecondCloseMisleadsExactlyWhen(start: World, steps: seq<Step>)
    requires Initial(start) && ValidRun(start, steps) && !Run(start, steps).closer.Open?
    ensures var w := Run(start, steps);
            (AnswerAgain(w) == Says(true) && !Finished(w)) <==>
              && !w.halting.TheCloser?
              && (|| !w.closer.Closed?
                  || (!w.closer.waited.AllDone? && exists d :: d in w.at && !w.at[d].Settled? && !w.at[d].Failed?))
  {
    EveryRunKeeps(start, steps);
  }

  /** Once the first close is over, a second one is told what the first was told exactly when a handler
      started that, or it saw every worker done; otherwise the first said that handlers were cut off, or
      raised, and the second is still told that every one finished. */
  lemma SecondAnswerIsTheFirstsExactlyWhen(start: World, steps: seq<Step>)
    requires Initial(start) && ValidRun(start, steps) && Run(start, steps).closer.Closed?
    ensures var w := Run(start, steps);
            && (AnswerAgain(w) == OwnAnswer(w.closer.waited) <==> w.halting.TheCloser? || w.closer.waited.AllDone?)
            && (OwnAnswer(w.closer.waited) == Says(true) ==> Finished(w))
  {
    EveryRunKeeps(start, steps);
  }

  /** Told by a close that a handler started, or of one that found every worker done, it is true. */
  lemma SecondCloseIsRight(start: World, steps: seq<Step>)
    requires Initial(start) && ValidRun(start, steps) && !Run(start, steps).closer.Open?
    ensures var w := Run(start, steps);
            AnswerAgain(w) == Says(true) && (w.halting.TheCloser? || w.closer == Closed(AllDone)) ==> Finished(w)
  {
    EveryRunKeeps(start, steps);
  }

  /** A run in which it is not: a delivery is in a worker's hands, close has just been called, and is
      called again. */
  lemma SecondCloseCanMislead(start: World, worker: nat) returns (steps: seq<Step>)
    requires Initial(start) && worker in start.workers
    ensures ValidRun(start, steps)
    ensures var w := Run(start, steps);
            !w.closer.Open? && AnswerAgain(w) == Says(true) && worker in w.workers && w.workers[worker].Handling?
            && !w.subscription.Released?
  {
    steps := Busy(start, worker);
  }

  lemma Further(start: World, before: seq<Step>, step: Step) returns (steps: seq<Step>)
    requires ValidRun(start, before) && Enabled(Run(start, before), step)
    ensures ValidRun(start, steps) && Run(start, steps) == Apply(Run(start, before), step)
  {
    RunFurther(start, before, step);
    steps := before + [step];
  }

  /** A delivery arrives, a worker takes it up, and close is called. */
  lemma Busy(start: World, worker: nat) returns (steps: seq<Step>)
    requires Initial(start) && worker in start.workers
    ensures ValidRun(start, steps)
    ensures Run(start, steps) ==
            start.(at := map[0 := With(worker)], workers := start.workers[worker := Handling(0)], closer := Stopping)
  {
    steps := Further(start, [], Arrive(0));
    steps := Further(start, steps, TakeUp(worker, 0));
    steps := Further(start, steps, Close(false));
    assert start.at == map[] && map[0 := InQueue][0 := With(worker)] == map[0 := With(worker)];
  }

  /** Between these worlds workers were cut off and nothing else happened. */
  predicate OnlyCut(w: World, v: World) {
    && v == w.(at := v.at, workers := v.workers) && v.at.Keys == w.at.Keys
    && forall d :: d in w.at ==> v.at[d] == w.at[d] || (w.at[d].With? && v.at[d].CutOff?)
  }

  /** Once close has cut off whoever is still going, all of them can end, leaving unsettled what they
      had in hand. */
  lemma {:induction false} AllCanEnd(start: World, before: seq<Step>, going: set<nat>) returns (steps: seq<Step>)
    requires Inv(start) && ValidRun(start, before)
    requires Run(start, before).closer.Unwinding? && going == Going(Run(start, before).workers)
    ensures ValidRun(start, steps)
    ensures AllEnded(Run(start, steps).workers) && OnlyCut(Run(start, before), Run(start, steps))
    decreases going
  {
    EveryRunKeeps(start, before);
    if n :| n in going {
      steps := Further(start, before, BeCut(n));
      steps := AllCanEnd(start, steps, going - {n});
    } else {
      assert forall n :: n in Run(start, before).workers && !Run(start, before).workers[n].Ended? ==> n in going;
      steps := before;
    }
  }

  lemma NobodyHandling(w: World)
    requires InHand(w) && AllEnded(w.workers)
    ensures forall d :: d in w.at ==> !w.at[d].With?
  {
  }

  /** And that worker is still at it when the time is up. */
  lemma TimedOut(start: World, worker: nat) returns (steps: seq<Step>)
    requires Initial(start) && worker in start.workers
    ensures ValidRun(start, steps)
    ensures var w := Run(start, steps);
            w.closer == Unwinding(TimeUp) && w.halting.NoTask? && w.at == map[0 := With(worker)]
  {
    steps := Busy(start, worker);
    var w := Run(start, steps);
    steps := Further(start, steps, Stopped);
    steps := Further(start, steps, Emptied);
    steps := Further(start, steps, Dismiss);
    assert Run(start, steps).workers == w.workers && w.workers[worker] == Handling(0);
    steps := Further(start, steps, Deadline);
    steps := Further(start, steps, Cut);
  }

  /** A run in which it is still not when the first close is over: the time ran out, the handler was cut
      off, the first close said so, and the second is told that every handler finished. */
  lemma SecondCloseMisleadsAfterwards(start: World, worker: nat) returns (steps: seq<Step>)
    requires Initial(start) && worker in start.workers
    ensures ValidRun(start, steps)
    ensures var w := Run(start, steps);
            && w.closer == Closed(TimeUp) && OwnAnswer(TimeUp) == Says(false)
            && AnswerAgain(w) == Says(true) && w.at == map[0 := CutOff] && !Finished(w)
  {
    steps := TimedOut(start, worker);
    var w := Run(start, steps);
    steps := AllCanEnd(start, steps, Going(w.workers));
    EveryRunKeeps(start, steps);
    var v := Run(start, steps);
    NobodyHandling(v);
    assert 0 in w.at && v.at == map[0 := CutOff];
    steps := Further(start, steps, Release);
    assert Run(start, steps) == v.(subscription := Released, closer := Closed(TimeUp)) && 0 in v.at;
  }

  // ---------------------------------------------------------------- close, step by step

  function Queued(at: map<nat, Where>): set<nat> { set d | d in at && at[d].InQueue? }

  function Going(workers: map<nat, Worker>): set<nat> { set n | n in workers && !workers[n].Ended? }

  /** What the workers and the broker may do leaves `close` where it is, once stopped only empties the
      queue, and ends workers for good. */
  lemma OthersLeaveClosing(w: World, step: Step)
    requires Enabled(w, step) && !IsClosers(step)
    ensures var v := Apply(w, step);
            && v.closer == w.closer && v.subscription == w.subscription && v.cancelled == w.cancelled
            && v.workers.Keys == w.workers.Keys
            && (!w.subscription.Delivering? ==> Queued(v.at) <= Queued(w.at))
            && Going(v.workers) <= Going(w.workers)
  {
  }

  lemma {:induction false} RunFurther(w: World, steps: seq<Step>, step: Step)
    requires ValidRun(w, steps) && Enabled(Run(w, steps), step)
    ensures ValidRun(w, steps + [step]) && Run(w, steps + [step]) == Apply(Run(w, steps), step)
    decreases |steps|
  {
    if steps == [] {
      assert steps + [step] == [step] && [step][1..] == [];
    } else {
      RunFurther(Apply(w, steps[0]), steps[1..], step);
      assert (steps + [step])[1..] == steps[1..] + [step];
    }
  }

  class Consumer {
    var world: World
    ghost const start: World
    ghost var trace: seq<Step>

    constructor (names: set<nat>)
      ensures Valid() && world.closer == Open && trace == []
    {
      var begun := World(map[], (map n | n in names :: Idle), 0, {}, Delivering, Open, NoTask, map[]);
      world, start, trace := begun, begun, [];
    }

    ghost predicate Valid()
      reads this
    {
      Initial(start) && ValidRun(start, trace) && world == Run(start, trace)
    }

    method Take(step: Step)
      requires Valid() && Enabled(world, step)
      modifies this
      ensures Valid() && world == Apply(old(world), step)
    {
      RunFurther(start, trace, step);
      world := Apply(world, step);
      trace := trace + [step];
    }

    method Await()
      requires Valid()
      modifies this
      ensures Valid() && world.closer == old(world.closer) && world.subscription == old(world.subscription)
      ensures world.cancelled == old(world.cancelled)
      ensures !world.subscription.Delivering? ==> Queued(world.at) <= old(Queued(world.at))
      ensures Going(world.workers) <= old(Going(world.workers))
    {
      var many: int := *;
      while many > 0
        invariant Valid() && world.closer == old(world.closer) && world.subscription == old(world.subscription)
        invariant world.cancelled == old(world.cancelled)
        invariant !world.subscription.Delivering? ==> Queued(world.at) <= old(Queued(world.at))
        invariant Going(world.workers) <= old(Going(world.workers))
      {
        many := many - 1;
        var step: Step := *;
        if !IsClosers(step) && Enabled(world, step) {
          OthersLeaveClosing(world, step);
          Take(step);
        }
      }
    }

    /** Gives back what is queued and not started; whether an error or a cancellation cut it short. */
    method Drain() returns (interrupted: bool)
      requires Valid() && world.closer.Draining? && !world.subscription.Delivering?
      modifies this
      ensures Valid() && world.closer == if interrupted then Cutting(Interrupted) else Dismissing
      ensures !interrupted ==> Queued(world.at) == {}
    {
      var queued := Queued(world.at);
      while queued != {}
        invariant Valid() && world.closer.Draining? && queued == Queued(world.at) && !world.subscription.Delivering?
        decreases queued
      {
        var d :| d in queued;
        interrupted := GiveBackOne(d);
        if interrupted { return; }
        queued := Queued(world.at);
      }
      assert forall d :: d in world.at && world.at[d].InQueue? ==> d in queued;
      Take(Emptied);
      interrupted := false;
    }

    method GiveBackOne(d: nat) returns (interrupted: bool)
      requires Valid() && world.closer.Draining? && !world.subscription.Delivering? && d in Queued(world.at)
      modifies this
      ensures Valid() && world.closer == if interrupted then Cutting(Interrupted) else Draining
      ensures !interrupted ==> !world.subscription.Delivering? && Queued(world.at) < old(Queued(world.at))
    {
      ghost var before := Queued(world.at);
      Take(PickUp(d));
      assert Queued(world.at) == before - {d};
      Await();
      ghost var left := Queued(world.at);
      if * {
        Take(Interrupt);
        return true;
      }
      Take(GiveBack);
      assert Queued(world.at) <= left <= before - {d} < before;
      interrupted := false;
    }

    /** Stops the subscription and drains the queue. */
    method Stop() returns (interrupted: bool)
      requires Valid() && world.closer.Open?
      modifies this
      ensures Valid() && world.closer == if interrupted then Cutting(Interrupted) else Dismissing
    {
      Take(Close(false));
      Await();
      if * {
        Take(Interrupt);
        interrupted := true;
      } else {
        Take(Stopped);
        interrupted := Drain();
      }
    }

    /** Tells the workers to end and waits for them, for a while. */
    method Dismissal() returns (waited: Waited)
      requires Valid() && world.closer.Dismissing?
      modifies this
      ensures Valid() && world.closer == Cutting(waited)
    {
      Take(Dismiss);
      Await();
      if AllEnded(world.workers) {
        Take(Done);
        return AllDone;
      }
      if * {
        Take(Deadline);
        return TimeUp;
      }
      Take(Interrupt);
      return Interrupted;
    }

    /** Waits for what was cut off; each of those ends, sooner or later. */
    method WaitForStragglers()
      requires Valid() && world.closer.Unwinding?
      modifies this
      ensures Valid() && world.closer == old(world.closer) && AllEnded(world.workers)
    {
      Await();
      var going := Going(world.workers);
      while going != {}
        invariant Valid() && world.closer == old(world.closer) && going == Going(world.workers)
        decreases going
      {
        var n :| n in going;
        CutWorkersCanEnd(start, trace, n);
        Take(BeCut(n));
        assert Going(world.workers) == going - {n};
        going := Going(world.workers);
      }
      assert forall n :: n in world.workers && !world.workers[n].Ended? ==> n in going;
    }

    /** `close`, once it has been called: it waits only for a close that a handler started. */
    method CloseAgain() returns (answer: Answer)
      requires Valid() && !world.closer.Open?
      ensures answer == AnswerAgain(world)
      ensures answer == Says(true) && world.halting.TheCloser? ==> Finished(world)
    {
      SecondCloseIsRight(start, trace);
      if world.halting == TheCloser {
        if world.closer == Closed(AllDone) { return Says(true); }
        if world.closer == Closed(TimeUp) { return Says(false); }
        if world.closer.Closed? || world.closer.Left? { return Raises; }
        return Waits;
      }
      return Says(true);
    }

    /** `close`, the first time it is called. */
    method CloseIt() returns (waited: Waited)
      requires Valid() && world.closer.Open?
      modifies this
      ensures Valid() && world.closer == Closed(waited) && world.subscription.Released? && AllEnded(world.workers)
      ensures waited.AllDone? ==> forall d :: d in world.at ==> world.at[d].Settled? || world.at[d].Failed?
    {
      var interrupted := Stop();
      waited := Interrupted;
      if !interrupted {
        waited := Dismissal();
      }
      Take(Cut);
      WaitForStragglers();
      Take(Release);
      forall d { ClosingIsClean(start, trace, [], d); }
    }
  }
}
