/** The methods of `Consumer` that handle one delivery (src/acemq_amqp/connection.py), against the
    broker and the other workers: every path through them is a run of the settlement machine, and
    settles its delivery once or leaves it to the broker. */
module Consumers {
  import opened Retry
  import opened Envelopes
  import opened Settlement
  import opened Answers
  import Broker

  predicate Settles(step: Step, tag: nat) { step == Ack(tag) || step == Nack(tag) }

  /** How often a run settles a delivery. */
  function Settlements(steps: seq<Step>, tag: nat): nat {
    if steps == [] then 0
    else Settlements(steps[..|steps| - 1], tag) + if Settles(steps[|steps| - 1], tag) then 1 else 0
  }

  /** What the handler answered for a delivery, in the order of a run. */
  function Handled(steps: seq<Step>, tag: nat): seq<Answer> {
    if steps == [] then [] else Handled(steps[..|steps| - 1], tag) + AnswerIn(steps[|steps| - 1], tag)
  }

  function AnswerIn(step: Step, tag: nat): seq<Answer> {
    if step.Finish? && step.tag == tag then [step.answer] else []
  }

  predicate LastIs(steps: seq<Step>, step: Step) { steps != [] && steps[|steps| - 1] == step }

  lemma {:induction false} RunFurther(p: RetryPolicy, w: World, steps: seq<Step>, step: Step)
    requires ValidRun(p, w, steps) && Enabled(Run(p, w, steps), step)
    ensures ValidRun(p, w, steps + [step]) && Run(p, w, steps + [step]) == Apply(p, Run(p, w, steps), step)
    decreases |steps|
  {
    if steps == [] {
      assert steps + [step] == [step] && [step][1..] == [];
    } else {
      RunFurther(p, Apply(p, w, steps[0]), steps[1..], step);
      assert (steps + [step])[1..] == steps[1..] + [step];
    }
  }

  lemma {:induction false} RunSplits(p: RetryPolicy, w: World, front: seq<Step>, back: seq<Step>)
    requires ValidRun(p, w, front + back)
    ensures ValidRun(p, w, front) && ValidRun(p, Run(p, w, front), back)
    ensures Run(p, w, front + back) == Run(p, Run(p, w, front), back)
    decreases |front|
  {
    if front == [] {
      assert front + back == back;
    } else {
      assert (front + back)[1..] == front[1..] + back;
      RunSplits(p, Apply(p, w, front[0]), front[1..], back);
    }
  }

  /** A tag the broker has not given out yet is nobody's, and one in somebody's hands is given out. */
  lemma TagsGivenOut(p: RetryPolicy, start: World, steps: seq<Step>)
    requires Initial(start) && ValidRun(p, start, steps)
    ensures forall tag :: tag in Run(p, start, steps).tasks ==> tag < Run(p, start, steps).nextTag
  {
    InitialHolds(LimitsOf(p), start);
    EveryRunKeeps(p, LimitsOf(p), start, steps);
  }

  /** In no run is a delivery settled twice: nothing settles one that is not in a worker's hands, and
      settling takes it out of them for good. */
  lemma {:induction false} SettledAtMostOnce(p: RetryPolicy, start: World, steps: seq<Step>, tag: nat)
    requires Initial(start) && ValidRun(p, start, steps)
    ensures Settlements(steps, tag) <= 1
    ensures var w := Run(p, start, steps);
            Settlements(steps, tag) == 1 || tag >= w.nextTag ==> tag !in w.tasks
    ensures Settlements(steps, tag) == 1 ==> tag < Run(p, start, steps).nextTag
    decreases |steps|
  {
    TagsGivenOut(p, start, steps);
    if steps != [] {
      var front, last := steps[..|steps| - 1], steps[|steps| - 1];
      assert steps == front + [last] && [last][1..] == [];
      RunSplits(p, start, front, [last]);
      SettledAtMostOnce(p, start, front, tag);
      TagsGivenOut(p, start, front);
      var w := Run(p, start, front);
      assert Run(p, start, steps) == Apply(p, w, last);
      if Settlements(front, tag) == 1 {
        GoneStaysGone(p, w, last, tag);
      } else if Settles(last, tag) {
      }
    }
  }

  class Consumer {
    const policy: RetryPolicy
    var world: World
    ghost const start: World
    ghost var trace: seq<Step>

    constructor (policy: RetryPolicy, world: World)
      requires Initial(world)
      ensures Valid() && trace == [] && this.world == world && this.policy == policy
    {
      this.policy, this.world, start, trace := policy, world, world, [];
    }

    /** The world is what the steps taken so far make of a broker with nothing on it. */
    ghost predicate Valid()
      reads this
    {
      Initial(start) && ValidRun(policy, start, trace) && world == Run(policy, start, trace)
    }

    predicate Has(tag: nat, pc: Pc)
      reads this
    {
      tag in world.tasks && world.tasks[tag].pc == pc
    }

    method Take(step: Step)
      requires Valid() && Enabled(world, step)
      modifies this
      ensures Valid() && world == Apply(policy, old(world), step) && trace == old(trace) + [step]
      ensures forall tag ::
                Settlements(trace, tag) == Settlements(old(trace), tag) + if Settles(step, tag) then 1 else 0
      ensures forall tag :: Handled(trace, tag) == Handled(old(trace), tag) + AnswerIn(step, tag)
    {
      RunFurther(policy, start, trace, step);
      forall tag
        ensures Settlements(trace + [step], tag) == Settlements(trace, tag) + if Settles(step, tag) then 1 else 0
      {
      }
      forall tag ensures Handled(trace + [step], tag) == Handled(trace, tag) + AnswerIn(step, tag) {
      }
      world := Apply(policy, world, step);
      trace := trace + [step];
    }

    /** Everything the broker, the other workers and other consumers may do before this worker goes
        on; its own channel may be lost, but not its process. */
    method Await(tag: nat)
      requires Valid() && tag in world.tasks
      modifies this
      ensures Valid() && tag in world.tasks && world.tasks[tag] == old(world.tasks[tag])
      ensures Settlements(trace, tag) == old(Settlements(trace, tag))
      ensures old(trace) <= trace && Handled(trace, tag) == old(Handled(trace, tag))
    {
      var many: int := *;
      while many > 0
        invariant Valid() && tag in world.tasks && world.tasks[tag] == old(world.tasks[tag])
        invariant Settlements(trace, tag) == old(Settlements(trace, tag))
        invariant old(trace) <= trace && Handled(trace, tag) == old(Handled(trace, tag))
      {
        many := many - 1;
        var step: Step := *;
        if Enabled(world, step) && TaskOf(step) != Some(tag) && step != Crash(world.tasks[tag].channel) {
          TagsGivenOut(policy, start, trace);
          OthersLeaveATask(policy, world, step, tag);
          Take(step);
        }
      }
    }

    method AckIt(tag: nat)
      requires Valid() && Has(tag, Acking)
      modifies this
      ensures LastIs(trace, Ack(tag))
      ensures Valid() && tag !in world.tasks && Settlements(trace, tag) == old(Settlements(trace, tag)) + 1
      ensures old(trace) <= trace && Handled(trace, tag) == old(Handled(trace, tag))
    {
      Await(tag);
      Take(Ack(tag));
    }

    method NackIt(tag: nat)
      requires Valid() && Has(tag, Nacking)
      modifies this
      ensures LastIs(trace, Nack(tag))
      ensures Valid() && tag !in world.tasks && Settlements(trace, tag) == old(Settlements(trace, tag)) + 1
      ensures old(trace) <= trace && Handled(trace, tag) == old(Handled(trace, tag))
    {
      Await(tag);
      Take(Nack(tag));
    }

    /** `asyncio.sleep`, for as long as the worker is to sleep. */
    method Sleep(tag: nat, length: Micros)
      requires Valid() && tag in world.tasks && world.tasks[tag].pc.Sleeping? && world.tasks[tag].pc.length == length
      modifies this
      ensures Valid() && Has(tag, Publishing(old(world.tasks[tag].pc.hop)))
      ensures Settlements(trace, tag) == old(Settlements(trace, tag))
      ensures old(trace) <= trace && Handled(trace, tag) == old(Handled(trace, tag))
    {
      Await(tag);
      Take(Wake(tag));
    }

    /** `_republish`: the original bytes to the hop's queue, and how that ended. */
    method Republish(tag: nat) returns (end: End)
      requires Valid() && tag in world.tasks && world.tasks[tag].pc.Publishing?
      modifies this
      ensures Valid() && Has(tag, AfterPublish(old(world.tasks[tag].pc.hop), end))
      ensures Settlements(trace, tag) == old(Settlements(trace, tag))
      ensures old(trace) <= trace && Handled(trace, tag) == old(Handled(trace, tag))
    {
      Await(tag);
      var reply, stored := Broker.Answer(Target(world.tasks[tag].pc.hop) in world.queues);
      Take(Publish(tag, reply, stored));
      end := EndOf(reply);
    }

    /** Whether the delivery is dealt with; if not, the rung is missing and it is waited for here. */
    method RetryInBroker(tag: nat, delay: Micros) returns (done: bool, raised: bool)
      requires Valid() && Has(tag, Publishing(ToRung(delay)))
      modifies this
      ensures Valid() && (raised ==> Has(tag, Unsettled)) && (done ==> tag !in world.tasks) && !(done && raised)
      ensures !done && !raised ==> Has(tag, if delay > 0 then Sleeping(OntoSource, delay) else Publishing(OntoSource))
      ensures Settlements(trace, tag) == old(Settlements(trace, tag)) + if done then 1 else 0
      ensures old(trace) <= trace && Handled(trace, tag) == old(Handled(trace, tag))
    {
      var end := Republish(tag);
      if end.Broke? { return false, true; }
      if end.Refused? {
        NackIt(tag);
        return true, false;
      }
      if end.Unrouted? { return false, false; }
      AckIt(tag);
      return true, false;
    }

    /** `_retry_again`, `_put_back` and `_set_aside`, once they publish: acknowledged if the copy
        arrived, and returned to the broker if it did not. */
    method MoveOn(tag: nat) returns (raised: bool)
      requires Valid() && tag in world.tasks && world.tasks[tag].pc.Publishing? && !world.tasks[tag].pc.hop.ToRung?
      modifies this
      ensures Valid() && (if raised then Has(tag, Unsettled) else tag !in world.tasks)
      ensures Settlements(trace, tag) == old(Settlements(trace, tag)) + if raised then 0 else 1
      ensures old(trace) <= trace && Handled(trace, tag) == old(Handled(trace, tag))
    {
      var end := Republish(tag);
      if end.Broke? { return true; }
      if end.Routed? {
        AckIt(tag);
      } else {
        NackIt(tag);
      }
      raised := false;
    }

    method PutBack(tag: nat, delay: Micros) returns (raised: bool)
      requires Valid() && Has(tag, if delay > 0 then Sleeping(Hop.PutBack, delay) else Publishing(Hop.PutBack))
      modifies this
      ensures Valid() && (if raised then Has(tag, Unsettled) else tag !in world.tasks)
      ensures Settlements(trace, tag) == old(Settlements(trace, tag)) + if raised then 0 else 1
      ensures old(trace) <= trace && Handled(trace, tag) == old(Handled(trace, tag))
    {
      if delay > 0 {
        Sleep(tag, delay);
      }
      raised := MoveOn(tag);
    }

    /** `_carry_out`: the branches of the original, which meet the machine's at every await. */
    method CarryItOut(tag: nat, decision: Decision) returns (raised: bool)
      requires Valid() && Has(tag, CarryOut(decision))
      modifies this
      ensures Valid() && (if raised then Has(tag, Unsettled) else tag !in world.tasks)
      ensures Settlements(trace, tag) == old(Settlements(trace, tag)) + if raised then 0 else 1
      ensures old(trace) <= trace && Handled(trace, tag) == old(Handled(trace, tag))
    {
      if decision.outcome == Acked {
        AckIt(tag);
        return false;
      }
      if decision.outcome == Stopped {
        NackIt(tag);
        return false;
      }
      if decision.outcome == Parked || decision.wait == None {
        raised := MoveOn(tag);
        return;
      }
      var wait := decision.wait.value;
      if decision.outcome == HeldElsewhere {
        raised := PutBack(tag, wait.delay);
        return;
      }
      if wait.inBroker {
        var done;
        done, raised := RetryInBroker(tag, wait.delay);
        if done || raised { return; }
      }
      if wait.delay > 0 {
        Sleep(tag, wait.delay);
      }
      raised := MoveOn(tag);
    }

    /** What of a run came after its first part. */
    ghost function Since(before: seq<Step>): seq<Step>
      reads this
      requires before <= trace
    {
      trace[|before|..]
    }

    lemma ParkedUnread(before: seq<Step>, tag: nat, failure: string)
      requires Valid() && before + [Start(tag, Some(failure))] <= trace
      requires ValidRun(policy, start, before) && Enabled(Run(policy, start, before), Start(tag, Some(failure)))
      requires Run(policy, start, before).tasks[tag].channel !in Run(policy, start, before).halted
      ensures Ack(tag) in Since(before) ==>
                IsParked(Run(policy, start, before).tasks[tag].envelope, Run(policy, start, before).tasks[tag].body,
                    failure)
    {
      var first := before + [Start(tag, Some(failure))];
      var after := trace[|first|..];
      assert trace == first + after && Since(before) == [Start(tag, Some(failure))] + after;
      RunSplits(policy, start, first, after);
      RunFurther(policy, start, before, Start(tag, Some(failure)));
      UnreadableIsParked(policy, start, before, tag, failure, after);
    }

    /** Whether a message that could not be read is in the parking lot for that reason. */
    predicate IsParked(e: Envelope, body: Body, failure: string)
      reads this
    {
      There(world.copies, Copy(e.(error := "could not be decoded: " + failure), body, Ready(ParkingLot)))
    }

    /** A body that will not decode: `_park`, and no handler. */
    method ParkUnread(tag: nat, failure: string) returns (raised: bool)
      requires Valid() && Has(tag, Queued) && world.tasks[tag].channel !in world.halted
      modifies this
      ensures Valid() && (if raised then Has(tag, Unsettled) else tag !in world.tasks)
      ensures Settlements(trace, tag) == old(Settlements(trace, tag)) + if raised then 0 else 1
      ensures old(trace) <= trace && Handled(trace, tag) == old(Handled(trace, tag))
      ensures Ack(tag) in Since(old(trace)) ==>
                IsParked(old(world.tasks[tag].envelope), old(world.tasks[tag].body), failure)
    {
      ghost var before := trace;
      Take(Start(tag, Some(failure)));
      raised := MoveOn(tag);
      ParkedUnread(before, tag, failure);
    }

    /** A body that decodes: the handler, once, and what it answered. */
    method RunHandler(tag: nat, answer: Answer, age: Micros, moved: Micros) returns (raised: bool)
      requires Valid() && Has(tag, Queued) && world.tasks[tag].channel !in world.halted
      modifies this
      ensures Valid() && (if raised then Has(tag, Unsettled) else tag !in world.tasks)
      ensures Settlements(trace, tag) == old(Settlements(trace, tag)) + if raised then 0 else 1
      ensures old(trace) <= trace && Handled(trace, tag) == old(Handled(trace, tag)) + [answer]
    {
      Take(Start(tag, None));
      Await(tag);
      var decision := GetAnswer(tag, answer, age, moved);
      raised := CarryItOut(tag, decision);
    }

    /** The handler returns, and `_decide`. */
    method GetAnswer(tag: nat, answer: Answer, age: Micros, moved: Micros) returns (decision: Decision)
      requires Valid() && Has(tag, Running)
      modifies this
      ensures Valid() && Has(tag, CarryOut(decision))
      ensures Settlements(trace, tag) == old(Settlements(trace, tag))
      ensures old(trace) <= trace && Handled(trace, tag) == old(Handled(trace, tag)) + [answer]
    {
      decision := Decide(policy, world.tasks[tag].envelope, answer, age, moved);
      Take(Finish(tag, answer, age, moved));
    }

    /** `_handle_one`: a delivery leaves it settled exactly once, or untouched for the broker to hand
        out again after an error nobody caught. After the reader has stopped it is given back, and no
        handler run; a body nobody can read is in the parking lot when it is acknowledged, and no handler
        run; on any other the handler is run once. */
    method HandleOne(tag: nat, unreadable: Option<string>, answer: Answer, age: Micros, moved: Micros)
      returns (raised: bool)
      requires Valid() && Has(tag, Queued)
      modifies this
      ensures Valid() && (if raised then Has(tag, Unsettled) else tag !in world.tasks)
      ensures Settlements(trace, tag) == old(Settlements(trace, tag)) + if raised then 0 else 1
      ensures var halted := old(world.tasks[tag].channel in world.halted);
              && old(trace) <= trace
              && Handled(trace, tag) == old(Handled(trace, tag)) + (if halted || unreadable.Some? then [] else [answer])
              && (halted ==> !raised && LastIs(trace, Nack(tag)))
              && (!halted && unreadable.Some? && Ack(tag) in Since(old(trace)) ==>
                    IsParked(old(world.tasks[tag].envelope), old(world.tasks[tag].body), unreadable.value))
    {
      if world.tasks[tag].channel in world.halted {
        Take(Start(tag, unreadable));
        NackIt(tag);
        return false;
      }
      match unreadable
      case Some(failure) => raised := ParkUnread(tag, failure);
      case None => raised := RunHandler(tag, answer, age, moved);
    }
  }
}
