/** What the binding from the retry exchange home is for (src/acemq_amqp/topology.py): with it a
    consumer loses nothing, and without it an expiring rung loses what it holds. */
module Binding {
  import opened Retry
  import opened Envelopes
  import opened Settlement

  /** Everything published has a copy, but for what was acknowledged after its handler accepted it. */
  ghost predicate KeepsAll(p: RetryPolicy, start: World, steps: seq<Step>)
    requires ValidRun(p, start, steps)
  {
    var w := Run(p, start, steps);
    forall id :: id in w.originals && !AckedAfterAccept(p, start, steps, id) ==>
      exists c :: c in w.copies && w.copies[c].envelope.id == id
  }

  ghost predicate LosesNothing(p: RetryPolicy, start: World) {
    forall steps :: ValidRun(p, start, steps) ==> KeepsAll(p, start, steps)
  }

  lemma BoundLosesNothing(p: RetryPolicy, start: World)
    requires Initial(start)
    ensures LosesNothing(p, start)
  {
    forall steps | ValidRun(p, start, steps) ensures KeepsAll(p, start, steps) {
      var w := Run(p, start, steps);
      forall id | id in w.originals && !AckedAfterAccept(p, start, steps, id)
        ensures exists c :: c in w.copies && w.copies[c].envelope.id == id
      {
        var c := NoMessageIsLost(p, start, steps, id);
      }
    }
  }

  /** A run that leaves no copy of a message no handler accepted. */
  predicate Loses(p: RetryPolicy, w: World, steps: seq<Step>) {
    && ValidRun(p, w, steps)
    && Run(p, w, steps).copies == map[] && Run(p, w, steps).originals != map[]
    && forall i :: 0 <= i < |steps| ==> !(steps[i].Finish? && steps[i].answer.Accept?)
  }

  lemma {:induction false} NothingAccepted(p: RetryPolicy, w: World, steps: seq<Step>)
    requires ValidRun(p, w, steps) && forall i :: 0 <= i < |steps| ==> !(steps[i].Finish? && steps[i].answer.Accept?)
    ensures LedgerOf(p, w, Ledger({}, {}), steps) == Ledger({}, {})
    decreases |steps|
  {
    if steps != [] {
      NothingAccepted(p, Apply(p, w, steps[0]), steps[1..]);
    }
  }

  lemma LosesSome(p: RetryPolicy, start: World, steps: seq<Step>)
    requires Loses(p, start, steps)
    ensures !KeepsAll(p, start, steps)
  {
    NothingAccepted(p, start, steps);
    var id :| id in Run(p, start, steps).originals;
    assert !AckedAfterAccept(p, start, steps, id);
  }

  function OnAttempt(attempt: int): Envelope {
    Envelope("id", "type", 1, "id", "", attempt, 0, "", "", "", "", 0, "", map[], map[])
  }

  const BODY := Body([], "")

  lemma StepFirst(p: RetryPolicy, w: World, step: Step, rest: seq<Step>)
    requires Enabled(w, step) && Loses(p, Apply(p, w, step), rest) && !(step.Finish? && step.answer.Accept?)
    ensures Loses(p, w, [step] + rest)
  {
    assert ([step] + rest)[1..] == rest;
  }

  /** The message with its worker, the only ones there are. */
  predicate Alone(w: World, c: nat, tag: nat, e: Envelope, pc: Pc) {
    && w.copies == map[c := Copy(e, BODY, Held(tag, 0))]
    && w.tasks == map[tag := Task(c, 0, e, BODY, pc)]
    && c < w.nextCopy && tag < w.nextTag
    && e.id in w.originals && !w.homeBound && w.halted == {}
  }

  /** A worker that has answered a message it sends to a rung: publish, acknowledge, expire. */
  lemma LostFromPublishing(p: RetryPolicy, w: World, c: nat, tag: nat, e: Envelope, delay: Micros)
    returns (steps: seq<Step>)
    requires Alone(w, c, tag, e, Publishing(ToRung(delay))) && RungOf(delay) in w.queues
    ensures Loses(p, w, steps)
  {
    var publish, ack, expire := Publish(tag, Answered(true, true), true), Ack(tag), Expire(w.nextCopy);
    var w1 := Apply(p, w, publish);
    var copy := HopCopy(ToRung(delay), e, BODY);
    assert w1.copies == map[c := Copy(e, BODY, Held(tag, 0)), w.nextCopy := copy];
    var w2 := Apply(p, w1, ack);
    assert w2.copies == map[w.nextCopy := copy];
    var w3 := Apply(p, w2, expire);
    assert w3.copies == map[] && e.id in w3.originals && Loses(p, w3, []);
    StepFirst(p, w2, expire, []);
    StepFirst(p, w1, ack, [expire] + []);
    steps := [publish] + ([ack] + ([expire] + []));
    StepFirst(p, w, publish, [ack] + ([expire] + []));
  }

  lemma LostFromRunning(p: RetryPolicy, w: World, c: nat, tag: nat, e: Envelope, age: Micros, moved: Micros,
                        delay: Micros)
    returns (steps: seq<Step>)
    requires Alone(w, c, tag, e, Running) && RungOf(delay) in w.queues
    requires NextWait(p, e.attempt, age, moved) == Some(Wait(delay, true))
    ensures Loses(p, w, steps)
  {
    var finish := Finish(tag, Again(Plain("")), age, moved);
    var v := Apply(p, w, finish);
    assert v.tasks == map[tag := Task(c, 0, e, BODY, Publishing(ToRung(delay)))];
    var rest := LostFromPublishing(p, v, c, tag, e, delay);
    StepFirst(p, w, finish, rest);
    steps := [finish] + rest;
  }

  lemma LostFromTheStart(p: RetryPolicy, start: World, attempt: int, age: Micros, moved: Micros, delay: Micros)
    returns (steps: seq<Step>)
    requires Initial(start.(homeBound := true)) && !start.homeBound && start.halted == {}
    requires attempt >= 1 && NextWait(p, attempt, age, moved) == Some(Wait(delay, true)) &&
               RungOf(delay) in start.queues
    ensures Loses(p, start, steps)
  {
    var e, c, tag := OnAttempt(attempt), start.nextCopy, start.nextTag;
    var arrive, deliver, begin := Arrive(e, BODY), Deliver(c, 0), Start(tag, None);
    assert start.copies == map[] && start.tasks == map[] && start.originals == map[];
    var w1 := Apply(p, start, arrive);
    assert w1.copies == map[c := Copy(e, BODY, Ready(Source))];
    var w2 := Apply(p, w1, deliver);
    assert w2.copies == map[c := Copy(e, BODY, Held(tag, 0))] && w2.tasks == map[tag := Task(c, 0, e, BODY, Queued)];
    var w3 := Apply(p, w2, begin);
    assert w3.tasks == map[tag := Task(c, 0, e, BODY, Running)];
    var rest := LostFromRunning(p, w3, c, tag, e, age, moved, delay);
    StepFirst(p, w2, begin, rest);
    StepFirst(p, w1, deliver, [begin] + rest);
    StepFirst(p, start, arrive, [deliver] + ([begin] + rest));
    steps := [arrive] + ([deliver] + ([begin] + rest));
  }

  /** For a policy that sends some wait to a rung, no run of a consumer that starts on an empty broker
      loses a message exactly when the retry exchange is bound home. */
  lemma ExpiryNeedsTheBinding(p: RetryPolicy, start: World, attempt: int, age: Micros, moved: Micros, delay: Micros)
    requires Initial(start.(homeBound := true)) && start.halted == {}
    requires attempt >= 1 && NextWait(p, attempt, age, moved) == Some(Wait(delay, true)) &&
               RungOf(delay) in start.queues
    ensures LosesNothing(p, start) <==> start.homeBound
  {
    if start.homeBound {
      assert start == start.(homeBound := true);
      BoundLosesNothing(p, start);
    } else {
      var steps := LostFromTheStart(p, start, attempt, age, moved, delay);
      LosesSome(p, start, steps);
    }
  }
}
