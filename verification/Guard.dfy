/** `idempotent` around a handler, and the three methods of `SqlIdempotencyStore` it calls
    (src/acemq_amqp/patterns/idempotency.py, sql.py), as the statements they execute. Whatever the
    other calls, nodes and the clock do meanwhile happens at each `Await`. */
module Guard {
  import opened Retry
  import opened Lease
  import S = Settlement

  /** What `claim` returns, or that it raised. */
  datatype Claim = TakenOn | Duplicate | InProgress | StoreFailed

  function CallOf(step: Step): Option<nat> {
    match step
    case Tick(_) => None
    case Purge(_) => None
    case Ask(call, _, _) => Some(call)
    case Insert(call, _) => Some(call)
    case Update(call, _) => Some(call)
    case Select(call, _) => Some(call)
    case Handle(call, _) => Some(call)
    case Confirm(call, _) => Some(call)
    case Record(call, _) => Some(call)
    case Forget(call, _) => Some(call)
    case Crash(call) => Some(call)
  }

  /** A call that asks for a key, and whose confirmation lasts from then on, is answered as a duplicate. */
  lemma AskedForConfirmed(c: Config, start: World, before: seq<Step>, after: seq<Step>, call: nat, key: Key, node: Node)
    requires Initial(start) && ValidRun(c, start, before) && ValidRun(c, Run(c, start, before), after)
    requires after != [] && after[0] == Ask(call, key, node) && key != ""
    requires forall i :: 0 < i < |after| ==> after[i] != Crash(call)
    requires LastingThroughout(c, Run(c, start, before), after, key)
    ensures var v := Run(c, Run(c, start, before), after); call in v.calls && FoundDuplicate(v.calls[call].pc)
  {
    var w := Run(c, start, before);
    ConfirmationsLast(c, start, before);
    StepConfirmationsStay(c, w, after[0]);
    assert forall i :: 0 <= i < |after[1..]| ==> after[1..][i] == after[i + 1];
    ConfirmedTurnsAway(c, Apply(c, w, after[0]), after[1..], call);
  }

  /** Whether a confirmation of this call lost the answer to a statement. */
  predicate ConfirmLost(step: Step, call: nat) {
    match step
    case Confirm(n, fate) => n == call && fate.Lost?
    case Record(n, fate) => n == call && fate.Lost?
    case _ => false
  }

  class SharedStore {
    const config: Config
    var world: World
    ghost const start: World
    ghost var trace: seq<Step>

    constructor (config: Config, clock: int)
      ensures Valid() && trace == [] && this.config == config
    {
      this.config := config;
      world := World(map[], clock, map[], {}, map[]);
      start := World(map[], clock, map[], {}, map[]);
      trace := [];
    }

    /** The world is what the steps taken so far make of an empty table. */
    ghost predicate Valid()
      reads this
    {
      Initial(start) && ValidRun(config, start, trace) && world == Run(config, start, trace)
    }

    predicate Has(call: nat, pc: Pc)
      reads this
    {
      call in world.calls && world.calls[call].pc == pc
    }

    method Take(step: Step)
      requires Valid() && Enabled(world, step)
      modifies this
      ensures Valid() && world == Apply(config, old(world), step) && trace == old(trace) + [step]
    {
      RunFurther(config, start, trace, step);
      world := Apply(config, world, step);
      trace := trace + [step];
    }

    /** Everything anybody else may do before this call goes on. */
    method Await(call: nat)
      requires Valid()
      modifies this
      ensures Valid() && old(trace) <= trace
      ensures call in world.calls <==> call in old(world.calls)
      ensures call in world.calls ==> world.calls[call] == old(world.calls[call])
      ensures forall i :: |old(trace)| <= i < |trace| ==> CallOf(trace[i]) != Some(call)
    {
      var many: int := *;
      while many > 0
        invariant Valid() && old(trace) <= trace
        invariant call in world.calls <==> call in old(world.calls)
        invariant call in world.calls ==> world.calls[call] == old(world.calls[call])
        invariant forall i :: |old(trace)| <= i < |trace| ==> CallOf(trace[i]) != Some(call)
      {
        many := many - 1;
        var step: Step := *;
        if Enabled(world, step) && CallOf(step) != Some(call) {
          Take(step);
        }
      }
    }

    method WhatBecomes() returns (fate: Fate) {
      if * { fate := Heard; } else if * { fate := Lost(true); } else { fate := Lost(false); }
    }

    /** `cursor.execute` of one statement of `call`: how many rows it changed, if that was heard. */
    method Execute(call: nat, step: Step, wins: bool, fate: Fate) returns (rowcount: Option<nat>)
      requires Valid() && Enabled(world, step) && CallOf(step) == Some(call)
      modifies this
      ensures Valid() && world == Apply(config, old(world), step) && trace == old(trace) + [step]
      ensures rowcount == if fate.Lost? then None else Some(if wins then 1 else 0)
    {
      Take(step);
      rowcount := if fate.Lost? then None else Some(if wins then 1 else 0);
    }

    /** Three statements, each of which may be the last. */
    method ClaimKey(call: nat) returns (claim: Claim)
      requires Valid() && Has(call, Inserting)
      modifies this
      ensures Valid() && old(trace) <= trace && call in world.calls
      ensures forall i :: |old(trace)| <= i < |trace| ==> trace[i] != Crash(call)
      ensures world.calls[call] == old(world.calls[call]).(pc := world.calls[call].pc)
      ensures world.calls[call].pc ==
              match claim {
                case TakenOn => Running
                case Duplicate => Answered(S.Accept)
                case InProgress => Answered(Later(config))
                case StoreFailed => Answered(STORE_FAILED)
              }
    {
      Await(call);
      var fate := WhatBecomes();
      var rowcount := Execute(call, Insert(call, fate), InsertWins(world.table, world.calls[call]), fate);
      if rowcount == None { return StoreFailed; }
      if rowcount.value == 1 { return TakenOn; }

      Await(call);
      fate := WhatBecomes();
      rowcount := Execute(call, Update(call, fate), UpdateWins(world.table, world.calls[call]), fate);
      if rowcount == None { return StoreFailed; }
      if rowcount.value == 1 { return TakenOn; }

      Await(call);
      fate := WhatBecomes();
      var key := world.calls[call].key;
      var row := if key in world.table then Some(world.table[key]) else None;
      Take(Select(call, fate));
      if fate.Lost? { return StoreFailed; }
      claim := if row.Some? && row.value.state == Confirmed then Duplicate else InProgress;
    }

    /** `_confirm_quietly`: a failure leaves the answer as it is; `recorded` is whether the confirmation
        is known to be in the table, where it then lasts for the retention. */
    method ConfirmKey(call: nat) returns (recorded: bool)
      requires Valid() && call in world.calls && world.calls[call].pc.Confirming?
      modifies this
      ensures Valid() && old(trace) <= trace && call in world.calls
      ensures world.calls[call] == old(world.calls[call]).(pc := Answered(S.Accept))
      ensures recorded ==>
                var key, until := world.calls[call].key, old(world.calls[call].pc.at) + config.retention;
                && key in world.table && world.table[key] == Row(Confirmed, None, until)
                && key in world.confirmedUntil && world.confirmedUntil[key] == until
      ensures !recorded ==>
                || world.calls[call].key in world.table
                || (exists i :: |old(trace)| <= i < |trace| && ConfirmLost(trace[i], call))
    {
      Await(call);
      var fate := WhatBecomes();
      var found := world.calls[call].key in world.table;
      var rowcount := Execute(call, Confirm(call, fate), found, fate);
      assert fate.Lost? ==> ConfirmLost(trace[|trace| - 1], call);
      if rowcount == None { return false; }
      if rowcount.value > 0 { return true; }

      Await(call);
      fate := WhatBecomes();
      var free := world.calls[call].key !in world.table;
      Take(Record(call, fate));
      assert fate.Lost? ==> ConfirmLost(trace[|trace| - 1], call);
      recorded := free && fate.Heard?;
    }

    /** `_forget_quietly`: as above. */
    method ForgetKey(call: nat)
      requires Valid() && call in world.calls && world.calls[call].pc.Forgetting?
      modifies this
      ensures Valid() && old(trace) <= trace && call in world.calls
      ensures world.calls[call] == old(world.calls[call]).(pc := Answered(old(world.calls[call].pc.decision)))
    {
      Await(call);
      var fate := WhatBecomes();
      Take(Forget(call, fate));
    }

    /** From this world to the present, the key's confirmation lasted. */
    ghost predicate LastedSince(before: seq<Step>, key: Key)
      reads this
      requires Valid() && before <= trace
    {
      exists after :: trace == before + after && ValidRun(config, start, before)
        && ValidRun(config, Run(config, start, before), after)
        && LastingThroughout(config, Run(config, start, before), after, key)
    }

    lemma LastedBefore(before: seq<Step>, now: seq<Step>, key: Key)
      requires Valid() && before <= now <= trace && LastedSince(before, key)
      ensures ValidRun(config, start, before) && ValidRun(config, Run(config, start, before), now[|before|..])
      ensures LastingThroughout(config, Run(config, start, before), now[|before|..], key)
    {
      var w := Run(config, start, before);
      var after :| trace == before + after && ValidRun(config, w, after) && LastingThroughout(config, w, after, key);
      var front, back := now[|before|..], trace[|now|..];
      assert after == front + back;
      LastingFirst(config, w, front, back, key);
    }

    /** `claim`, asked for the first time: a key whose confirmation lasts while it asks is a duplicate, unless
        the store fails. */
    method AskFor(call: nat, key: Key, node: Node) returns (claim: Claim, ghost now: seq<Step>)
      requires Valid() && call !in world.calls && key != ""
      modifies this
      ensures Valid() && old(trace) <= trace == now && call in world.calls && world.calls[call].key == key
      ensures world.calls[call].pc ==
              match claim {
                case TakenOn => Running
                case Duplicate => Answered(S.Accept)
                case InProgress => Answered(Later(config))
                case StoreFailed => Answered(STORE_FAILED)
              }
      ensures LastedSince(old(trace), key) ==> claim.Duplicate? || claim.StoreFailed?
    {
      Take(Ask(call, key, node));
      claim := ClaimKey(call);
      now := trace;
      if LastedSince(old(trace), key) {
        ghost var w := Run(config, start, old(trace));
        ghost var after :| trace == old(trace) + after && ValidRun(config, w, after) &&
            LastingThroughout(config, w, after, key);
        assert forall i :: 0 <= i < |after| ==> after[i] == trace[|old(trace)| + i];
        RunSplits(config, start, old(trace), after);
        AskedForConfirmed(config, start, old(trace), after, call, key, node);
      }
    }

    /** `guarded`: claims, runs the handler only if the claim was won, and confirms or forgets by what
        the handler decided. Raising is deciding to retry. While a confirmation of the key lasts the handler
        is not run, and the message accepted unless the store fails. */
    method Guarded(call: nat, key: Key, node: Node, handler: Answer) returns (answer: Answer, ran: bool)
      requires Valid() && call !in world.calls
      modifies this
      ensures Valid() && old(trace) <= trace && Has(call, Answered(answer))
      ensures ran ==> answer == if handler.NotAnAck? then NO_ACTION else handler
      ensures key == "" ==> !ran && answer.Reject? && answer.why.Fatal?
      ensures !ran && key != "" ==>
                || answer.Accept? || answer == S.InProgress(Some(config.inProgressDelay))
                || (answer.Again? && answer.why.Plain?)
      ensures key != "" && LastedSince(old(trace), key) ==> !ran && (answer.Accept? || answer.Again?)
      ensures answer.Accept? ==> SomeHandlerAccepted(config, start, trace, key)
    {
      ran := false;
      if key == "" {
        Take(Ask(call, key, node));
        answer := EMPTY_KEY;
      } else {
        ghost var now;
        var claim;
        claim, now := AskFor(call, key, node);
        if claim.StoreFailed? {
          answer := STORE_FAILED;
        } else if claim.Duplicate? {
          answer := S.Accept;
        } else if claim.InProgress? {
          answer := Later(config);
        } else {
          ran := true;
          answer := RunGuarded(call, handler);
          if LastedSince(old(trace), key) {
            LastedBefore(old(trace), now, key);
          }
        }
      }
      if answer.Accept? {
        AcceptingMeansHandled(config, start, trace, call);
      }
    }

    /** The handler, with the claim in hand. */
    method RunGuarded(call: nat, handler: Answer) returns (answer: Answer)
      requires Valid() && Has(call, Running)
      modifies this
      ensures Valid() && old(trace) <= trace && Has(call, Answered(answer))
      ensures world.calls[call].key == old(world.calls[call].key)
      ensures answer == if handler.NotAnAck? then NO_ACTION else handler
    {
      Await(call);
      Take(Handle(call, handler));
      if handler.NotAnAck? {
        answer := NO_ACTION;
      } else if handler != S.Accept {
        ForgetKey(call);
        answer := handler;
      } else {
        var recorded := ConfirmKey(call);
        answer := handler;
      }
    }
  }
}
