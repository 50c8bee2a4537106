/** What a service needs a broker to have (src/acemq_amqp/topology.py): the description a service
    writes down, and the half of it a consumer declares by itself when it starts. */
module Topologies {
  import opened Retry
  import opened Naming

  const DEAD_LETTER_EXCHANGE_ARG := "x-dead-letter-exchange"
  const DEAD_LETTER_ROUTING_KEY_ARG := "x-dead-letter-routing-key"
  const MESSAGE_TTL_ARG := "x-message-ttl"
  const QUEUE_TYPE_ARG := "x-queue-type"
  const RETRY_EXCHANGE := "acemq.retry"
  const DEAD_LETTER_EXCHANGE := "acemq.dlx"

  datatype Arg = Number(n: int) | Text(text: string)
  type Args = map<string, Arg>

  datatype QueueSpec = QueueSpec(durable: bool, autoDelete: bool, exclusive: bool, args: Args)
  datatype ExchangeSpec = ExchangeSpec(kind: string, durable: bool, autoDelete: bool, args: Args)

  const MANAGED_EXCHANGE := ExchangeSpec("direct", true, false, map[])

  /** One thing asked of the broker. */
  datatype Declaration =
    | Exchange(exchangeName: string, exchangeSpec: ExchangeSpec)
    | Queue(queueName: string, queueSpec: QueueSpec)
    | Binding(queue: string, exchange: string, routingKey: string)

  datatype Refusal = NoName | TwoKinds | QuorumCannotBe | TwoDeadLetters

  datatype Result<T> = Success(value: T) | Failure(why: Refusal)

  /** The three lists of a description. */
  datatype Parts = Parts(exchanges: seq<Declaration>, queues: seq<Declaration>, bindings: seq<Declaration>)

  /** `int(delay.total_seconds() * 1000)` for the positive delays a rung has. */
  function Millis(delay: Micros): int { delay / 1000 }

  function RungArgs(source: string, delay: Micros): Args {
    map[MESSAGE_TTL_ARG := Number(Millis(delay)),
        DEAD_LETTER_EXCHANGE_ARG := Text(RETRY_EXCHANGE),
        DEAD_LETTER_ROUTING_KEY_ARG := Text(source)]
  }

  // ---------------------------------------------------------------- what the broker makes of arguments

  /** The exchange and the key a queue's arguments send what expires from it, or is rejected, to. */
  function RouteOf(spec: QueueSpec): Option<(string, string)> {
    if && DEAD_LETTER_EXCHANGE_ARG in spec.args && spec.args[DEAD_LETTER_EXCHANGE_ARG].Text?
       && DEAD_LETTER_ROUTING_KEY_ARG in spec.args && spec.args[DEAD_LETTER_ROUTING_KEY_ARG].Text?
    then Some((spec.args[DEAD_LETTER_EXCHANGE_ARG].text, spec.args[DEAD_LETTER_ROUTING_KEY_ARG].text)) else None
  }

  predicate DeclaredAs(declared: seq<Declaration>, exchange: string, kind: string) {
    exists i :: 0 <= i < |declared| && declared[i].Exchange? && declared[i].exchangeName == exchange
      && declared[i].exchangeSpec.kind == kind
      && declared[i].exchangeSpec.durable && !declared[i].exchangeSpec.autoDelete
  }

  /** By these declarations, what expires from the queue or is rejected goes through a direct exchange, and
      by its key to `home`. */
  predicate LeadsTo(declared: seq<Declaration>, spec: QueueSpec, home: string) {
    && RouteOf(spec).Some?
    && DeclaredAs(declared, RouteOf(spec).value.0, "direct")
    && Binding(home, RouteOf(spec).value.0, RouteOf(spec).value.1) in declared
  }

  /** And nowhere else. */
  ghost predicate LeadsOnlyTo(declared: seq<Declaration>, spec: QueueSpec, home: string) {
    && LeadsTo(declared, spec, home)
    && forall queue ::
         Binding(queue, RouteOf(spec).value.0, RouteOf(spec).value.1) in declared ==> queue == home
  }

  /** A queue that expires what it holds after this delay, to the millisecond below. */
  predicate HoldsFor(spec: QueueSpec, delay: Micros) {
    && MESSAGE_TTL_ARG in spec.args && spec.args[MESSAGE_TTL_ARG].Number?
    && 1000 * spec.args[MESSAGE_TTL_ARG].n <= delay < 1000 * spec.args[MESSAGE_TTL_ARG].n + 1000
  }

  /** The arguments of a rung, as every service that consumes the queue must declare them: three keys. */
  lemma RungOfTwoMinutes()
    ensures RungArgs("orders.new", 120_000_000)
            == map["x-message-ttl" := Number(120_000), "x-dead-letter-exchange" := Text("acemq.retry"),
                   "x-dead-letter-routing-key" := Text("orders.new")]
  {
  }

  function RungQueue(source: string, durable: bool, delay: Micros): Declaration {
    Queue(RetryQueue(source, delay), QueueSpec(durable, false, false, RungArgs(source, delay)))
  }

  /** `str` of an argument. */
  function Shown(arg: Arg): string {
    if arg.Text? then arg.text else if arg.n < 0 then "-" + Decimal(-arg.n) else Decimal(arg.n)
  }

  /** `_queue_type`: what to declare a queue as, `None` being classic. */
  function QueueType(args: Args, durable: bool, autoDelete: bool, exclusive: bool, quorum: Option<bool>)
    : Result<Option<Arg>>
  {
    var perConnection := exclusive || autoDelete || !durable;
    if QUEUE_TYPE_ARG in args then
      if quorum.Some? then Failure(TwoKinds) else Success(Some(Text(Shown(args[QUEUE_TYPE_ARG]))))
    else if quorum.None? then Success(if perConnection then None else Some(Text("quorum")))
    else if !quorum.value then Success(None)
    else if perConnection then Failure(QuorumCannotBe)
    else Success(Some(Text("quorum")))
  }

  /** What a caller of `Topology.queue` asks for. */
  datatype Request = Request(
    name: string, durable: bool, autoDelete: bool, exclusive: bool, quorum: Option<bool>,
    deadLetter: bool, retry: Option<RetryPolicy>, args: Args)

  function WithKind(args: Args, kind: Option<Arg>): Args {
    if kind.Some? then args[QUEUE_TYPE_ARG := kind.value] else args
  }

  function DeadLettered(name: string, args: Args): Args {
    args[DEAD_LETTER_EXCHANGE_ARG := Text(DEAD_LETTER_EXCHANGE)]
        [DEAD_LETTER_ROUTING_KEY_ARG := Text(DeadLetterQueue(name))]
  }

  function Managed(exchanges: seq<Declaration>, name: string): seq<Declaration> {
    if exists i :: 0 <= i < |exchanges| && exchanges[i].Exchange? && exchanges[i].exchangeName == name
    then exchanges else exchanges + [Exchange(name, MANAGED_EXCHANGE)]
  }

  function Catching(name: string, durable: bool): seq<Declaration> {
    [Queue(DeadLetterQueue(name), QueueSpec(durable, false, false, map[])),
     Queue(ParkedQueue(name), QueueSpec(durable, false, false, map[]))]
  }

  function CatchingBindings(name: string): seq<Declaration> {
    [Binding(DeadLetterQueue(name), DEAD_LETTER_EXCHANGE, DeadLetterQueue(name)),
     Binding(ParkedQueue(name), DEAD_LETTER_EXCHANGE, ParkedQueue(name))]
  }

  function Rungs(name: string, durable: bool, delays: seq<Micros>): (rungs: seq<Declaration>) {
    seq(|delays|, i requires 0 <= i < |delays| => RungQueue(name, durable, delays[i]))
  }

  function Delays(retry: Option<RetryPolicy>): seq<Micros> {
    if retry.Some? then BrokerRungs(retry.value) else []
  }

  function WithCatching(parts: Parts, name: string, durable: bool): Parts {
    Parts(Managed(parts.exchanges, DEAD_LETTER_EXCHANGE),
          parts.queues + Catching(name, durable),
          parts.bindings + CatchingBindings(name))
  }

  function WithRungs(parts: Parts, name: string, durable: bool, delays: seq<Micros>): Parts {
    if delays == [] then parts else
    Parts(Managed(parts.exchanges, RETRY_EXCHANGE),
          parts.queues + Rungs(name, durable, delays),
          parts.bindings + [Binding(name, RETRY_EXCHANGE, name)])
  }

  /** The description after a queue has been added to it, or why it could not be. */
  function Added(parts: Parts, ask: Request): Result<Parts> {
    if ask.name == "" then Failure(NoName) else
    var kind := QueueType(ask.args, ask.durable, ask.autoDelete, ask.exclusive, ask.quorum);
    if kind.Failure? then Failure(kind.why) else
    var args := WithKind(ask.args, kind.value);
    if ask.deadLetter && (DEAD_LETTER_EXCHANGE_ARG in args || DEAD_LETTER_ROUTING_KEY_ARG in args) then
      Failure(TwoDeadLetters)
    else
      var spec := QueueSpec(ask.durable, ask.autoDelete, ask.exclusive,
                            if ask.deadLetter then DeadLettered(ask.name, args) else args);
      var plain := parts.(queues := parts.queues + [Queue(ask.name, spec)]);
      var caught := if ask.deadLetter then WithCatching(plain, ask.name, ask.durable) else plain;
      Success(WithRungs(caught, ask.name, ask.durable, Delays(ask.retry)))
  }

  predicate Names(parts: Parts) {
    && (forall i :: 0 <= i < |parts.exchanges| ==> parts.exchanges[i].Exchange?)
    && (forall i :: 0 <= i < |parts.queues| ==> parts.queues[i].Queue?)
    && (forall i :: 0 <= i < |parts.bindings| ==> parts.bindings[i].Binding?)
  }

  predicate DeclaresQueue(parts: Parts, name: string)
    requires Names(parts)
  {
    exists i :: 0 <= i < |parts.queues| && parts.queues[i].queueName == name
  }

  predicate DeclaresExchange(parts: Parts, name: string)
    requires Names(parts)
  {
    exists i :: 0 <= i < |parts.exchanges| && parts.exchanges[i].exchangeName == name
  }

  /** A description that can be right: nothing declared twice, nothing bound that is not declared. */
  predicate Sound(parts: Parts)
    requires Names(parts)
  {
    && (forall i, j :: 0 <= i < j < |parts.queues| ==> parts.queues[i].queueName != parts.queues[j].queueName)
    && (forall i, j :: 0 <= i < j < |parts.exchanges| ==>
          parts.exchanges[i].exchangeName != parts.exchanges[j].exchangeName)
    && (forall i :: 0 <= i < |parts.bindings| ==>
          && parts.bindings[i].exchange != ""
          && DeclaresQueue(parts, parts.bindings[i].queue)
          && DeclaresExchange(parts, parts.bindings[i].exchange))
  }

  /** What a queue is declared as for a request, and why it is refused: a kind the caller wrote down stays,
      and stands against no other answer; otherwise it is a quorum queue when that is asked for, or nothing
      is and it is not tied to a connection, and tied to a connection it cannot be one. */
  predicate DeclaredKind(ask: Request, result: Result<Parts>, spec: QueueSpec) {
    var tied := ask.exclusive || ask.autoDelete || !ask.durable;
    if QUEUE_TYPE_ARG in ask.args then
      && (result.Success? ==> ask.quorum.None?)
      && QUEUE_TYPE_ARG in spec.args && spec.args[QUEUE_TYPE_ARG] == Text(Shown(ask.args[QUEUE_TYPE_ARG]))
    else
      && (result.Success? ==> !(ask.quorum == Some(true) && tied))
      && (if ask.quorum == Some(true) || (ask.quorum.None? && !tied)
          then QUEUE_TYPE_ARG in spec.args && spec.args[QUEUE_TYPE_ARG] == Text("quorum")
          else QUEUE_TYPE_ARG !in spec.args)
  }

  /** Whether a request contradicts itself. */
  predicate Contradicts(ask: Request) {
    || (QUEUE_TYPE_ARG in ask.args && ask.quorum.Some?)
    || (QUEUE_TYPE_ARG !in ask.args && ask.quorum == Some(true) && (ask.exclusive || ask.autoDelete || !ask.durable))
    || (ask.deadLetter && (DEAD_LETTER_EXCHANGE_ARG in ask.args || DEAD_LETTER_ROUTING_KEY_ARG in ask.args))
  }

  function All(parts: Parts): seq<Declaration> { parts.exchanges + parts.queues + parts.bindings }

  /** A queue is added unless it has no name or contradicts itself. */
  lemma AddedUnless(parts: Parts, ask: Request)
    ensures Added(parts, ask).Success? <==> ask.name != "" && !Contradicts(ask)
  {
  }

  /** It is the first of what is added, as durable and of the kind asked for. */
  lemma QueueDeclared(parts: Parts, ask: Request)
    requires Added(parts, ask).Success?
    ensures var queues := Added(parts, ask).value.queues;
            && |queues| > |parts.queues| && queues[..|parts.queues|] == parts.queues
            && queues[|parts.queues|].Queue? && queues[|parts.queues|].queueName == ask.name
            && var spec := queues[|parts.queues|].queueSpec;
               && spec.durable == ask.durable && spec.autoDelete == ask.autoDelete && spec.exclusive == ask.exclusive
               && DeclaredKind(ask, Added(parts, ask), spec)
  {
  }

  /** When it is to have dead letters, what it rejects or lets expire goes to its own dead-letter queue,
      provided the caller has not declared that exchange otherwise. */
  lemma DeadLettersLead(parts: Parts, ask: Request)
    requires Names(parts) && !DeclaresExchange(parts, DEAD_LETTER_EXCHANGE)
    requires Added(parts, ask).Success? && ask.deadLetter
    ensures var after := Added(parts, ask).value;
            && |after.queues| > |parts.queues| + 2
            && after.queues[|parts.queues|].Queue?
            && LeadsTo(All(after), after.queues[|parts.queues|].queueSpec, DeadLetterQueue(ask.name))
            && after.queues[|parts.queues| + 1] == Queue(DeadLetterQueue(ask.name),
                 QueueSpec(ask.durable, false, false, map[]))
            && after.queues[|parts.queues| + 2] == Queue(ParkedQueue(ask.name),
                 QueueSpec(ask.durable, false, false, map[]))
  {
    var after, e := Added(parts, ask).value, |parts.exchanges|;
    assert Managed(parts.exchanges, DEAD_LETTER_EXCHANGE) == parts.exchanges +
             [Exchange(DEAD_LETTER_EXCHANGE, MANAGED_EXCHANGE)];
    assert All(after)[e] == Exchange(DEAD_LETTER_EXCHANGE, MANAGED_EXCHANGE);
    assert after.bindings[|parts.bindings|] == CatchingBindings(ask.name)[0];
  }

  class Topology {
    var exchanges: seq<Declaration>
    var queues: seq<Declaration>
    var bindings: seq<Declaration>

    function Contents(): Parts reads this { Parts(exchanges, queues, bindings) }

    constructor ()
      ensures Contents() == Parts([], [], [])
    {
      exchanges, queues, bindings := [], [], [];
    }

    method ManagedExchange(name: string)
      modifies this`exchanges
      ensures exchanges == Managed(old(exchanges), name)
    {
      for i := 0 to |exchanges|
        invariant forall j :: 0 <= j < i ==> !(exchanges[j].Exchange? && exchanges[j].exchangeName == name)
        invariant exchanges == old(exchanges)
      {
        if exchanges[i].Exchange? && exchanges[i].exchangeName == name { return; }
      }
      exchanges := exchanges + [Exchange(name, MANAGED_EXCHANGE)];
    }

    /** The dead-letter and parking queues, bound on their own names. */
    method AddCatching(name: string, durable: bool)
      modifies this
      ensures exchanges == Managed(old(exchanges), DEAD_LETTER_EXCHANGE)
      ensures queues == old(queues) + Catching(name, durable)
      ensures bindings == old(bindings) + CatchingBindings(name)
    {
      ManagedExchange(DEAD_LETTER_EXCHANGE);
      var targets := [DeadLetterQueue(name), ParkedQueue(name)];
      for i := 0 to 2
        invariant exchanges == Managed(old(exchanges), DEAD_LETTER_EXCHANGE)
        invariant queues == old(queues) + Catching(name, durable)[..i]
        invariant bindings == old(bindings) + CatchingBindings(name)[..i]
      {
        queues := queues + [Queue(targets[i], QueueSpec(durable, false, false, map[]))];
        bindings := bindings + [Binding(targets[i], DEAD_LETTER_EXCHANGE, targets[i])];
      }
    }

    /** The rungs, and the one binding that brings an expired message home. */
    method AddRungs(name: string, durable: bool, delays: seq<Micros>)
      modifies this
      ensures exchanges == Managed(old(exchanges), RETRY_EXCHANGE)
      ensures queues == old(queues) + Rungs(name, durable, delays)
      ensures bindings == old(bindings) + [Binding(name, RETRY_EXCHANGE, name)]
    {
      ManagedExchange(RETRY_EXCHANGE);
      for i := 0 to |delays|
        invariant exchanges == Managed(old(exchanges), RETRY_EXCHANGE)
        invariant queues == old(queues) + Rungs(name, durable, delays)[..i]
        invariant bindings == old(bindings)
      {
        queues := queues + [RungQueue(name, durable, delays[i])];
      }
      bindings := bindings + [Binding(name, RETRY_EXCHANGE, name)];
    }

    /** `Topology.queue`. A refusal leaves the description as it was. */
    method AddQueue(ask: Request) returns (refused: Option<Refusal>)
      modifies this
      ensures var result := Added(old(Contents()), ask);
              if result.Success? then refused == None && Contents() == result.value
              else refused == Some(result.why) && Contents() == old(Contents())
    {
      if ask.name == "" { return Some(NoName); }
      var arguments := ask.args;
      var kind := QueueType(arguments, ask.durable, ask.autoDelete, ask.exclusive, ask.quorum);
      if kind.Failure? { return Some(kind.why); }
      if kind.value.Some? {
        arguments := arguments[QUEUE_TYPE_ARG := kind.value.value];
      }
      if ask.deadLetter {
        if DEAD_LETTER_EXCHANGE_ARG in arguments || DEAD_LETTER_ROUTING_KEY_ARG in arguments {
          return Some(TwoDeadLetters);
        }
        arguments := arguments[DEAD_LETTER_EXCHANGE_ARG := Text(DEAD_LETTER_EXCHANGE)];
        arguments := arguments[DEAD_LETTER_ROUTING_KEY_ARG := Text(DeadLetterQueue(ask.name))];
      }
      queues := queues + [Queue(ask.name, QueueSpec(ask.durable, ask.autoDelete, ask.exclusive, arguments))];
      if ask.deadLetter {
        AddCatching(ask.name, ask.durable);
      }
      var delays := Delays(ask.retry);
      if delays != [] {
        AddRungs(ask.name, ask.durable, delays);
      }
      refused := None;
    }

    /** `validate`, with the sets of names it has seen. */
    method Validate() returns (sound: bool)
      requires Names(Contents())
      ensures sound == Sound(Contents())
    {
      var seenQueues: set<string> := {};
      for i := 0 to |queues|
        invariant seenQueues == set j | 0 <= j < i :: queues[j].queueName
        invariant forall j, k :: 0 <= j < k < i ==> queues[j].queueName != queues[k].queueName
      {
        if queues[i].queueName in seenQueues { return false; }
        seenQueues := seenQueues + {queues[i].queueName};
      }
      var seenExchanges: set<string> := {};
      for i := 0 to |exchanges|
        invariant seenExchanges == set j | 0 <= j < i :: exchanges[j].exchangeName
        invariant forall j, k :: 0 <= j < k < i ==> exchanges[j].exchangeName != exchanges[k].exchangeName
      {
        if exchanges[i].exchangeName in seenExchanges { return false; }
        seenExchanges := seenExchanges + {exchanges[i].exchangeName};
      }
      for i := 0 to |bindings|
        invariant forall j :: 0 <= j < i ==>
          && bindings[j].exchange != ""
          && DeclaresQueue(Contents(), bindings[j].queue)
          && DeclaresExchange(Contents(), bindings[j].exchange)
      {
        if bindings[i].queue !in seenQueues { return false; }
        if bindings[i].exchange == "" { return false; }
        if bindings[i].exchange !in seenExchanges { return false; }
      }
      return true;
    }
  }

  // ---------------------------------------------------------------- adding to a sound description

  predicate AllDifferent(names: seq<string>) {
    forall i, j :: 0 <= i < j < |names| ==> names[i] != names[j]
  }

  lemma DifferentTogether(fixed: seq<string>, more: seq<string>)
    requires AllDifferent(fixed) && forall j :: 0 <= j < |more| ==> more[j] !in fixed
    ensures AllDifferent(fixed + more) <==> AllDifferent(more)
  {
    var n := |fixed|;
    assert forall i :: 0 <= i < |more| ==> (fixed + more)[n + i] == more[i];
    if AllDifferent(fixed + more) {
      forall i, j | 0 <= i < j < |more| ensures more[i] != more[j] {
        assert (fixed + more)[n + i] != (fixed + more)[n + j];
      }
    }
  }

  predicate AllQueues(queues: seq<Declaration>) { forall i :: 0 <= i < |queues| ==> queues[i].Queue? }

  function QueueNames(queues: seq<Declaration>): seq<string>
    requires AllQueues(queues)
  {
    seq(|queues|, i requires 0 <= i < |queues| => queues[i].queueName)
  }

  lemma ManagedIsThere(exchanges: seq<Declaration>, name: string)
    requires forall i :: 0 <= i < |exchanges| ==> exchanges[i].Exchange?
    requires forall i, j :: 0 <= i < j < |exchanges| ==> exchanges[i].exchangeName != exchanges[j].exchangeName
    ensures var after := Managed(exchanges, name);
            && exchanges <= after && (forall i :: 0 <= i < |after| ==> after[i].Exchange?)
            && (forall i, j :: 0 <= i < j < |after| ==> after[i].exchangeName != after[j].exchangeName)
            && exists i :: 0 <= i < |after| && after[i].exchangeName == name
  {
    var after := Managed(exchanges, name);
    if !(exists i :: 0 <= i < |exchanges| && exchanges[i].exchangeName == name) {
      assert after[|exchanges|] == Exchange(name, MANAGED_EXCHANGE);
    }
  }

  /** More queues of new names, an exchange of the library's own, and bindings from that to declared queues. */
  lemma SoundGrows(parts: Parts, exchange: string, queues: seq<Declaration>, bindings: seq<Declaration>)
    requires Names(parts) && Sound(parts) && AllQueues(queues) && AllDifferent(QueueNames(queues)) && exchange != ""
    requires forall i :: 0 <= i < |queues| ==> !DeclaresQueue(parts, queues[i].queueName)
    requires forall i :: 0 <= i < |bindings| ==>
               && bindings[i].Binding? && bindings[i].exchange == exchange
               && (DeclaresQueue(parts, bindings[i].queue) || bindings[i].queue in QueueNames(queues))
    ensures var after := Parts(Managed(parts.exchanges, exchange), parts.queues + queues, parts.bindings + bindings);
            Names(after) && Sound(after)
  {
    var after := Parts(Managed(parts.exchanges, exchange), parts.queues + queues, parts.bindings + bindings);
    ManagedIsThere(parts.exchanges, exchange);
    QueuesStayApart(parts, queues);
    forall i | 0 <= i < |after.bindings|
      ensures after.bindings[i].exchange != "" && DeclaresQueue(after, after.bindings[i].queue)
      ensures DeclaresExchange(after, after.bindings[i].exchange)
    {
      BindingStaysDeclared(parts, after, i);
    }
  }

  lemma BindingStaysDeclared(parts: Parts, after: Parts, i: nat)
    requires Names(parts) && Names(after) && Sound(parts) && i < |after.bindings|
    requires parts.exchanges <= after.exchanges && parts.queues <= after.queues && parts.bindings <= after.bindings
    requires i >= |parts.bindings| ==>
               && after.bindings[i].exchange != "" && DeclaresExchange(after, after.bindings[i].exchange)
               && (DeclaresQueue(parts, after.bindings[i].queue) ||
                   after.bindings[i].queue in QueueNames(after.queues[|parts.queues|..]))
    ensures after.bindings[i].exchange != ""
    ensures DeclaresQueue(after, after.bindings[i].queue) && DeclaresExchange(after, after.bindings[i].exchange)
  {
    var b := after.bindings[i];
    if DeclaresQueue(parts, b.queue) {
      var k :| 0 <= k < |parts.queues| && parts.queues[k].queueName == b.queue;
      assert after.queues[k] == parts.queues[k];
    } else if i >= |parts.bindings| {
      var k :| 0 <= k < |after.queues| - |parts.queues| && QueueNames(after.queues[|parts.queues|..])[k] == b.queue;
      assert after.queues[|parts.queues| + k].queueName == b.queue;
    }
    if i < |parts.bindings| {
      var k :| 0 <= k < |parts.exchanges| && parts.exchanges[k].exchangeName == b.exchange;
      assert after.exchanges[k] == parts.exchanges[k];
    }
  }

  lemma QueuesStayApart(parts: Parts, queues: seq<Declaration>)
    requires Names(parts) && Sound(parts) && AllQueues(queues) && AllDifferent(QueueNames(queues))
    requires forall i :: 0 <= i < |queues| ==> !DeclaresQueue(parts, queues[i].queueName)
    ensures var all := parts.queues + queues;
            AllQueues(all) && forall i, j :: 0 <= i < j < |all| ==> all[i].queueName != all[j].queueName
  {
    DifferentTogether(QueueNames(parts.queues), QueueNames(queues));
    var all := parts.queues + queues;
    assert QueueNames(all) == QueueNames(parts.queues) + QueueNames(queues);
    assert forall i :: 0 <= i < |all| ==> QueueNames(all)[i] == all[i].queueName;
  }

  lemma PlainGrows(parts: Parts, queue: Declaration)
    requires Names(parts) && Sound(parts) && queue.Queue? && !DeclaresQueue(parts, queue.queueName)
    ensures var after := parts.(queues := parts.queues + [queue]); Names(after) && Sound(after)
  {
    var after := parts.(queues := parts.queues + [queue]);
    QueuesStayApart(parts, [queue]);
    forall i | 0 <= i < |after.bindings|
      ensures DeclaresQueue(after, after.bindings[i].queue) && DeclaresExchange(after, after.bindings[i].exchange)
    {
      BindingStaysDeclared(parts, after, i);
    }
  }

  lemma CaughtGrows(parts: Parts, name: string, spec: QueueSpec, durable: bool)
    requires Names(parts) && Sound(parts)
    requires forall queue :: queue in {name, DeadLetterQueue(name), ParkedQueue(name)} ==> !DeclaresQueue(parts, queue)
    ensures var after := WithCatching(parts.(queues := parts.queues + [Queue(name, spec)]), name, durable);
            Names(after) && Sound(after)
  {
    var queues := [Queue(name, spec)] + Catching(name, durable);
    NamesApart(name, 0);
    assert QueueNames(queues) == [name, DeadLetterQueue(name), ParkedQueue(name)];
    assert QueueNames(queues)[1] in QueueNames(queues) && QueueNames(queues)[2] in QueueNames(queues);
    SoundGrows(parts, DEAD_LETTER_EXCHANGE, queues, CatchingBindings(name));
    assert parts.queues + queues == parts.queues + [Queue(name, spec)] + Catching(name, durable);
  }

  function RungNames(queue: string, rungs: seq<Micros>): seq<string> {
    seq(|rungs|, i requires 0 <= i < |rungs| => RetryQueue(queue, rungs[i]))
  }

  lemma RungsGrow(parts: Parts, name: string, durable: bool, delays: seq<Micros>)
    requires Names(parts) && Sound(parts) && DeclaresQueue(parts, name) && AllDifferent(RungNames(name, delays))
    requires forall queue :: queue in RungNames(name, delays) ==> !DeclaresQueue(parts, queue)
    ensures Names(WithRungs(parts, name, durable, delays)) && Sound(WithRungs(parts, name, durable, delays))
  {
    var queues := Rungs(name, durable, delays);
    assert QueueNames(queues) == RungNames(name, delays);
    forall i | 0 <= i < |queues| ensures !DeclaresQueue(parts, queues[i].queueName) {
      assert RungNames(name, delays)[i] in RungNames(name, delays);
    }
    if delays != [] {
      SoundGrows(parts, RETRY_EXCHANGE, queues, [Binding(name, RETRY_EXCHANGE, name)]);
    }
  }

  /** The names a request adds beside the rungs'. */
  function NewNames(ask: Request): set<string> {
    if ask.deadLetter then {ask.name, DeadLetterQueue(ask.name), ParkedQueue(ask.name)} else {ask.name}
  }

  lemma BeforeRungs(parts: Parts, ask: Request, spec: QueueSpec)
    requires Names(parts) && Sound(parts) && forall queue :: queue in NewNames(ask) ==> !DeclaresQueue(parts, queue)
    ensures var plain := parts.(queues := parts.queues + [Queue(ask.name, spec)]);
            var after := if ask.deadLetter then WithCatching(plain, ask.name, ask.durable) else plain;
            && Names(after) && Sound(after) && DeclaresQueue(after, ask.name)
            && forall queue :: DeclaresQueue(after, queue) ==> DeclaresQueue(parts, queue) || queue in NewNames(ask)
  {
    var plain := parts.(queues := parts.queues + [Queue(ask.name, spec)]);
    assert plain.queues[|parts.queues|].queueName == ask.name;
    if ask.deadLetter {
      CaughtGrows(parts, ask.name, spec, ask.durable);
      var after := WithCatching(plain, ask.name, ask.durable);
      assert after.queues[|parts.queues|] == plain.queues[|parts.queues|];
      assert after.queues[|parts.queues| + 1].queueName == DeadLetterQueue(ask.name);
      assert after.queues[|parts.queues| + 2].queueName == ParkedQueue(ask.name);
      assert forall i :: 0 <= i < |parts.queues| ==> after.queues[i] == parts.queues[i];
    } else {
      PlainGrows(parts, Queue(ask.name, spec));
      assert forall i :: 0 <= i < |parts.queues| ==> plain.queues[i] == parts.queues[i];
    }
  }

  /** A description stays one that validates when a queue of new names is added to it, with its dead letters
      and the rungs of a policy of which no two last the same whole seconds: so does any number of them. */
  lemma AddingKeepsSound(parts: Parts, ask: Request)
    requires Names(parts) && Sound(parts) && Added(parts, ask).Success?
    requires forall queue :: queue in NewNames(ask) || queue in RungNames(ask.name, Delays(ask.retry)) ==>
               !DeclaresQueue(parts, queue)
    requires AllDifferent(RungNames(ask.name, Delays(ask.retry)))
    ensures Names(Added(parts, ask).value) && Sound(Added(parts, ask).value)
  {
    var delays, spec := Delays(ask.retry), Added(parts, ask).value.queues[|parts.queues|].queueSpec;
    BeforeRungs(parts, ask, spec);
    var plain := parts.(queues := parts.queues + [Queue(ask.name, spec)]);
    var caught := if ask.deadLetter then WithCatching(plain, ask.name, ask.durable) else plain;
    forall queue | queue in RungNames(ask.name, delays) ensures !DeclaresQueue(caught, queue) {
      var i :| 0 <= i < |delays| && RungNames(ask.name, delays)[i] == queue;
      NamesApart(ask.name, delays[i]);
    }
    RungsGrow(caught, ask.name, ask.durable, delays);
  }

  // ---------------------------------------------------------------- what a consumer declares

  predicate Reached(name: Micros -> string, first: seq<Micros>, delay: Micros) {
    exists i :: 0 <= i < |first| && name(first[i]) == name(delay)
  }

  /** The rungs by name, the first delay to reach a name owning it, in the order first reached. */
  function FirstByName(name: Micros -> string, delays: seq<Micros>): seq<Micros> {
    if delays == [] then [] else
      var first := FirstByName(name, delays[..|delays| - 1]);
      if Reached(name, first, delays[|delays| - 1]) then first else first + [delays[|delays| - 1]]
  }

  lemma ReachedFurther(name: Micros -> string, first: seq<Micros>, last: Micros, d: Micros)
    requires Reached(name, first, d) || d == last
    ensures Reached(name, first + [last], d)
  {
    if Reached(name, first, d) {
      var i :| 0 <= i < |first| && name(first[i]) == name(d);
      assert (first + [last])[i] == first[i];
    } else {
      assert (first + [last])[|first|] == last;
    }
  }

  lemma {:induction false} FirstByNameReaches(name: Micros -> string, delays: seq<Micros>, d: Micros)
    requires d in delays
    ensures Reached(name, FirstByName(name, delays), d)
  {
    var front, last := delays[..|delays| - 1], delays[|delays| - 1];
    var before := FirstByName(name, front);
    assert delays == front + [last];
    if d in front {
      FirstByNameReaches(name, front, d);
      ReachedFurther(name, before, last, d);
    } else if !Reached(name, before, last) {
      ReachedFurther(name, before, last, d);
    }
  }

  lemma {:induction false} FirstByNameAmong(name: Micros -> string, delays: seq<Micros>)
    ensures forall d :: d in FirstByName(name, delays) ==> d in delays
  {
    if delays != [] {
      var front, last := delays[..|delays| - 1], delays[|delays| - 1];
      FirstByNameAmong(name, front);
      assert delays == front + [last];
    }
  }

  predicate NamesDiffer(name: Micros -> string, first: seq<Micros>) {
    forall i, j :: 0 <= i < j < |first| ==> name(first[i]) != name(first[j])
  }

  lemma {:induction false} FirstByNameDiffer(name: Micros -> string, delays: seq<Micros>)
    ensures NamesDiffer(name, FirstByName(name, delays))
  {
    if delays != [] {
      FirstByNameDiffer(name, delays[..|delays| - 1]);
    }
  }

  /** The delay that owns a name is the first of those that have it. */
  lemma {:induction false} FirstReachesFirst(name: Micros -> string, delays: seq<Micros>, i: nat)
    requires i < |FirstByName(name, delays)|
    ensures exists k :: 0 <= k < |delays| && delays[k] == FirstByName(name, delays)[i]
              && forall j :: 0 <= j < k ==> name(delays[j]) != name(delays[k])
  {
    var front, last := delays[..|delays| - 1], delays[|delays| - 1];
    var before := FirstByName(name, front);
    if i < |before| {
      FirstReachesFirst(name, front, i);
      var k :| 0 <= k < |front| && front[k] == before[i] && forall j :: 0 <= j < k ==> name(front[j]) != name(front[k]);
      assert delays[k] == front[k] && forall j :: 0 <= j < k ==> delays[j] == front[j];
    } else {
      forall j | 0 <= j < |delays| - 1 ensures name(delays[j]) != name(last) {
        assert delays[j] in front;
        FirstByNameReaches(name, front, delays[j]);
      }
      assert delays[|delays| - 1] == FirstByName(name, delays)[i];
    }
  }

  lemma FirstByNameOwns(name: Micros -> string, delays: seq<Micros>)
    ensures var first := FirstByName(name, delays);
            (forall i :: 0 <= i < |first| ==> first[i] in delays) && NamesDiffer(name, first)
    ensures forall d :: d in delays ==> Reached(name, FirstByName(name, delays), d)
  {
    FirstByNameAmong(name, delays);
    FirstByNameDiffer(name, delays);
    forall d | d in delays ensures Reached(name, FirstByName(name, delays), d) {
      FirstByNameReaches(name, delays, d);
    }
  }

  function RungName(queue: string): Micros -> string { (delay: Micros) => RetryQueue(queue, delay) }

  function CatchingPlan(queue: string): seq<Declaration> {
    [Exchange(DEAD_LETTER_EXCHANGE, MANAGED_EXCHANGE),
     Catching(queue, true)[0], CatchingBindings(queue)[0],
     Catching(queue, true)[1], CatchingBindings(queue)[1]]
  }

  function RungPlan(queue: string, rungs: seq<Micros>): seq<Declaration> {
    [Exchange(RETRY_EXCHANGE, MANAGED_EXCHANGE)] + Rungs(queue, true, rungs) + [Binding(queue, RETRY_EXCHANGE, queue)]
  }

  /** Everything a consumer of `queue` declares before it subscribes, in order. */
  function FailurePlan(queue: string, first: seq<Micros>): seq<Declaration> {
    if first == [] then CatchingPlan(queue) else CatchingPlan(queue) + RungPlan(queue, first)
  }

  /** Whether a binding names an exchange and, but for `queue` itself, a queue declared in front of it. */
  ghost predicate BindsDeclared(plan: seq<Declaration>, i: nat, queue: string)
    requires i < |plan| && plan[i].Binding?
  {
    && (exists j :: 0 <= j < i && plan[j].Exchange? && plan[j].exchangeName == plan[i].exchange)
    && (plan[i].queue != queue ==> exists j :: 0 <= j < i && plan[j].Queue? && plan[j].queueName == plan[i].queue)
  }

  /** A consumer binds nothing before it has declared it: a broker closes the channel on that. */
  lemma DeclaresBeforeBinding(queue: string, first: seq<Micros>, i: nat)
    requires i < |FailurePlan(queue, first)| && FailurePlan(queue, first)[i].Binding?
    ensures BindsDeclared(FailurePlan(queue, first), i, queue)
  {
    var plan, catching := FailurePlan(queue, first), CatchingPlan(queue);
    assert plan[0] == catching[0] && plan[1] == catching[1] && plan[2] == catching[2] && plan[3] == catching[3]
           && plan[4] == catching[4];
    if i >= |catching| {
      assert plan[5] == RungPlan(queue, first)[0];
      assert plan[i] == RungPlan(queue, first)[i - 5];
    }
  }

  /** What a broker has been told, in the order it was told. */
  class Transport {
    var declared: seq<Declaration>

    constructor () ensures declared == [] { declared := []; }

    method Declare(d: Declaration)
      modifies this
      ensures declared == old(declared) + [d]
    {
      declared := declared + [d];
    }
  }

  method DeclareCatching(transport: Transport, queue: string)
    modifies transport
    ensures transport.declared == old(transport.declared) + CatchingPlan(queue)
  {
    transport.Declare(Exchange(DEAD_LETTER_EXCHANGE, MANAGED_EXCHANGE));
    var targets := [DeadLetterQueue(queue), ParkedQueue(queue)];
    for i := 0 to 2
      invariant transport.declared == old(transport.declared) + CatchingPlan(queue)[..1 + 2 * i]
    {
      transport.Declare(Queue(targets[i], QueueSpec(true, false, false, map[])));
      transport.Declare(Binding(targets[i], DEAD_LETTER_EXCHANGE, targets[i]));
    }
  }

  /** Keyed by name rather than by delay: the first delay to reach a name owns it. */
  method CollectRungs(name: Micros -> string, delays: seq<Micros>) returns (rungs: seq<Micros>)
    ensures rungs == FirstByName(name, delays)
  {
    rungs := [];
    for i := 0 to |delays|
      invariant rungs == FirstByName(name, delays[..i])
    {
      assert delays[..i + 1][..i] == delays[..i];
      if !Reached(name, rungs, delays[i]) {
        rungs := rungs + [delays[i]];
      }
    }
    assert delays[..|delays|] == delays;
  }

  method DeclareRungs(transport: Transport, queue: string, rungs: seq<Micros>)
    modifies transport
    ensures transport.declared == old(transport.declared) + RungPlan(queue, rungs)
  {
    ghost var before, all := transport.declared, Rungs(queue, true, rungs);
    transport.Declare(Exchange(RETRY_EXCHANGE, MANAGED_EXCHANGE));
    for i := 0 to |rungs|
      invariant transport.declared == before + ([Exchange(RETRY_EXCHANGE, MANAGED_EXCHANGE)] + all[..i])
    {
      transport.Declare(RungQueue(queue, true, rungs[i]));
      assert all[..i + 1] == all[..i] + [all[i]];
    }
    assert all[..|rungs|] == all;
    transport.Declare(Binding(queue, RETRY_EXCHANGE, queue));
  }

  lemma Appended<T>(a: seq<T>, b: seq<T>, c: seq<T>)
    ensures (a + b) + c == a + (b + c)
  {
  }

  method DeclareCatchingAndRungs(transport: Transport, queue: string, delays: seq<Micros>)
    modifies transport
    ensures transport.declared == old(transport.declared) + FailurePlan(queue, FirstByName(RungName(queue), delays))
  {
    ghost var before := transport.declared;
    DeclareCatching(transport, queue);
    var rungs := CollectRungs(RungName(queue), delays);
    if rungs != [] {
      DeclareRungs(transport, queue, rungs);
      Appended(before, CatchingPlan(queue), RungPlan(queue, rungs));
    }
  }

  method DeclareWhereFailuresGo(transport: Transport, queue: string, retry: Option<RetryPolicy>)
    modifies transport
    ensures transport.declared
            == old(transport.declared) + FailurePlan(queue, FirstByName(RungName(queue), Delays(retry)))
  {
    DeclareCatchingAndRungs(transport, queue, Delays(retry));
  }

  // ---------------------------------------------------------------- the two agree

  /** The description of one durable queue, with dead letters and a retry policy. */
  function Standard(name: string, policy: RetryPolicy): Request {
    Request(name, true, false, false, None, true, Some(policy), map[])
  }

  predicate RungNamesDistinct(policy: RetryPolicy) {
    var rungs := BrokerRungs(policy);
    forall i, j :: 0 <= i < j < |rungs| ==> Seconds(rungs[i]) != Seconds(rungs[j])
  }

  function StandardQueue(name: string): Declaration {
    Queue(name, QueueSpec(true, false, false, DeadLettered(name, map[QUEUE_TYPE_ARG := Text("quorum")])))
  }

  /** What a standard request makes of an empty description, written out. */
  function StandardParts(name: string, rungs: seq<Micros>): Parts {
    if rungs == [] then
      Parts([Exchange(DEAD_LETTER_EXCHANGE, MANAGED_EXCHANGE)],
            [StandardQueue(name)] + Catching(name, true),
            CatchingBindings(name))
    else
      Parts([Exchange(DEAD_LETTER_EXCHANGE, MANAGED_EXCHANGE), Exchange(RETRY_EXCHANGE, MANAGED_EXCHANGE)],
            [StandardQueue(name)] + Catching(name, true) + Rungs(name, true, rungs),
            CatchingBindings(name) + [Binding(name, RETRY_EXCHANGE, name)])
  }

  lemma StandardIsAdded(name: string, policy: RetryPolicy)
    requires name != ""
    ensures Added(Parts([], [], []), Standard(name, policy)) == Success(StandardParts(name, BrokerRungs(policy)))
  {
    var caught := WithCatching(Parts([], [StandardQueue(name)], []), name, true);
    assert caught == StandardParts(name, []);
    assert WithRungs(caught, name, true, BrokerRungs(policy)) == StandardParts(name, BrokerRungs(policy));
    assert [] + [StandardQueue(name)] == [StandardQueue(name)];
  }

  lemma RungNamesApart(name: string, rungs: seq<Micros>)
    requires forall i :: 0 <= i < |rungs| ==> rungs[i] > 0
    ensures AllDifferent(RungNames(name, rungs)) <==>
            forall i, j :: 0 <= i < j < |rungs| ==> Seconds(rungs[i]) != Seconds(rungs[j])
  {
    forall i, j | 0 <= i < j < |rungs|
      ensures RungNames(name, rungs)[i] == RungNames(name, rungs)[j] <==> Seconds(rungs[i]) == Seconds(rungs[j])
    {
      SameNameExactlyWhen(name, rungs[i], rungs[j]);
    }
  }

  lemma QueueNamesApart(name: string, rungs: seq<Micros>)
    ensures var names := [name, DeadLetterQueue(name), ParkedQueue(name)] + RungNames(name, rungs);
            AllDifferent(names) <==> AllDifferent(RungNames(name, rungs))
  {
    var fixed, more := [name, DeadLetterQueue(name), ParkedQueue(name)], RungNames(name, rungs);
    NamesApart(name, 0);
    forall j | 0 <= j < |more| ensures more[j] !in fixed {
      NamesApart(name, rungs[j]);
    }
    DifferentTogether(fixed, more);
  }

  lemma StandardBindingsDeclared(name: string, rungs: seq<Micros>)
    ensures Names(StandardParts(name, rungs))
    ensures var parts := StandardParts(name, rungs);
            && (forall i :: 0 <= i < |parts.bindings| ==>
                  && parts.bindings[i].exchange != ""
                  && DeclaresQueue(parts, parts.bindings[i].queue)
                  && DeclaresExchange(parts, parts.bindings[i].exchange))
            && (forall i, j :: 0 <= i < j < |parts.exchanges| ==>
                  parts.exchanges[i].exchangeName != parts.exchanges[j].exchangeName)
  {
    var parts := StandardParts(name, rungs);
    assert parts.queues[0].queueName == name && parts.queues[1].queueName == DeadLetterQueue(name)
           && parts.queues[2].queueName == ParkedQueue(name);
    assert parts.exchanges[0].exchangeName == DEAD_LETTER_EXCHANGE;
    assert rungs != [] ==> parts.exchanges[1].exchangeName == RETRY_EXCHANGE;
  }

  /** The exchanges and bindings of the standard description are always right; what may be wrong
      is a rung name declared twice. */
  lemma StandardSound(name: string, rungs: seq<Micros>)
    ensures Names(StandardParts(name, rungs))
    ensures Sound(StandardParts(name, rungs)) <==> AllDifferent(RungNames(name, rungs))
  {
    var parts := StandardParts(name, rungs);
    StandardBindingsDeclared(name, rungs);
    QueueNamesApart(name, rungs);
    var names := [name, DeadLetterQueue(name), ParkedQueue(name)] + RungNames(name, rungs);
    StandardQueueNames(name, rungs);
    assert AllDifferent(names) <==> forall i, j :: 0 <= i < j < |parts.queues| ==>
      parts.queues[i].queueName != parts.queues[j].queueName;
  }

  lemma StandardQueueNames(name: string, rungs: seq<Micros>)
    ensures var names := [name, DeadLetterQueue(name), ParkedQueue(name)] + RungNames(name, rungs);
            var queues := StandardParts(name, rungs).queues;
            |queues| == |names| && forall i :: 0 <= i < |names| ==> queues[i].Queue? && queues[i].queueName == names[i]
  {
  }

  const TEN_AND_A_HALF := RetryPolicy(3, 10_000_000, Ratio(21, 20), 0, false, 0, 1)

  lemma TwoDistinct(p: RetryPolicy, a: Micros, b: Micros)
    requires WaitsInBroker(p, a) && WaitsInBroker(p, b) && a != b
    ensures Distinct(p, [a, b]) == [a, b]
  {
    assert [a, b][..1] == [a] && [a][..0] == [];
    assert Distinct(p, [a]) == [a];
  }

  lemma SameSeconds(name: string, policy: RetryPolicy, a: Micros, b: Micros)
    requires name != "" && BrokerRungs(policy) == [a, b] && Seconds(a) == Seconds(b)
    ensures RetryQueue(name, a) == RetryQueue(name, b)
    ensures Added(Parts([], [], []), Standard(name, policy)).Success?
    ensures !Sound(Added(Parts([], [], []), Standard(name, policy)).value)
  {
    assert BrokerRungs(policy)[0] == a && BrokerRungs(policy)[1] == b;
    SameNameExactlyWhen(name, a, b);
    StandardTopologyValidates(name, policy);
  }

  /** A policy of ten seconds and ten and a half has two rungs of one name, and its queue's description
      does not validate. */
  lemma TwoRungsOfOneName(name: string)
    requires name != ""
    ensures BrokerRungs(TEN_AND_A_HALF) == [10_000_000, 10_500_000]
    ensures RetryQueue(name, 10_000_000) == RetryQueue(name, 10_500_000)
    ensures Added(Parts([], [], []), Standard(name, TEN_AND_A_HALF)).Success?
    ensures !Sound(Added(Parts([], [], []), Standard(name, TEN_AND_A_HALF)).value)
  {
    TwoDistinct(TEN_AND_A_HALF, 10_000_000, 10_500_000);
    SameSeconds(name, TEN_AND_A_HALF, 10_000_000, 10_500_000);
  }

  /** A description of one durable queue validates exactly when no two of its rungs last the same
      number of whole seconds. (The consumer keeps the first of two such rungs; the description
      declares both.) */
  lemma StandardTopologyValidates(name: string, policy: RetryPolicy)
    requires name != ""
    ensures var result := Added(Parts([], [], []), Standard(name, policy));
            result.Success? && Names(result.value) && (Sound(result.value) <==> RungNamesDistinct(policy))
  {
    StandardIsAdded(name, policy);
    var rungs := BrokerRungs(policy);
    StandardSound(name, rungs);
    DistinctIs(policy, Schedule(policy));
    assert forall i :: 0 <= i < |rungs| ==> rungs[i] in rungs;
    RungNamesApart(name, rungs);
  }

  lemma PlanIsInParts(name: string, rungs: seq<Micros>, first: seq<Micros>, d: Declaration)
    requires d in FailurePlan(name, first)
    requires forall i :: 0 <= i < |first| ==> first[i] in rungs
    ensures var parts := StandardParts(name, rungs);
            d in parts.exchanges + parts.queues + parts.bindings
  {
    if d in Rungs(name, true, first) {
      var i :| 0 <= i < |first| && Rungs(name, true, first)[i] == d;
      var k :| 0 <= k < |rungs| && rungs[k] == first[i];
      assert Rungs(name, true, rungs)[k] == d;
    } else if first != [] {
      assert first[0] in rungs;
    }
  }

  /** Everything a consumer declares when it starts is in the description of its queue, argument
      for argument, whatever the policy. (Where two rungs share a name the description has both, so it
      is refused as a whole: `StandardTopologyValidates`.) */
  lemma ConsumerAgreesWithTopology(name: string, policy: RetryPolicy, parts: Parts, first: seq<Micros>, d: Declaration)
    requires name != "" && Added(Parts([], [], []), Standard(name, policy)) == Success(parts)
    requires first == FirstByName(RungName(name), BrokerRungs(policy)) && d in FailurePlan(name, first)
    ensures d in parts.exchanges + parts.queues + parts.bindings
  {
    var rungs := BrokerRungs(policy);
    StandardIsAdded(name, policy);
    assert parts == StandardParts(name, rungs);
    FirstByNameOwns(RungName(name), rungs);
    PlanIsInParts(name, rungs, first, d);
  }

  /** A queue of this name is in the plan. */
  ghost predicate PlanHasName(plan: seq<Declaration>, queue: string) { exists spec :: Queue(queue, spec) in plan }

  lemma RungsHaveNames(name: string, rungs: seq<Micros>, first: seq<Micros>, delay: Micros)
    requires first == FirstByName(RungName(name), rungs) && delay in rungs
    ensures first != [] && PlanHasName(FailurePlan(name, first), RetryQueue(name, delay))
  {
    FirstByNameReaches(RungName(name), rungs, delay);
    var o :| 0 <= o < |first| && RungName(name)(first[o]) == RungName(name)(delay);
    PlanHasRung(name, first, o);
    assert Queue(RetryQueue(name, delay), RungSpec(name, first[o])) in FailurePlan(name, first);
  }

  /** And what the description has and the consumer does not declare is the source queue, and a rung whose
      name another rung of the consumer's has. */
  lemma ConsumerDeclaresTheRest(name: string, policy: RetryPolicy, parts: Parts, first: seq<Micros>, d: Declaration)
    requires name != "" && Added(Parts([], [], []), Standard(name, policy)) == Success(parts)
    requires first == FirstByName(RungName(name), BrokerRungs(policy)) && d in All(parts)
    ensures || d in FailurePlan(name, first) || d == StandardQueue(name)
            || (d.Queue? && PlanHasName(FailurePlan(name, first), d.queueName))
  {
    var rungs := BrokerRungs(policy);
    StandardIsAdded(name, policy);
    if rungs != [] {
      RungsHaveNames(name, rungs, first, rungs[0]);
    }
    if d in Rungs(name, true, rungs) {
      var i :| 0 <= i < |rungs| && Rungs(name, true, rungs)[i] == d;
      RungsHaveNames(name, rungs, first, rungs[i]);
    } else if d != StandardQueue(name) {
    }
  }

  /** A plan's rung queues are its only queues named like a rung. */
  lemma RungOfPlan(name: string, first: seq<Micros>, delay: Micros, spec: QueueSpec) returns (i: nat)
    requires Queue(RetryQueue(name, delay), spec) in FailurePlan(name, first)
    ensures i < |first| && Queue(RetryQueue(name, delay), spec) == RungQueue(name, true, first[i])
  {
    var d := Queue(RetryQueue(name, delay), spec);
    NamesApart(name, delay);
    assert d !in CatchingPlan(name);
    assert d in Rungs(name, true, first);
    i :| 0 <= i < |first| && Rungs(name, true, first)[i] == d;
  }

  lemma PlanHasRung(name: string, first: seq<Micros>, o: nat)
    requires o < |first|
    ensures RungQueue(name, true, first[o]) in FailurePlan(name, first)
    ensures Binding(name, RETRY_EXCHANGE, name) in FailurePlan(name, first)
  {
    assert Rungs(name, true, first)[o] == RungQueue(name, true, first[o]);
    assert RungQueue(name, true, first[o]) in RungPlan(name, first);
    assert Binding(name, RETRY_EXCHANGE, name) in RungPlan(name, first);
  }

  lemma SameNameWithinASecond(name: string, a: Micros, b: Micros)
    requires a > 0 && b > 0 && RetryQueue(name, a) == RetryQueue(name, b)
    ensures Seconds(a) == Seconds(b) && -SECOND < a - b < SECOND
  {
    SameNameExactlyWhen(name, a, b);
  }

  lemma OneRungOfAName(name: string, first: seq<Micros>, o: nat, delay: Micros, spec: QueueSpec)
    requires NamesDiffer(RungName(name), first) && o < |first| && RetryQueue(name, first[o]) == RetryQueue(name, delay)
    requires Queue(RetryQueue(name, delay), spec) in FailurePlan(name, first)
    ensures spec == RungSpec(name, first[o])
  {
    var i := RungOfPlan(name, first, delay, spec);
    assert RungName(name)(first[i]) == RungName(name)(first[o]);
  }

  function RungSpec(name: string, delay: Micros): QueueSpec { QueueSpec(true, false, false, RungArgs(name, delay)) }

  lemma RungLeadsHome(name: string, first: seq<Micros>, delay: Micros)
    requires first != []
    ensures HoldsFor(RungSpec(name, delay), delay) && LeadsOnlyTo(FailurePlan(name, first), RungSpec(name, delay), name)
  {
    var plan, caught := FailurePlan(name, first), |CatchingPlan(name)|;
    assert plan[caught] == Exchange(RETRY_EXCHANGE, MANAGED_EXCHANGE);
    assert plan[|plan| - 1] == Binding(name, RETRY_EXCHANGE, name);
    forall queue | Binding(queue, RETRY_EXCHANGE, name) in plan ensures queue == name {
      assert Binding(queue, RETRY_EXCHANGE, name) !in CatchingPlan(name);
      assert Binding(queue, RETRY_EXCHANGE, name) in RungPlan(name, first);
    }
  }

  /** The one rung queue a delay reaches in a plan: declared as every other service declares it, expiring
      what it holds after its owner's delay, and sending that home to the source queue and nowhere else. */
  ghost predicate OwnsName(name: string, first: seq<Micros>, owner: Micros, delay: Micros) {
    && RetryQueue(name, owner) == RetryQueue(name, delay)
    && (exists spec :: Queue(RetryQueue(name, delay), spec) in FailurePlan(name, first))
    && forall spec :: Queue(RetryQueue(name, delay), spec) in FailurePlan(name, first) ==>
         && spec.durable && !spec.autoDelete && !spec.exclusive
         && spec.args.Keys == {MESSAGE_TTL_ARG, DEAD_LETTER_EXCHANGE_ARG, DEAD_LETTER_ROUTING_KEY_ARG}
         && HoldsFor(spec, owner) && LeadsOnlyTo(FailurePlan(name, first), spec, name)
  }

  lemma OwnerOwns(name: string, first: seq<Micros>, o: nat, delay: Micros)
    requires NamesDiffer(RungName(name), first) && o < |first| && RetryQueue(name, first[o]) == RetryQueue(name, delay)
    ensures OwnsName(name, first, first[o], delay)
  {
    PlanHasRung(name, first, o);
    RungLeadsHome(name, first, first[o]);
    var rung := RungSpec(name, first[o]);
    assert Queue(RetryQueue(name, delay), rung) in FailurePlan(name, first);
    forall spec | Queue(RetryQueue(name, delay), spec) in FailurePlan(name, first) ensures spec == rung {
      OneRungOfAName(name, first, o, delay, spec);
    }
  }

  lemma PlanOwnsName(name: string, rungs: seq<Micros>, first: seq<Micros>, delay: Micros) returns (owner: Micros)
    requires first == FirstByName(RungName(name), rungs) && delay in rungs
    ensures owner in rungs && OwnsName(name, first, owner, delay)
  {
    FirstByNameOwns(RungName(name), rungs);
    assert Reached(RungName(name), first, delay);
    var o :| 0 <= o < |first| && RungName(name)(first[o]) == RungName(name)(delay);
    owner := first[o];
    OwnerOwns(name, first, o, delay);
  }

  /** Every wait the policy spends in the broker names a queue the consumer declared at start,
      dead-lettering home through a binding it also declared. The one queue of that name has a
      time to live within a second of the wait, and exactly the wait when rung names are distinct. */
  lemma BrokerWaitsHaveARungHome(name: string, policy: RetryPolicy, attempt: int, age: Micros, moved: Micros,
                                 first: seq<Micros>) returns (owner: Micros)
    requires attempt >= 1 && NextWait(policy, attempt, age, moved).Some?
    requires NextWait(policy, attempt, age, moved).value.inBroker
    requires first == FirstByName(RungName(name), BrokerRungs(policy))
    ensures var delay := NextWait(policy, attempt, age, moved).value.delay;
            && OwnsName(name, first, owner, delay)
            && -SECOND < delay - owner < SECOND
            && (RungNamesDistinct(policy) ==> owner == delay)
  {
    var delay := NextWait(policy, attempt, age, moved).value.delay;
    BrokerWaitsAreRungs(policy, attempt, age, moved);
    var rungs := BrokerRungs(policy);
    owner := PlanOwnsName(name, rungs, first, delay);
    DistinctIs(policy, Schedule(policy));
    SameNameWithinASecond(name, delay, owner);
    DistinctNamesDistinctRungs(policy, owner, delay);
  }

  lemma DistinctNamesDistinctRungs(policy: RetryPolicy, a: Micros, b: Micros)
    requires a in BrokerRungs(policy) && b in BrokerRungs(policy) && Seconds(a) == Seconds(b)
    ensures RungNamesDistinct(policy) ==> a == b
  {
    var rungs := BrokerRungs(policy);
    var i :| 0 <= i < |rungs| && rungs[i] == a;
    var j :| 0 <= j < |rungs| && rungs[j] == b;
  }
}
