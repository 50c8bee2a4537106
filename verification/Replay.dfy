/** Moving messages from one queue back to where they came from
    (src/acemq_amqp/patterns/replay.py). */
module Replays {
  import opened Retry
  import opened Envelopes
  import S = Settlement

  /** A message on the queue: what its replay headers say is how often it was replayed, and from where. */
  datatype Message = Message(
    envelope: Envelope, body: S.Body, routingKey: string, replays: nat, replayedFrom: Option<string>)

  /** The arguments of `replay`, and which queues the broker routes an exchange and a key to. */
  datatype Plan = Plan(
    queue: string, exchange: string, routingKey: Option<string>, limit: int, restart: bool,
    only: Message -> bool, routes: (string, string) -> set<string>)

  /** Where a turn is cut short: reading, when the broker may have handed a message out already; in the
      filter; publishing; or acknowledging, when the broker may have taken the acknowledgement. */
  datatype Cut = Uncut | AtRead(handedOut: bool) | InFilter | AtPublish | AtAck(applied: bool)

  /** What happens in one turn of the loop: the deadline, where it is cut short and whether by a
      cancellation of the caller, and the publish. */
  datatype Event = Event(expired: bool, cut: Cut, cancelled: bool, reply: S.Reply, stored: bool)

  /** Why a pass ended; one that failed raises `ReplayError`, and one that escaped the filter's own error
      or the cancellation. */
  datatype Reason = Limit | Deadline | Drained | Failed | Escaped

  /** A pass under way: the queue, what landed elsewhere, what is held unsettled because it was
      declined, because the pass was cut short at it, and why the pass ended, if it did. */
  datatype Pass = Pass(
    source: seq<Message>, landed: seq<Message>, declined: seq<Message>, unsettled: seq<Message>,
    moved: nat, ended: Option<Reason>)

  function KeyFor(plan: Plan, m: Message): string {
    if plan.routingKey.Some? then plan.routingKey.value else m.routingKey
  }

  function Targets(plan: Plan, m: Message): set<string> { plan.routes(plan.exchange, KeyFor(plan, m)) }

  function Republished(plan: Plan, m: Message): Message {
    var goingBack := if plan.restart then m.envelope.(attempt := 1, error := "") else m.envelope;
    Message(goingBack, m.body, KeyFor(plan, m), m.replays + 1, Some(plan.queue))
  }

  predicate Feeds(plan: Plan, m: Message) { plan.queue in Targets(plan, m) }

  predicate Honest(plan: Plan, m: Message, event: Event) {
    S.Possible(event.reply, event.stored, Targets(plan, m) != {})
  }

  /** The queue and the rest of the broker once a message has been published, or not. */
  function Landing(plan: Plan, p: Pass, m: Message, stored: bool): Pass {
    p.(source := if stored && Feeds(plan, m) then p.source + [Republished(plan, m)] else p.source,
       landed := if stored && Targets(plan, m) - {plan.queue} != {} then p.landed + [Republished(plan, m)]
                 else p.landed)
  }

  function CutShort(event: Event): Option<Reason> { Some(if event.cancelled then Escaped else Failed) }

  /** The publish, and the acknowledgement only after it. */
  function Moving(plan: Plan, p: Pass, m: Message, event: Event): Pass {
    var after := Landing(plan, p, m, event.stored);
    if event.cut.AtPublish? || !S.EndOf(event.reply).Routed? then after.(unsettled := [m], ended := CutShort(event))
    else if event.cut.AtAck? then
      after.(unsettled := if event.cut.applied then after.unsettled else [m], ended := CutShort(event))
    else after.(moved := p.moved + 1)
  }

  function Turn(plan: Plan, p: Pass, event: Event): Pass {
    if plan.limit > 0 && p.moved >= plan.limit then p.(ended := Some(Limit))
    else if event.expired then p.(ended := Some(Deadline))
    else if event.cut.AtRead? then
      if event.cut.handedOut && p.source != []
      then p.(source := p.source[1..], unsettled := [p.source[0]], ended := CutShort(event))
      else p.(ended := CutShort(event))
    else if p.source == [] then p.(ended := Some(Drained))
    else
      var m, pulled := p.source[0], p.(source := p.source[1..]);
      if event.cut.InFilter? then pulled.(unsettled := [m], ended := Some(Escaped))
      else if !plan.only(m) then pulled.(declined := p.declined + [m])
      else Moving(plan, pulled, m, event)
  }

  function Turns(plan: Plan, p: Pass, events: seq<Event>): Pass
    decreases |events|
  {
    if events == [] || p.ended.Some? then p else Turns(plan, Turn(plan, p, events[0]), events[1..])
  }

  function Begun(source: seq<Message>): Pass { Pass(source, [], [], [], 0, None) }

  /** The queue once the pass is over: what was held goes back, whatever ended it. */
  function Back(p: Pass): seq<Message> { p.declined + p.unsettled + p.source }

  /** Every event tells what the broker can do to the message it would be about. */
  predicate AllHonest(plan: Plan, p: Pass, events: seq<Event>)
    decreases |events|
  {
    || events == [] || p.ended.Some?
    || ((p.source != [] ==> Honest(plan, p.source[0], events[0])) &&
         AllHonest(plan, Turn(plan, p, events[0]), events[1..]))
  }

  // ---------------------------------------------------------------- conservation

  predicate NeverFeeds(plan: Plan, source: seq<Message>) { forall m :: m in source ==> !Feeds(plan, m) }

  function Copies(plan: Plan, sent: seq<Message>): seq<Message> {
    seq(|sent|, i requires 0 <= i < |sent| => Republished(plan, sent[i]))
  }

  /** Whether the pass was cut short. */
  predicate IsCut(p: Pass) { p.ended == Some(Failed) || p.ended == Some(Escaped) }

  /** A message as it arrives where it was replayed to: the bytes it had, under the key asked for or its own,
      saying where from and how often; with a fresh first attempt and no error if the pass restarts messages,
      and otherwise with the metadata it had. */
  predicate StandsFor(plan: Plan, m: Message, copy: Message) {
    && copy.body == m.body
    && copy.routingKey == (if plan.routingKey.Some? then plan.routingKey.value else m.routingKey)
    && copy.replays == m.replays + 1 && copy.replayedFrom == Some(plan.queue)
    && copy.envelope.(attempt := m.envelope.attempt, error := m.envelope.error) == m.envelope
    && copy.envelope.attempt == (if plan.restart then 1 else m.envelope.attempt)
    && copy.envelope.error == (if plan.restart then "" else m.envelope.error)
  }

  /** What landed, seen from the destination: one message for each that was moved, in order, and perhaps
      one for the message the pass was cut short at. */
  predicate Arrived(plan: Plan, p: Pass, sent: seq<Message>) {
    && (|| |p.landed| == |sent|
        || (|p.landed| == |sent| + |p.unsettled| && forall m :: m in p.unsettled ==> plan.only(m)))
    && forall i :: 0 <= i < |p.landed| ==> StandsFor(plan, (sent + p.unsettled)[i], p.landed[i])
  }

  lemma LandedArrived(plan: Plan, p: Pass, sent: seq<Message>)
    requires Landed(plan, p, sent)
    ensures Arrived(plan, p, sent)
  {
  }

  /** What landed: the copies of the moved, in order, and perhaps one of the message it was cut short at. */
  predicate Landed(plan: Plan, p: Pass, sent: seq<Message>) {
    || p.landed == Copies(plan, sent)
    || (p.unsettled != [] && (forall m :: m in p.unsettled ==> plan.only(m)) &&
         p.landed == Copies(plan, sent + p.unsettled))
  }

  /** The moved are counted, but for one whose acknowledgement the broker took and the pass was cut short at. */
  predicate Counts(p: Pass, sent: seq<Message>) {
    |sent| == p.moved || (IsCut(p) && p.unsettled == [] && |sent| == p.moved + 1)
  }

  /** Where the pass stands against the queue it began with: it has looked at the first `n` messages,
      once each and in order. Those it declined are held; those it moved are `sent`; the one it was cut
      short at, if it was, is held. */
  ghost predicate Conserves(plan: Plan, source: seq<Message>, p: Pass, n: nat, sent: seq<Message>) {
    && n <= |source| && p.source == source[n..]
    && multiset(source[..n]) == multiset(p.declined) + multiset(p.unsettled) + multiset(sent)
    && Counts(p, sent) && Landed(plan, p, sent)
    && |p.unsettled| <= (if IsCut(p) then 1 else 0)
    && (p.ended == Some(Drained) ==> p.source == [])
    && (plan.limit > 0 ==> |sent| <= plan.limit)
    && (forall m :: m in p.declined ==> !plan.only(m))
    && (forall m :: m in sent ==> plan.only(m))
  }

  lemma LookedAt(source: seq<Message>, n: nat)
    requires n < |source|
    ensures source[..n + 1] == source[..n] + [source[n]] && source[n..][1..] == source[n + 1..] &&
              source[n..][0] == source[n]
  {
  }

  lemma DeclinedConserves(plan: Plan, source: seq<Message>, p: Pass, n: nat, sent: seq<Message>)
    requires Conserves(plan, source, p, n, sent) && p.ended.None? && p.source != [] && !plan.only(p.source[0])
    ensures Conserves(plan, source, p.(source := p.source[1..], declined := p.declined + [p.source[0]]), n + 1, sent)
  {
    LookedAt(source, n);
  }

  lemma MovedConserves(plan: Plan, source: seq<Message>, p: Pass, n: nat, sent: seq<Message>)
    requires Conserves(plan, source, p, n, sent) && p.ended.None? && p.source != [] && plan.only(p.source[0])
    requires plan.limit > 0 ==> p.moved < plan.limit
    ensures var m := p.source[0];
            Conserves(plan, source,
                      p.(source := p.source[1..], landed := p.landed + [Republished(plan, m)], moved := p.moved + 1),
                      n + 1, sent + [m])
  {
    LookedAt(source, n);
  }

  /** The message is held, with a copy of it landed or not. */
  lemma HeldConserves(plan: Plan, source: seq<Message>, p: Pass, n: nat, sent: seq<Message>, stored: bool, why: Reason)
    requires Conserves(plan, source, p, n, sent) && p.ended.None? && p.source != []
    requires (why.Failed? || why.Escaped?) && (stored ==> plan.only(p.source[0]))
    ensures var m := p.source[0];
            Conserves(plan, source,
                      p.(source := p.source[1..], unsettled := [m], ended := Some(why),
                         landed := if stored then p.landed + [Republished(plan, m)] else p.landed),
                      n + 1, sent)
  {
    LookedAt(source, n);
  }

  /** It is moved, and the pass does not live to count it. */
  lemma UncountedConserves(plan: Plan, source: seq<Message>, p: Pass, n: nat, sent: seq<Message>, why: Reason)
    requires Conserves(plan, source, p, n, sent) && p.ended.None? && p.source != [] && plan.only(p.source[0])
    requires (plan.limit > 0 ==> p.moved < plan.limit) && (why.Failed? || why.Escaped?)
    ensures var m := p.source[0];
            Conserves(plan, source,
                      p.(source := p.source[1..], landed := p.landed + [Republished(plan, m)], ended := Some(why)),
                      n + 1, sent + [m])
  {
    LookedAt(source, n);
  }

  lemma MovingConserves(plan: Plan, source: seq<Message>, p: Pass, n: nat, sent: seq<Message>, event: Event)
    returns (sent': seq<Message>)
    requires Conserves(plan, source, p, n, sent) && p.ended.None? && p.source != [] && plan.only(p.source[0])
    requires !Feeds(plan, p.source[0]) && Honest(plan, p.source[0], event) && (plan.limit > 0 ==> p.moved < plan.limit)
    ensures Conserves(plan, source, Moving(plan, p.(source := p.source[1..]), p.source[0], event), n + 1, sent')
  {
    var m := p.source[0];
    assert Targets(plan, m) - {plan.queue} == Targets(plan, m);
    if event.cut.AtPublish? || !S.EndOf(event.reply).Routed? || (event.cut.AtAck? && !event.cut.applied) {
      HeldConserves(plan, source, p, n, sent, event.stored, CutShort(event).value);
      sent' := sent;
    } else {
      if event.cut.AtAck? {
        UncountedConserves(plan, source, p, n, sent, CutShort(event).value);
      } else {
        MovedConserves(plan, source, p, n, sent);
      }
      sent' := sent + [m];
    }
  }

  lemma TurnConserves(plan: Plan, source: seq<Message>, p: Pass, n: nat, sent: seq<Message>, event: Event)
    returns (next: nat, sent': seq<Message>)
    requires NeverFeeds(plan, source) && Conserves(plan, source, p, n, sent) && p.ended.None?
    requires p.source != [] ==> Honest(plan, p.source[0], event)
    ensures Conserves(plan, source, Turn(plan, p, event), next, sent')
  {
    next, sent' := n, sent;
    if p.source != [] && !(plan.limit > 0 && p.moved >= plan.limit) && !event.expired && event.cut != AtRead(false) {
      assert source[n] == p.source[0];
      next := n + 1;
      if event.cut.AtRead? {
        HeldConserves(plan, source, p, n, sent, false, CutShort(event).value);
      } else if event.cut.InFilter? {
        HeldConserves(plan, source, p, n, sent, false, Escaped);
      } else if !plan.only(p.source[0]) {
        DeclinedConserves(plan, source, p, n, sent);
      } else {
        sent' := MovingConserves(plan, source, p, n, sent, event);
      }
    }
  }

  lemma {:induction false} TurnsConserve(plan: Plan, source: seq<Message>, p: Pass, n: nat, sent: seq<Message>,
                                         events: seq<Event>)
    returns (last: nat, sent': seq<Message>)
    requires NeverFeeds(plan, source) && Conserves(plan, source, p, n, sent) && AllHonest(plan, p, events)
    ensures Conserves(plan, source, Turns(plan, p, events), last, sent')
    decreases |events|
  {
    if events == [] || p.ended.Some? {
      last, sent' := n, sent;
    } else {
      var next, more := TurnConserves(plan, source, p, n, sent, events[0]);
      last, sent' := TurnsConserve(plan, source, Turn(plan, p, events[0]), next, more, events[1..]);
    }
  }

  lemma SizesAdd(whole: seq<Message>, a: seq<Message>, b: seq<Message>, c: seq<Message>)
    requires multiset(whole) == multiset(a) + multiset(b) + multiset(c)
    ensures |whole| == |a| + |b| + |c|
  {
    assert |multiset(whole)| == |multiset(a)| + |multiset(b)| + |multiset(c)|;
  }

  lemma AllAccountedFor(source: seq<Message>, n: nat, p: Pass, sent: seq<Message>)
    requires n <= |source| && p.source == source[n..]
    requires multiset(source[..n]) == multiset(p.declined) + multiset(p.unsettled) + multiset(sent)
    ensures multiset(source) == multiset(Back(p)) + multiset(sent)
    ensures n == |p.declined| + |p.unsettled| + |sent|
  {
    assert source == source[..n] + source[n..];
    assert multiset(Back(p)) == multiset(p.declined) + multiset(p.unsettled) + multiset(p.source);
    SizesAdd(source[..n], p.declined, p.unsettled, sent);
  }

  /** For a destination that does not feed the source, however the pass ends, a filter that raises and a
      cancellation at any await among them: the queue as it began is the messages back on it and the
      messages moved, each as often as it was there; each moved message has its own copy at the
      destination, where nothing else lands but perhaps a copy of the one message the pass was cut short
      at, which is back as well; only what the filter takes is moved, no more than the limit, and all of it
      is counted but for a message whose acknowledgement the pass was cut short at; the pass has looked at
      the first messages of the queue, once each, and at all of them if it drained the queue. */
  lemma ReplayConserves(plan: Plan, source: seq<Message>, events: seq<Event>) returns (sent: seq<Message>, looked: nat)
    requires NeverFeeds(plan, source) && AllHonest(plan, Begun(source), events)
    ensures var p := Turns(plan, Begun(source), events);
            && multiset(source) == multiset(Back(p)) + multiset(sent)
            && Arrived(plan, p, sent) && Counts(p, sent)
            && |p.unsettled| <= (if IsCut(p) then 1 else 0)
            && (forall m :: m in sent ==> plan.only(m)) && (forall m :: m in p.declined ==> !plan.only(m))
            && (plan.limit > 0 ==> |sent| <= plan.limit)
            && looked <= |source| && p.source == source[looked..]
            && multiset(source[..looked]) == multiset(p.declined) + multiset(p.unsettled) + multiset(sent)
            && (p.ended == Some(Drained) ==> p.moved + |p.declined| == |source|)
  {
    looked, sent := TurnsConserve(plan, source, Begun(source), 0, [], events);
    AllAccountedFor(source, looked, Turns(plan, Begun(source), events), sent);
    LandedArrived(plan, Turns(plan, Begun(source), events), sent);
  }

  lemma {:induction false} TurnsEnd(plan: Plan, source: seq<Message>, p: Pass, n: nat, sent: seq<Message>,
                                    events: seq<Event>)
    requires NeverFeeds(plan, source) && Conserves(plan, source, p, n, sent) && AllHonest(plan, p, events)
    requires |events| > |p.source|
    ensures Turns(plan, p, events).ended.Some?
    decreases |events|
  {
    if p.ended.None? {
      var next, more := TurnConserves(plan, source, p, n, sent, events[0]);
      var v := Turn(plan, p, events[0]);
      if v.ended.None? {
        assert v.source == p.source[1..] by {
          assert source[n] in source;
        }
        TurnsEnd(plan, source, v, next, more, events[1..]);
      }
    }
  }

  /** Such a pass ends by itself, within one turn more than there are messages. */
  lemma ReplayEnds(plan: Plan, source: seq<Message>, events: seq<Event>)
    requires NeverFeeds(plan, source) && AllHonest(plan, Begun(source), events) && |events| > |source|
    ensures Turns(plan, Begun(source), events).ended.Some?
  {
    TurnsEnd(plan, source, Begun(source), 0, [], events);
  }

  /** What each reason says of the pass as it was before its last turn, and of that turn: the limit, the
      deadline and an empty queue end it where it stands. */
  predicate ReasonFits(plan: Plan, q: Pass, event: Event, p: Pass) {
    var untouched := p == q.(ended := p.ended);
    match p.ended
    case Some(Limit) => plan.limit > 0 && q.moved == plan.limit && untouched
    case Some(Deadline) => event.expired && untouched
    case Some(Drained) => q.source == [] && untouched
    case Some(Failed) => event.cut.AtRead? || event.cut.AtAck? || event.cut.AtPublish? || !S.EndOf(event.reply).Routed?
    case Some(Escaped) => event.cut.InFilter? || event.cancelled
    case None => false
  }

  /** What does not end it: below the limit, before the deadline, with a message to look at that the filter
      declines or the broker takes. */
  predicate NothingEnds(plan: Plan, q: Pass, event: Event) {
    && (plan.limit > 0 ==> q.moved < plan.limit) && !event.expired && q.source != []
    && !event.cut.AtRead? && !event.cut.InFilter?
    && (plan.only(q.source[0]) ==> event.cut.Uncut? && S.EndOf(event.reply).Routed?)
  }

  /** A pass ends for its reason, and at the first turn there is one. */
  lemma {:induction false} EndsForItsReason(plan: Plan, p: Pass, events: seq<Event>) returns (k: nat)
    requires p.ended.None? && (plan.limit > 0 ==> p.moved <= plan.limit) && Turns(plan, p, events).ended.Some?
    ensures k < |events|
    ensures ReasonFits(plan, Turns(plan, p, events[..k]), events[k], Turns(plan, p, events))
    ensures forall j :: 0 <= j < k ==> NothingEnds(plan, Turns(plan, p, events[..j]), events[j])
    decreases |events|
  {
    var next := Turn(plan, p, events[0]);
    assert events[..0] == [];
    if next.ended.Some? {
      k := 0;
    } else {
      var m := EndsForItsReason(plan, next, events[1..]);
      k := m + 1;
      assert forall j :: 0 < j <= k ==> events[..j][1..] == events[1..][..j - 1];
      forall j | 0 <= j < k ensures NothingEnds(plan, Turns(plan, p, events[..j]), events[j]) {
        assert j == 0 || NothingEnds(plan, Turns(plan, next, events[1..][..j - 1]), events[1..][j - 1]);
      }
    }
  }

  // ---------------------------------------------------------------- when the destination feeds the source

  /** A message that is moved and comes straight back. */
  predicate Circles(plan: Plan, m: Message) { plan.only(m) && Feeds(plan, m) }

  /** A message that has gone round `k` times. */
  function Lap(plan: Plan, m: Message, k: nat): Message
    decreases k
  {
    if k == 0 then m else Lap(plan, Republished(plan, m), k - 1)
  }

  /** Whether it stops going round, sooner or later. */
  ghost predicate Settles(plan: Plan, m: Message) { exists k: nat :: !Circles(plan, Lap(plan, m, k)) }

  /** How often it goes round first. */
  ghost function Rounds(plan: Plan, m: Message): nat
    requires Settles(plan, m)
  {
    var k: nat :| !Circles(plan, Lap(plan, m, k));
    FewestRounds(plan, m, k, 0)
  }

  ghost function FewestRounds(plan: Plan, m: Message, k: nat, from: nat): (n: nat)
    requires from <= k && !Circles(plan, Lap(plan, m, k))
    requires forall j: nat :: j < from ==> Circles(plan, Lap(plan, m, j))
    ensures !Circles(plan, Lap(plan, m, n)) && forall j: nat :: j < n ==> Circles(plan, Lap(plan, m, j))
    decreases k - from
  {
    if !Circles(plan, Lap(plan, m, from)) then from else FewestRounds(plan, m, k, from + 1)
  }

  lemma SettlesLater(plan: Plan, m: Message)
    requires Circles(plan, m)
    ensures Settles(plan, m) <==> Settles(plan, Republished(plan, m))
  {
    var r := Republished(plan, m);
    assert Lap(plan, m, 0) == m;
    assert forall k: nat :: Lap(plan, m, k + 1) == Lap(plan, r, k);
    if Settles(plan, m) {
      var k: nat :| !Circles(plan, Lap(plan, m, k));
      assert k > 0 && Lap(plan, r, k - 1) == Lap(plan, m, k);
    }
    if Settles(plan, r) {
      var k: nat :| !Circles(plan, Lap(plan, r, k));
      assert Lap(plan, m, k + 1) == Lap(plan, r, k);
    }
  }

  lemma RoundsLess(plan: Plan, m: Message)
    requires Circles(plan, m) && Settles(plan, m)
    ensures Settles(plan, Republished(plan, m)) && Rounds(plan, m) == Rounds(plan, Republished(plan, m)) + 1
  {
    var r := Republished(plan, m);
    SettlesLater(plan, m);
    var b := Rounds(plan, r);
    forall j: nat | j < b + 1 ensures Circles(plan, Lap(plan, m, j)) {
      if j > 0 {
        assert Lap(plan, m, j) == Lap(plan, r, j - 1);
      }
    }
    assert Lap(plan, m, b + 1) == Lap(plan, r, b);
  }

  ghost predicate AllSettle(plan: Plan, source: seq<Message>) {
    forall i :: 0 <= i < |source| ==> Settles(plan, source[i])
  }

  /** The turns a queue takes: each message's own, and its rounds. */
  ghost function TurnsTaken(plan: Plan, source: seq<Message>): nat
    requires AllSettle(plan, source)
  {
    if source == [] then 0 else Rounds(plan, source[|source| - 1]) + 1 + TurnsTaken(plan, source[..|source| - 1])
  }

  lemma {:induction false} FirstTaken(plan: Plan, source: seq<Message>)
    requires AllSettle(plan, source) && source != []
    ensures AllSettle(plan, source[1..])
    ensures TurnsTaken(plan, source) == Rounds(plan, source[0]) + 1 + TurnsTaken(plan, source[1..])
  {
    if |source| == 1 {
      assert source[1..] == [] && source[..0] == [];
    } else {
      var front := source[..|source| - 1];
      FirstTaken(plan, front);
      assert source[1..][..|source| - 2] == front[1..];
      assert source[1..][|source| - 2] == source[|source| - 1];
    }
  }

  /** A turn in which nothing goes wrong. */
  const FINE := Event(false, Uncut, false, S.Answered(true, true), true)

  function Fine(n: nat): seq<Event> { seq(n, i => FINE) }

  lemma FineTurn(plan: Plan, p: Pass, n: nat) returns (v: Pass)
    requires plan.limit <= 0 && p.ended.None? && n > 0
    ensures Turns(plan, p, Fine(n)) == Turns(plan, v, Fine(n - 1))
    ensures p.source == [] ==> v.ended == Some(Drained)
    ensures p.source != [] ==>
              && v.ended.None?
              && v.source == if Circles(plan, p.source[0]) then p.source[1..] + [Republished(plan, p.source[0])]
                             else p.source[1..]
  {
    v := Turn(plan, p, FINE);
    assert Fine(n)[1..] == Fine(n - 1);
  }

  /** What circles for ever is on the queue for ever. */
  predicate Haunted(plan: Plan, source: seq<Message>, haunts: Message -> bool) {
    exists i :: 0 <= i < |source| && haunts(source[i])
  }

  lemma {:induction false} NeverDrains(plan: Plan, p: Pass, n: nat, haunts: Message -> bool)
    requires plan.limit <= 0 && p.ended.None? && Haunted(plan, p.source, haunts)
    requires forall m :: haunts(m) ==> Circles(plan, m) && haunts(Republished(plan, m))
    ensures Turns(plan, p, Fine(n)).ended.None?
    decreases n
  {
    if n > 0 {
      var i :| 0 <= i < |p.source| && haunts(p.source[i]);
      var v := FineTurn(plan, p, n);
      if i > 0 {
        assert v.source[i - 1] == p.source[i];
      } else {
        assert v.source[|p.source| - 1] == Republished(plan, p.source[0]);
      }
      NeverDrains(plan, v, n - 1, haunts);
    }
  }

  lemma CircledTaken(plan: Plan, source: seq<Message>)
    requires AllSettle(plan, source) && source != [] && Circles(plan, source[0])
    ensures var after := source[1..] + [Republished(plan, source[0])];
            AllSettle(plan, after) && TurnsTaken(plan, after) + 1 == TurnsTaken(plan, source)
  {
    var r := Republished(plan, source[0]);
    var after := source[1..] + [r];
    FirstTaken(plan, source);
    RoundsLess(plan, source[0]);
    assert after[..|after| - 1] == source[1..];
  }

  /** The queue after a turn in which nothing goes wrong. */
  function AfterTurn(plan: Plan, source: seq<Message>): seq<Message>
    requires source != []
  {
    if Circles(plan, source[0]) then source[1..] + [Republished(plan, source[0])] else source[1..]
  }

  lemma HeadTaken(plan: Plan, source: seq<Message>)
    requires AllSettle(plan, source) && source != []
    ensures AllSettle(plan, AfterTurn(plan, source))
    ensures TurnsTaken(plan, source) == TurnsTaken(plan, AfterTurn(plan, source)) + 1
  {
    if Circles(plan, source[0]) {
      CircledTaken(plan, source);
    } else {
      FirstTaken(plan, source);
      assert Lap(plan, source[0], 0) == source[0];
    }
  }

  /** A queue that a count, one less each turn, says the turns of is drained after that many. */
  lemma {:induction false} DrainsAfter(plan: Plan, p: Pass, n: nat, counts: (seq<Message>, nat) -> bool)
    requires plan.limit <= 0 && p.ended.None? && counts(p.source, n)
    requires forall source, k: nat :: counts(source, k) && source != [] ==>
               k > 0 && counts(AfterTurn(plan, source), k - 1)
    ensures Turns(plan, p, Fine(n + 1)).ended == Some(Drained)
    decreases n
  {
    var v := FineTurn(plan, p, n + 1);
    if p.source != [] {
      assert v.source == AfterTurn(plan, p.source);
      DrainsAfter(plan, v, n - 1, counts);
    }
  }

  lemma SettledDrains(plan: Plan, source: seq<Message>) returns (n: nat)
    requires plan.limit <= 0 && AllSettle(plan, source)
    ensures Turns(plan, Begun(source), Fine(n)).ended == Some(Drained)
  {
    var counts := (s: seq<Message>, k: nat) => AllSettle(plan, s) && k == TurnsTaken(plan, s);
    forall s, k: nat | counts(s, k) && s != [] ensures k > 0 && counts(AfterTurn(plan, s), k - 1) {
      HeadTaken(plan, s);
    }
    DrainsAfter(plan, Begun(source), TurnsTaken(plan, source), counts);
    n := TurnsTaken(plan, source) + 1;
  }

  /** With no limit and nothing going wrong, a replay comes to an end exactly when no message it would
      move goes round for ever, coming back to the queue it was taken from. */
  lemma ReplayDrainsExactlyWhen(plan: Plan, source: seq<Message>)
    requires plan.limit <= 0
    ensures (exists n :: Turns(plan, Begun(source), Fine(n)).ended.Some?) <==> AllSettle(plan, source)
  {
    if AllSettle(plan, source) {
      var n := SettledDrains(plan, source);
    } else {
      var i :| 0 <= i < |source| && !Settles(plan, source[i]);
      var haunts := (m: Message) => !Settles(plan, m);
      forall m | haunts(m) ensures Circles(plan, m) && haunts(Republished(plan, m)) {
        assert Lap(plan, m, 0) == m;
        SettlesLater(plan, m);
      }
      assert Haunted(plan, source, haunts);
      forall n ensures Turns(plan, Begun(source), Fine(n)).ended.None? {
        NeverDrains(plan, Begun(source), n, haunts);
      }
    }
  }

  /** The default exchange takes a key to the queue of that name. */
  predicate DefaultExchange(routes: (string, string) -> set<string>, queue: string) { queue in routes("", queue) }

  /** What the consumer set aside was published under the name of the queue it lies on, so a replay of
      that queue with the default arguments puts it straight back, over and over. */
  lemma SetAsideGoesRound(plan: Plan, source: seq<Message>)
    requires plan.limit <= 0 && plan.exchange == "" && plan.routingKey == None &&
               DefaultExchange(plan.routes, plan.queue)
    requires forall m :: plan.only(m)
    requires source != [] && source[0].routingKey == plan.queue
    ensures forall n :: Turns(plan, Begun(source), Fine(n)).ended.None?
  {
    var haunts := (m: Message) => m.routingKey == plan.queue;
    assert Haunted(plan, source, haunts);
    forall n ensures Turns(plan, Begun(source), Fine(n)).ended.None? {
      NeverDrains(plan, Begun(source), n, haunts);
    }
  }

  // ---------------------------------------------------------------- the loop

  class Session {
    var source: seq<Message>
    var landed: seq<Message>

    constructor (source: seq<Message>)
      ensures this.source == source && landed == []
    {
      this.source, landed := source, [];
    }

    /** `replay`, for as long as `events` last: the loop, and the `finally` that returns what the pass
        held. With no reason given it is still going. */
    method Replay(plan: Plan, events: seq<Event>) returns (moved: nat, skipped: nat, reason: Option<Reason>)
      requires landed == []
      modifies this
      ensures var p := Turns(plan, Begun(old(source)), events);
              && source == Back(p) && landed == p.landed
              && moved == p.moved && skipped == |p.declined| && reason == p.ended
    {
      var declined: seq<Message> := [];
      var unsettled: seq<Message> := [];
      var i := 0;
      moved, skipped, reason := 0, 0, None;
      while i < |events| && reason == None
        invariant 0 <= i <= |events| && skipped == |declined|
        invariant Turns(plan, Begun(old(source)), events)
                  == Turns(plan, Pass(source, landed, declined, unsettled, moved, reason), events[i..])
        decreases |events| - i, reason == None
      {
        var event := events[i];
        ghost var p := Pass(source, landed, declined, unsettled, moved, reason);
        assert events[i..][1..] == events[i + 1..];
        i := i + 1;
        if plan.limit > 0 && moved >= plan.limit {
          reason := Some(Limit);
        } else if event.expired {
          reason := Some(Deadline);
        } else if event.cut.AtRead? {
          reason := CutShort(event);
          if event.cut.handedOut && source != [] {
            unsettled, source := [source[0]], source[1..];
          }
        } else if source == [] {
          reason := Some(Drained);
        } else {
          var message := source[0];
          source := source[1..];
          if event.cut.InFilter? {
            unsettled, reason := [message], Some(Escaped);
          } else if !plan.only(message) {
            skipped, declined := skipped + 1, declined + [message];
          } else {
            var settled, counted := Move(plan, message, event);
            if counted {
              moved := moved + 1;
            } else {
              reason := CutShort(event);
            }
            if !settled {
              unsettled := [message];
            }
          }
        }
        assert Turn(plan, p, event) == Pass(source, landed, declined, unsettled, moved, reason);
      }
      source := declined + unsettled + source;
    }

    /** `_move`: publishes, and only then acknowledges. Whether the message is settled, and whether the
        pass gets to count it. */
    method Move(plan: Plan, message: Message, event: Event) returns (settled: bool, counted: bool)
      modifies this
      ensures var was := Pass(old(source), old(landed), [], [], 0, None);
              Moving(plan, was, message, event) ==
              Pass(source, landed, [], if settled then [] else [message],
                   if counted then 1 else 0, if counted then None else CutShort(event))
    {
      var targets := plan.routes(plan.exchange, KeyFor(plan, message));
      var copy := Republished(plan, message);
      if event.stored {
        if targets - {plan.queue} != {} {
          landed := landed + [copy];
        }
        if plan.queue in targets {
          source := source + [copy];
        }
      }
      if event.cut.AtPublish? || !S.EndOf(event.reply).Routed? { return false, false; }
      if event.cut.AtAck? { return event.cut.applied, false; }
      return true, true;
    }
  }
}
