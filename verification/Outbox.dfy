/** The outbox and the relay that empties it (src/acemq_amqp/patterns/outbox.py, sql.py). */
module Outbox {
  import opened Retry
  import opened Sums
  import S = Settlement

  type Id = string

  /** Where a record is to be published, and what: already encoded, never changed. */
  datatype Message = Message(exchange: string, routingKey: string, body: seq<int>, contentType: string)

  datatype Record = Record(id: Id, createdAt: int, attempts: nat, message: Message)

  type Records = map<Id, Record>

  predicate Keyed(records: Records) { forall id :: id in records ==> records[id].id == id }

  predicate Waits(r: Record, maxAttempts: int) { r.attempts < maxAttempts }

  predicate OldestFirst(waiting: seq<Record>) {
    forall i, j :: 0 <= i <= j < |waiting| ==> waiting[i].createdAt <= waiting[j].createdAt
  }

  predicate OnceEach(waiting: seq<Record>) {
    forall i, j :: 0 <= i < j < |waiting| ==> waiting[i].id != waiting[j].id
  }

  predicate AllWaiting(records: Records, maxAttempts: int, waiting: seq<Record>) {
    forall r :: r in waiting ==> r.id in records && records[r.id] == r && Waits(r, maxAttempts)
  }

  /** Whether a waiting record may be left out of a batch: only when the batch is full of records no
      younger than it. */
  predicate LeftForLater(limit: int, waiting: seq<Record>, r: Record) {
    limit > 0 && |waiting| >= limit && forall w :: w in waiting ==> w.createdAt <= r.createdAt
  }

  /** What `pending` may answer: the records still to be tried, each once, oldest first, as many as
      the limit admits. Records of one age may come in any order, which differs between the stores. */
  predicate Offers(records: Records, maxAttempts: int, limit: int, waiting: seq<Record>) {
    && AllWaiting(records, maxAttempts, waiting) && OnceEach(waiting) && OldestFirst(waiting)
    && (limit > 0 ==> |waiting| <= limit)
    && forall id :: id in records && Waits(records[id], maxAttempts) && records[id] !in waiting ==>
         LeftForLater(limit, waiting, records[id])
  }

  function Failed(records: Records, id: Id): Records {
    if id in records then records[id := records[id].(attempts := records[id].attempts + 1)] else records
  }

  /** The store after a sweep whose first `good` publishes were routed and confirmed and whose next,
      if there is one, was not: those are gone, that one has one failure more, and the rest stand. */
  function Swept(records: Records, waiting: seq<Record>, good: nat): Records {
    if waiting == [] then records
    else if good == 0 then Failed(records, waiting[0].id)
    else Swept(records - {waiting[0].id}, waiting[1..], good - 1)
  }

  // ---------------------------------------------------------------- every sweep gets somewhere

  function TriesLeft(maxAttempts: int, r: Record): nat { Max(maxAttempts - r.attempts, 0) }

  function Tries(maxAttempts: int, records: Records): map<Id, nat> {
    map id | id in records :: TriesLeft(maxAttempts, records[id])
  }

  /** The publishes still to come at worst: the sum of `max_attempts - attempts` over what waits. */
  ghost function Effort(maxAttempts: int, records: Records): nat { Total(Tries(maxAttempts, records)) }

  lemma RemovalLessens(maxAttempts: int, records: Records, id: Id)
    requires id in records && Waits(records[id], maxAttempts)
    ensures Effort(maxAttempts, records - {id}) < Effort(maxAttempts, records)
  {
    assert Tries(maxAttempts, records - {id}) == Tries(maxAttempts, records) - {id};
    TotalWithout(Tries(maxAttempts, records), id);
  }

  lemma FailureLessens(maxAttempts: int, records: Records, id: Id)
    requires id in records && Waits(records[id], maxAttempts)
    ensures Effort(maxAttempts, Failed(records, id)) < Effort(maxAttempts, records)
  {
    var less := TriesLeft(maxAttempts, Failed(records, id)[id]);
    assert Tries(maxAttempts, Failed(records, id)) == Tries(maxAttempts, records)[id := less];
    TotalChanged(Tries(maxAttempts, records), id, less);
  }

  lemma RestWaits(records: Records, maxAttempts: int, waiting: seq<Record>)
    requires AllWaiting(records, maxAttempts, waiting) && OnceEach(waiting) && waiting != []
    ensures AllWaiting(records - {waiting[0].id}, maxAttempts, waiting[1..]) && OnceEach(waiting[1..])
  {
    forall r | r in waiting[1..] ensures r in waiting && r.id != waiting[0].id {
      var i :| 0 <= i < |waiting[1..]| && waiting[1..][i] == r;
      assert waiting[i + 1] == r;
    }
  }

  /** Every sweep over a store with something to publish leaves strictly less to be tried, whether
      the broker takes all of it, some of it, or refuses the first record yet again. */
  lemma {:induction false} SweepLessens(maxAttempts: int, records: Records, waiting: seq<Record>, good: nat)
    requires AllWaiting(records, maxAttempts, waiting) && OnceEach(waiting)
    ensures Effort(maxAttempts, Swept(records, waiting, good)) + (if waiting == [] then 0 else 1)
            <= Effort(maxAttempts, records)
    decreases |waiting|
  {
    if waiting != [] {
      assert waiting[0] in waiting;
      if good == 0 {
        FailureLessens(maxAttempts, records, waiting[0].id);
      } else {
        RemovalLessens(maxAttempts, records, waiting[0].id);
        RestWaits(records, maxAttempts, waiting);
        SweepLessens(maxAttempts, records - {waiting[0].id}, waiting[1..], good - 1);
      }
    }
  }

  predicate NothingWaits(records: Records, maxAttempts: int) {
    forall id :: id in records ==> !Waits(records[id], maxAttempts)
  }

  lemma NoEffortWhenNothingWaits(records: Records, maxAttempts: int)
    ensures Effort(maxAttempts, records) == 0 <==> NothingWaits(records, maxAttempts)
  {
    var tries := Tries(maxAttempts, records);
    TotalZero(tries);
    assert forall id :: id in records ==> id in tries && (tries[id] == 0 <==> !Waits(records[id], maxAttempts));
  }

  /** A batch is empty only when there is nothing left to try. */
  lemma OffersSomething(records: Records, maxAttempts: int, limit: int, waiting: seq<Record>)
    requires Offers(records, maxAttempts, limit, waiting)
    ensures waiting == [] <==> NothingWaits(records, maxAttempts)
  {
    if waiting != [] {
      assert waiting[0] in waiting;
    }
  }

  /** One tick of the relay: the batch it was offered, and how many publishes went well. */
  datatype Round = Round(waiting: seq<Record>, good: nat)

  predicate ValidRounds(records: Records, maxAttempts: int, limit: int, rounds: seq<Round>)
    decreases |rounds|
  {
    rounds == [] ||
    (&& Offers(records, maxAttempts, limit, rounds[0].waiting)
     && ValidRounds(Swept(records, rounds[0].waiting, rounds[0].good), maxAttempts, limit, rounds[1..]))
  }

  function AfterRounds(records: Records, rounds: seq<Round>): Records
    decreases |rounds|
  {
    if rounds == [] then records
    else AfterRounds(Swept(records, rounds[0].waiting, rounds[0].good), rounds[1..])
  }

  lemma {:induction false} RoundsLessen(records: Records, maxAttempts: int, limit: int, rounds: seq<Round>)
    requires ValidRounds(records, maxAttempts, limit, rounds)
    ensures Effort(maxAttempts, AfterRounds(records, rounds)) <= Max(Effort(maxAttempts, records) - |rounds|, 0)
    decreases |rounds|
  {
    if rounds != [] {
      var round := rounds[0];
      SweepLessens(maxAttempts, records, round.waiting, round.good);
      OffersSomething(records, maxAttempts, limit, round.waiting);
      NoEffortWhenNothingWaits(records, maxAttempts);
      RoundsLessen(Swept(records, round.waiting, round.good), maxAttempts, limit, rounds[1..]);
    }
  }

  /** The records whose publish a sweep, and a run of sweeps, saw routed and confirmed. */
  function PublishedBy(waiting: seq<Record>, good: nat): seq<Record> {
    if good < |waiting| then waiting[..good] else waiting
  }

  function PublishedIn(rounds: seq<Round>): seq<Record> {
    if rounds == [] then [] else PublishedBy(rounds[0].waiting, rounds[0].good) + PublishedIn(rounds[1..])
  }

  predicate Names(records: seq<Record>, id: Id) { exists r :: r in records && r.id == id }

  /** Whether a sweep stops at this record. */
  predicate StopsAt(waiting: seq<Record>, good: nat, id: Id) { good < |waiting| && waiting[good].id == id }

  /** Of one sweep: what was published is gone, and whatever else was there still is, for the same
      message; the record the sweep stops at has one failure more, and no other has. */
  lemma {:induction false} SweptConserves(records: Records, waiting: seq<Record>, good: nat, id: Id)
    requires id in records
    ensures id in Swept(records, waiting, good) <==> !Names(PublishedBy(waiting, good), id)
    ensures var left := Swept(records, waiting, good);
            id in left ==>
              left[id] == records[id].(attempts := records[id].attempts + if StopsAt(waiting, good, id) then 1 else 0)
    ensures forall other :: other in Swept(records, waiting, good) ==> other in records
    decreases |waiting|
  {
    if waiting != [] && good > 0 {
      var rest, published := PublishedBy(waiting[1..], good - 1), PublishedBy(waiting, good);
      assert published == [waiting[0]] + rest;
      assert Names(published, id) <==> waiting[0].id == id || Names(rest, id) by {
        if waiting[0].id == id { assert waiting[0] in published; }
        if Names(rest, id) {
          var r :| r in rest && r.id == id;
          assert r in published;
        }
      }
      if waiting[0].id != id {
        SweptConserves(records - {waiting[0].id}, waiting[1..], good - 1, id);
      } else {
        SweptOnlyLoses(records - {id}, waiting[1..], good - 1, id);
      }
      forall other | other in Swept(records, waiting, good) ensures other in records {
        SweptOnlyLoses(records - {waiting[0].id}, waiting[1..], good - 1, other);
      }
    }
  }

  lemma {:induction false} SweptOnlyLoses(records: Records, waiting: seq<Record>, good: nat, id: Id)
    ensures id in Swept(records, waiting, good) ==> id in records
    decreases |waiting|
  {
    if waiting != [] && good > 0 {
      SweptOnlyLoses(records - {waiting[0].id}, waiting[1..], good - 1, id);
    }
  }

  lemma {:induction false} GoneStaysGone(records: Records, rounds: seq<Round>, id: Id)
    requires id !in records
    ensures id !in AfterRounds(records, rounds)
    decreases |rounds|
  {
    if rounds != [] {
      SweptOnlyLoses(records, rounds[0].waiting, rounds[0].good, id);
      GoneStaysGone(Swept(records, rounds[0].waiting, rounds[0].good), rounds[1..], id);
    }
  }

  /** How many of the sweeps stop at this record. */
  function Failures(rounds: seq<Round>, id: Id): nat {
    if rounds == [] then 0
    else (if StopsAt(rounds[0].waiting, rounds[0].good, id) then 1 else 0) + Failures(rounds[1..], id)
  }

  lemma {:induction false} RoundsConserve(records: Records, rounds: seq<Round>, id: Id)
    requires id in records
    ensures var left := AfterRounds(records, rounds);
            && (id !in left ==> Names(PublishedIn(rounds), id))
            && (id in left ==>
                  left[id].message == records[id].message
                  && left[id].attempts == records[id].attempts + Failures(rounds, id))
    decreases |rounds|
  {
    if rounds != [] {
      var left := Swept(records, rounds[0].waiting, rounds[0].good);
      var first := PublishedBy(rounds[0].waiting, rounds[0].good);
      SweptConserves(records, rounds[0].waiting, rounds[0].good, id);
      if id in left {
        RoundsConserve(left, rounds[1..], id);
        if id !in AfterRounds(records, rounds) {
          var r :| r in PublishedIn(rounds[1..]) && r.id == id;
          assert r in PublishedIn(rounds);
        }
      } else {
        GoneStaysGone(left, rounds[1..], id);
        var r :| r in first && r.id == id;
        assert r in PublishedIn(rounds);
      }
    }
  }

  /** Whatever the broker answers, after as many sweeps as there are records times attempts nothing
      is waiting: every record was published, or is still there to be read, retired after as many failures as
      make up its attempts. */
  lemma OutboxDrains(records: Records, maxAttempts: nat, limit: int, rounds: seq<Round>)
    requires ValidRounds(records, maxAttempts, limit, rounds) && |rounds| >= |records| * maxAttempts
    ensures var left := AfterRounds(records, rounds);
            && NothingWaits(left, maxAttempts)
            && forall id :: id in records ==>
                 || (id !in left && Names(PublishedIn(rounds), id))
                 || (id in left && left[id].message == records[id].message
                     && left[id].attempts == records[id].attempts + Failures(rounds, id) >= maxAttempts)
  {
    var tries := Tries(maxAttempts, records);
    assert tries.Keys == records.Keys;
    assert |tries| == |tries.Keys| == |records.Keys| == |records|;
    TotalBound(tries, maxAttempts);
    RoundsLessen(records, maxAttempts, limit, rounds);
    NoEffortWhenNothingWaits(AfterRounds(records, rounds), maxAttempts);
    forall id | id in records {
      RoundsConserve(records, rounds, id);
    }
  }

  // ---------------------------------------------------------------- the store and the relay

  /** Where `sorted` puts a record that comes after everything placed so far: behind its elders and
      the records of its own age. */
  function Placed(sorted: seq<Record>, r: Record): seq<Record> {
    if sorted == [] || sorted[|sorted| - 1].createdAt <= r.createdAt then sorted + [r]
    else Placed(sorted[..|sorted| - 1], r) + [sorted[|sorted| - 1]]
  }

  lemma {:induction false} PlacedIs(sorted: seq<Record>, r: Record)
    ensures |Placed(sorted, r)| == |sorted| + 1
    ensures forall q :: q in Placed(sorted, r) <==> q == r || q in sorted
    decreases |sorted|
  {
    if sorted != [] {
      PlacedIs(sorted[..|sorted| - 1], r);
      assert sorted == sorted[..|sorted| - 1] + [sorted[|sorted| - 1]];
    }
  }

  lemma FrontInOrder(sorted: seq<Record>)
    requires sorted != [] && OldestFirst(sorted) && OnceEach(sorted)
    ensures var front, last := sorted[..|sorted| - 1], sorted[|sorted| - 1];
            && OldestFirst(front) && OnceEach(front) && sorted == front + [last]
            && forall q :: q in front ==> q in sorted && q.createdAt <= last.createdAt && q.id != last.id
  {
  }

  lemma {:induction false} PlacedKeeps(sorted: seq<Record>, r: Record)
    requires OldestFirst(sorted) && OnceEach(sorted) && !Names(sorted, r.id)
    ensures OldestFirst(Placed(sorted, r)) && OnceEach(Placed(sorted, r))
    decreases |sorted|
  {
    if sorted != [] {
      var front, last := sorted[..|sorted| - 1], sorted[|sorted| - 1];
      FrontInOrder(sorted);
      assert last in sorted;
      if last.createdAt > r.createdAt {
        PlacedKeeps(front, r);
        PlacedIs(front, r);
        AppendedLast(Placed(front, r), last);
      } else {
        forall q | q in sorted ensures q.createdAt <= r.createdAt && q.id != r.id {
          assert q in front || q == last;
        }
        AppendedLast(sorted, r);
      }
    }
  }

  lemma AppendedLast(sorted: seq<Record>, r: Record)
    requires OldestFirst(sorted) && OnceEach(sorted)
    requires forall q :: q in sorted ==> q.createdAt <= r.createdAt && q.id != r.id
    ensures OldestFirst(sorted + [r]) && OnceEach(sorted + [r])
  {
    assert forall i :: 0 <= i < |sorted| ==> sorted[i] in sorted;
  }

  class InMemoryOutboxStore {
    const maxAttempts: nat
    var records: Records

    constructor (maxAttempts: nat)
      requires maxAttempts >= 1
      ensures Valid() && records == map[] && this.maxAttempts == maxAttempts
    {
      this.maxAttempts := maxAttempts;
      records := map[];
    }

    predicate Valid()
      reads this
    {
      Keyed(records) && maxAttempts >= 1
    }

    /** Kept rather than replaced: a second write of an id changes nothing. */
    method Add(entry: Record) returns (refused: bool)
      requires Valid()
      modifies this
      ensures Valid() && (refused <==> entry.id == "")
      ensures records == if refused || entry.id in old(records) then old(records) else old(records)[entry.id := entry]
    {
      refused := entry.id == "";
      if !refused && entry.id !in records {
        records := records[entry.id := entry];
      }
    }

    method Pending(limit: int) returns (waiting: seq<Record>)
      requires Valid()
      ensures Offers(records, maxAttempts, limit, waiting)
    {
      var sorted: seq<Record> := [];
      var left := records.Keys;
      while left != {}
        invariant left <= records.Keys
        invariant OldestFirst(sorted) && OnceEach(sorted)
        invariant forall r :: r in sorted <==>
                    r.id in records.Keys - left && records[r.id] == r && Waits(r, maxAttempts)
        decreases |left|
      {
        var id :| id in left;
        left := left - {id};
        if records[id].attempts < maxAttempts {
          PlacedKeeps(sorted, records[id]);
          PlacedIs(sorted, records[id]);
          sorted := Placed(sorted, records[id]);
        }
      }
      waiting := if 0 < limit < |sorted| then sorted[..limit] else sorted;
      BatchIsOffered(records, maxAttempts, limit, sorted, waiting);
    }

    method MarkPublished(id: Id)
      requires Valid()
      modifies this
      ensures Valid() && records == old(records) - {id}
    {
      records := records - {id};
    }

    method RecordFailure(id: Id)
      requires Valid()
      modifies this
      ensures Valid() && records == Failed(old(records), id)
    {
      if id in records {
        records := records[id := records[id].(attempts := records[id].attempts + 1)];
      }
    }

    method Retired() returns (retired: set<Record>)
      requires Valid()
      ensures forall r :: r in retired <==> r.id in records && records[r.id] == r && r.attempts >= maxAttempts
    {
      retired := set id | id in records && records[id].attempts >= maxAttempts :: records[id];
    }
  }

  lemma BatchIsOffered(records: Records, maxAttempts: int, limit: int, sorted: seq<Record>, waiting: seq<Record>)
    requires OldestFirst(sorted) && OnceEach(sorted) && Keyed(records)
    requires forall r :: r in sorted <==> r.id in records && records[r.id] == r && Waits(r, maxAttempts)
    requires waiting == if 0 < limit < |sorted| then sorted[..limit] else sorted
    ensures Offers(records, maxAttempts, limit, waiting)
  {
    assert forall r :: r in waiting ==> r in sorted;
    forall id | id in records && Waits(records[id], maxAttempts) && records[id] !in waiting
      ensures LeftForLater(limit, waiting, records[id])
    {
      assert records[id] in sorted;
      var i :| 0 <= i < |sorted| && sorted[i] == records[id];
      assert forall k :: 0 <= k < |waiting| ==> waiting[k] == sorted[k] && waiting[k] in waiting;
      assert i >= |waiting|;
      forall w | w in waiting ensures w.createdAt <= records[id].createdAt {
        var j :| 0 <= j < |waiting| && waiting[j] == w;
        assert sorted[j] == w;
      }
    }
  }

  /** How many of the broker's replies come before the first that is not a routed confirmation. */
  function Good(replies: seq<S.Reply>): nat {
    if replies == [] || !S.EndOf(replies[0]).Routed? then 0 else 1 + Good(replies[1..])
  }

  /** What one publish sends, and under whose identifier. */
  datatype Outgoing = Outgoing(id: Id, message: Message)

  /** What a relay sends for these records. */
  function Sends(records: seq<Record>): seq<Outgoing> {
    seq(|records|, i requires 0 <= i < |records| => Outgoing(records[i].id, records[i].message))
  }

  lemma SendsOneMore(records: seq<Record>, n: nat)
    requires n < |records|
    ensures Sends(records[..n + 1]) == Sends(records[..n]) + [Outgoing(records[n].id, records[n].message)]
  {
  }

  /** One publish further into the batch: the record is gone, or the sweep stops at it. */
  lemma SweptFurther(records: Records, entries: seq<Record>, replies: seq<S.Reply>, n: nat)
    requires n < |entries| <= |replies|
    ensures Good(replies[n..]) == if S.EndOf(replies[n]).Routed? then 1 + Good(replies[n + 1..]) else 0
    ensures Swept(records, entries[n..], Good(replies[n..])) ==
            if S.EndOf(replies[n]).Routed?
            then Swept(records - {entries[n].id}, entries[n + 1..], Good(replies[n + 1..]))
            else Failed(records, entries[n].id)
  {
    assert replies[n..][1..] == replies[n + 1..] && entries[n..][1..] == entries[n + 1..];
  }

  class OutboxRelay {
    const store: InMemoryOutboxStore
    const batch: int
    /** Everything this relay has handed to the broker, taken or not. */
    var outgoing: seq<Outgoing>

    constructor (store: InMemoryOutboxStore, batch: int)
      requires batch >= 1
      ensures this.store == store && this.batch == batch && outgoing == []
    {
      this.store := store;
      this.batch := batch;
      outgoing := [];
    }

    /** One record: taken away if the broker routed and confirmed it, or a failure counted against it. */
    method PublishOne(entry: Record, reply: S.Reply) returns (taken: bool)
      requires store.Valid()
      modifies this, store
      ensures store.Valid() && taken == S.EndOf(reply).Routed?
      ensures outgoing == old(outgoing) + [Outgoing(entry.id, entry.message)]
      ensures store.records ==
              if taken then old(store.records) - {entry.id} else Failed(old(store.records), entry.id)
    {
      outgoing := outgoing + [Outgoing(entry.id, entry.message)];
      taken := S.EndOf(reply).Routed?;
      if taken {
        store.MarkPublished(entry.id);
      } else {
        store.RecordFailure(entry.id);
      }
    }

    /** The loop of `sweep`. */
    method PublishBatch(entries: seq<Record>, replies: seq<S.Reply>) returns (published: nat, raised: bool)
      requires store.Valid() && |replies| >= |entries|
      modifies this, store
      ensures store.Valid() && published == |PublishedBy(entries, Good(replies))|
      ensures raised <==> Good(replies) < |entries|
      ensures store.records == Swept(old(store.records), entries, Good(replies))
      ensures var n := if raised then published + 1 else published;
              n <= |entries| && outgoing == old(outgoing) + Sends(entries[..n])
    {
      published, raised := 0, false;
      while published < |entries|
        invariant store.Valid() && 0 <= published <= |entries|
        invariant Good(replies) == published + Good(replies[published..])
        invariant Swept(store.records, entries[published..], Good(replies[published..]))
                  == Swept(old(store.records), entries, Good(replies))
        invariant outgoing == old(outgoing) + Sends(entries[..published]) && !raised
      {
        SendsOneMore(entries, published);
        SweptFurther(store.records, entries, replies, published);
        var taken := PublishOne(entries[published], replies[published]);
        if !taken {
          raised := true;
          break;
        }
        published := published + 1;
      }
    }

    /** `sweep`: publishes a batch in order, taking away what the broker routed and confirmed, and
        stops at the first record it would not take, which it counts a failure against. */
    method Sweep(replies: seq<S.Reply>) returns (published: nat, raised: bool, ghost waiting: seq<Record>)
      requires store.Valid() && batch >= 1 && |replies| >= batch
      modifies this, store
      ensures var n := if raised then published + 1 else published;
              n <= |waiting| && outgoing == old(outgoing) + Sends(waiting[..n])
      ensures store.Valid() && Offers(old(store.records), store.maxAttempts, batch, waiting)
      ensures store.records == Swept(old(store.records), waiting, Good(replies))
      ensures raised <==> Good(replies) < |waiting|
      ensures published == |PublishedBy(waiting, Good(replies))|
      ensures old(!NothingWaits(store.records, store.maxAttempts)) ==>
                Effort(store.maxAttempts, store.records) < old(Effort(store.maxAttempts, store.records))
    {
      var entries := store.Pending(batch);
      waiting := entries;
      published, raised := PublishBatch(entries, replies);
      OffersSomething(old(store.records), store.maxAttempts, batch, waiting);
      SweepLessens(store.maxAttempts, old(store.records), waiting, Good(replies));
    }
  }
}
