/** The in-memory idempotency store (src/acemq_amqp/patterns/idempotency.py): a dictionary that
    remembers the order its keys were inserted in, swept from the front. */
module MemoryStore {
  import opened Retry

  type Key = string

  /** When a key was claimed, and whether its message was handled since. */
  datatype Held = Held(key: Key, claimed: int, confirmed: bool)

  /** A dictionary in insertion order. */
  type Entries = seq<Held>

  predicate KeysDistinct(seen: Entries) {
    seen == [] || ((forall h :: h in seen[1..] ==> h.key != seen[0].key) && KeysDistinct(seen[1..]))
  }

  /** Inserted in the order of their times, but for `skew`: a claim reads the clock before it takes the
      lock, so two of them can be inserted the other way round. */
  predicate Ordered(seen: Entries, skew: int) {
    seen == [] || ((forall h :: h in seen[1..] ==> seen[0].claimed <= h.claimed + skew) && Ordered(seen[1..], skew))
  }

  /** Everything still inside the window: the plain meaning of a sweep. */
  function Inside(seen: Entries, cutoff: int): Entries {
    if seen == [] then []
    else if seen[0].claimed > cutoff then [seen[0]] + Inside(seen[1..], cutoff)
    else Inside(seen[1..], cutoff)
  }

  /** What is left after dropping from the front until a key is inside the window. */
  function Swept(seen: Entries, cutoff: int): Entries {
    if seen == [] || seen[0].claimed > cutoff then seen else Swept(seen[1..], cutoff)
  }

  /** Whether what has aged out is all in front: behind a key inside the window, none has. */
  predicate ExpiredInFront(seen: Entries, cutoff: int) {
    || seen == []
    || (if seen[0].claimed > cutoff then forall h :: h in seen ==> h.claimed > cutoff
        else ExpiredInFront(seen[1..], cutoff))
  }

  lemma {:induction false} InsideIs(seen: Entries, cutoff: int)
    ensures forall h :: h in Inside(seen, cutoff) <==> h in seen && h.claimed > cutoff
  {
    if seen != [] {
      InsideIs(seen[1..], cutoff);
      assert seen == [seen[0]] + seen[1..];
    }
  }

  lemma {:induction false} AllInside(seen: Entries, cutoff: int)
    requires forall h :: h in seen ==> h.claimed > cutoff
    ensures Inside(seen, cutoff) == seen
  {
    if seen != [] {
      assert seen == [seen[0]] + seen[1..];
      AllInside(seen[1..], cutoff);
    }
  }

  /** The walk that stops early removes everything that has aged out exactly when that is a prefix. */
  lemma {:induction false} SweepIsEnoughExactlyWhen(seen: Entries, cutoff: int)
    ensures Swept(seen, cutoff) == Inside(seen, cutoff) <==> ExpiredInFront(seen, cutoff)
  {
    if seen == [] {
    } else if seen[0].claimed <= cutoff {
      SweepIsEnoughExactlyWhen(seen[1..], cutoff);
    } else if ExpiredInFront(seen, cutoff) {
      AllInside(seen, cutoff);
    } else {
      InsideIs(seen, cutoff);
    }
  }

  /** With a clock that went back, it is not: a key claimed late stands before one that has aged out, and
      the walk never reaches that. */
  lemma AClockGoneBackHidesTheExpired()
    ensures var seen := [Held("late", 5, false), Held("early", 1, false)];
            && !ExpiredInFront(seen, 3) && Swept(seen, 3) == seen && Inside(seen, 3) == [seen[0]]
  {
    var seen := [Held("late", 5, false), Held("early", 1, false)];
    assert seen[1..] == [Held("early", 1, false)] && seen[1..][1..] == [];
    assert Inside(seen[1..], 3) == [];
    assert seen[1] in seen;
  }

  /** Keys inserted in the order of their times age out from the front. */
  lemma {:induction false} OrderedExpiresInFront(seen: Entries, cutoff: int)
    requires Ordered(seen, 0)
    ensures ExpiredInFront(seen, cutoff)
  {
    if seen != [] {
      assert seen == [seen[0]] + seen[1..];
      OrderedExpiresInFront(seen[1..], cutoff);
    }
  }

  lemma {:induction false} SweptKeeps(seen: Entries, cutoff: int)
    ensures KeysDistinct(seen) ==> KeysDistinct(Swept(seen, cutoff))
    ensures forall skew :: Ordered(seen, skew) ==> Ordered(Swept(seen, cutoff), skew)
    ensures forall h :: h in Swept(seen, cutoff) ==> h in seen
    ensures forall h :: h in seen && h.claimed > cutoff ==> h in Swept(seen, cutoff)
  {
    if seen != [] && seen[0].claimed <= cutoff {
      assert seen == [seen[0]] + seen[1..];
      SweptKeeps(seen[1..], cutoff);
    }
  }

  lemma {:induction false} SweptIsRecent(seen: Entries, cutoff: int, skew: nat)
    requires Ordered(seen, skew)
    ensures forall h :: h in Swept(seen, cutoff) ==> h.claimed > cutoff - skew
  {
    if seen != [] {
      assert seen == [seen[0]] + seen[1..];
      if seen[0].claimed <= cutoff {
        SweptIsRecent(seen[1..], cutoff, skew);
      }
    }
  }

  lemma {:induction false} InsertedLast(seen: Entries, entry: Held)
    ensures KeysDistinct(seen) && (forall h :: h in seen ==> h.key != entry.key) ==> KeysDistinct(seen + [entry])
    ensures forall skew :: Ordered(seen, skew) && (forall h :: h in seen ==> h.claimed <= entry.claimed + skew) ==>
              Ordered(seen + [entry], skew)
  {
    if seen != [] {
      InsertedLast(seen[1..], entry);
      assert (seen + [entry])[1..] == seen[1..] + [entry];
    }
  }

  /** The entry of a key, in place of which another is put. */
  function Confirmed(seen: Entries, key: Key): Entries {
    if seen == [] then []
    else if seen[0].key == key then [seen[0].(confirmed := true)] + seen[1..]
    else [seen[0]] + Confirmed(seen[1..], key)
  }

  function Without(seen: Entries, key: Key): Entries {
    if seen == [] then [] else if seen[0].key == key then seen[1..] else [seen[0]] + Without(seen[1..], key)
  }

  lemma {:induction false} WithoutIs(seen: Entries, key: Key)
    requires KeysDistinct(seen)
    ensures forall h :: h in Without(seen, key) <==> h in seen && h.key != key
  {
    if seen != [] {
      assert seen == [seen[0]] + seen[1..];
      WithoutIs(seen[1..], key);
    }
  }

  lemma {:induction false} WithoutKeeps(seen: Entries, key: Key)
    requires KeysDistinct(seen)
    ensures KeysDistinct(Without(seen, key)) && forall skew :: Ordered(seen, skew) ==> Ordered(Without(seen, key), skew)
  {
    if seen != [] && seen[0].key != key {
      WithoutKeeps(seen[1..], key);
      WithoutIs(seen[1..], key);
      assert Without(seen, key)[1..] == Without(seen[1..], key);
    }
  }

  /** Confirming a key changes its own entry, and neither the order nor any other. */
  lemma {:induction false} ConfirmedKeeps(seen: Entries, key: Key)
    requires KeysDistinct(seen)
    ensures KeysDistinct(Confirmed(seen, key)) && |Confirmed(seen, key)| == |seen|
    ensures forall skew :: Ordered(seen, skew) ==> Ordered(Confirmed(seen, key), skew)
    ensures forall h :: h in Confirmed(seen, key) ==>
              if h.key == key then h.confirmed && exists c :: Held(key, h.claimed, c) in seen else h in seen
    ensures forall h :: h in seen ==> (if h.key == key then h.(confirmed := true) else h) in Confirmed(seen, key)
  {
    if seen != [] {
      var rest, after := seen[1..], Confirmed(seen, key);
      assert seen == [seen[0]] + rest;
      assert after == [after[0]] + after[1..];
      if seen[0].key == key {
        assert after[1..] == rest;
        assert Held(key, seen[0].claimed, seen[0].confirmed) == seen[0];
      } else {
        ConfirmedKeeps(rest, key);
        assert after[1..] == Confirmed(rest, key);
      }
    }
  }

  /** What `claim` answers. */
  datatype Claim = TakenOn | Duplicate | InProgress

  predicate Holds(seen: Entries, key: Key) { exists h :: h in seen && h.key == key }

  predicate HoldsHandled(seen: Entries, key: Key) { exists h :: h in seen && h.key == key && h.confirmed }

  /** Whether a key is held inside the window, and so held by a handled message. */
  predicate HeldInside(seen: Entries, key: Key, cutoff: int) {
    exists h :: h in seen && h.key == key && h.claimed > cutoff
  }

  predicate HandledInside(seen: Entries, key: Key, cutoff: int) {
    exists h :: h in seen && h.key == key && h.claimed > cutoff && h.confirmed
  }

  /** The entry of this key has aged out, and the walk does not reach it. */
  predicate Hidden(seen: Entries, key: Key, cutoff: int) {
    exists i, j :: 0 <= i < j < |seen| && seen[i].claimed > cutoff && seen[j].key == key && seen[j].claimed <= cutoff
  }

  lemma {:induction false} OnlyOne(seen: Entries, g: Held, h: Held)
    requires KeysDistinct(seen) && g in seen && h in seen && g.key == h.key
    ensures g == h
  {
    assert seen == [seen[0]] + seen[1..];
    if g in seen[1..] && h in seen[1..] {
      OnlyOne(seen[1..], g, h);
    }
  }

  lemma {:induction false} HiddenStays(seen: Entries, key: Key, cutoff: int)
    ensures Hidden(seen, key, cutoff) <==> exists h :: h in Swept(seen, cutoff) && h.key == key && h.claimed <= cutoff
  {
    if seen == [] {
    } else if seen[0].claimed > cutoff {
      assert forall j :: 0 < j < |seen| && seen[j].key == key && seen[j].claimed <= cutoff ==>
               Hidden(seen, key, cutoff);
    } else {
      var rest := seen[1..];
      HiddenStays(rest, key, cutoff);
      assert forall i :: 0 < i < |seen| ==> seen[i] == rest[i - 1];
      if Hidden(rest, key, cutoff) {
        var i, j :| 0 <= i < j < |rest| && rest[i].claimed > cutoff && rest[j].key == key && rest[j].claimed <= cutoff;
        assert seen[i + 1] == rest[i] && seen[j + 1] == rest[j];
      }
    }
  }

  /** Looking a key up after the sweep is asking whether it is held inside the window exactly when no
      expired entry of that key is hidden behind one that is not. */
  lemma ClaimsRightExactlyWhen(seen: Entries, key: Key, cutoff: int)
    requires KeysDistinct(seen)
    ensures (Holds(Swept(seen, cutoff), key) <==> HeldInside(seen, key, cutoff)) <==> !Hidden(seen, key, cutoff)
    ensures !Hidden(seen, key, cutoff) ==>
              (HoldsHandled(Swept(seen, cutoff), key) <==> HandledInside(seen, key, cutoff))
  {
    SweptKeeps(seen, cutoff);
    HiddenStays(seen, key, cutoff);
    if Hidden(seen, key, cutoff) {
      var h :| h in Swept(seen, cutoff) && h.key == key && h.claimed <= cutoff;
      if HeldInside(seen, key, cutoff) {
        var g :| g in seen && g.key == key && g.claimed > cutoff;
        OnlyOne(seen, g, h);
      }
    }
  }

  /** However the clocks of the claims were out of order, by no more than `skew`: a key inside the window is
      never claimed again, and none is held for longer than the window and `skew`. */
  lemma SkewedClaims(seen: Entries, key: Key, cutoff: int, skew: nat)
    requires Ordered(seen, skew)
    ensures HeldInside(seen, key, cutoff) ==> Holds(Swept(seen, cutoff), key)
    ensures Holds(Swept(seen, cutoff), key) ==> HeldInside(seen, key, cutoff - skew)
  {
    SweptKeeps(seen, cutoff);
    SweptIsRecent(seen, cutoff, skew);
  }

  /** A claim whose clock was read no more than `skew` before another's keeps the order up to `skew`. */
  ghost predicate KeepsOrder(before: Entries, now: int, after: Entries) {
    forall skew :: Ordered(before, skew) && (forall h :: h in before ==> h.claimed <= now + skew) ==>
             Ordered(after, skew)
  }

  lemma LookedUpKeeps(seen: Entries, cutoff: int, now: int)
    requires KeysDistinct(seen)
    ensures KeysDistinct(Swept(seen, cutoff)) && KeepsOrder(seen, now, Swept(seen, cutoff))
  {
    SweptKeeps(seen, cutoff);
  }

  lemma TakenOnKeeps(seen: Entries, cutoff: int, entry: Held)
    requires KeysDistinct(seen) && !Holds(Swept(seen, cutoff), entry.key)
    ensures KeysDistinct(Swept(seen, cutoff) + [entry])
    ensures KeepsOrder(seen, entry.claimed, Swept(seen, cutoff) + [entry])
  {
    SweptKeeps(seen, cutoff);
    InsertedLast(Swept(seen, cutoff), entry);
  }

  lemma ConfirmedIsHandled(seen: Entries, held: Held)
    requires KeysDistinct(seen) && held in seen
    ensures HoldsHandled(seen, held.key) <==> held.confirmed
  {
    if h :| h in seen && h.key == held.key && h.confirmed {
      OnlyOne(seen, h, held);
    }
  }

  class InMemoryIdempotencyStore {
    const ttl: int
    var seen: Entries

    constructor (ttl: int)
      requires ttl > 0
      ensures Valid() && seen == [] && this.ttl == ttl
    {
      this.ttl := ttl;
      seen := [];
    }

    ghost predicate Valid()
      reads this
    {
      ttl > 0 && KeysDistinct(seen)
    }

    /** The deleting loop, which looks at the oldest entry only; it filters everything out exactly when
        what has expired is in front. */
    method Sweep(now: int)
      requires Valid()
      modifies `seen
      ensures Valid() && seen == Swept(old(seen), now - ttl)
      ensures seen == Inside(old(seen), now - ttl) <==> ExpiredInFront(old(seen), now - ttl)
    {
      var cutoff := now - ttl;
      while seen != []
        invariant Swept(seen, cutoff) == Swept(old(seen), cutoff)
      {
        if seen[0].claimed > cutoff { break; }
        seen := seen[1..];
      }
      SweepIsEnoughExactlyWhen(old(seen), cutoff);
      SweptKeeps(old(seen), cutoff);
    }

    /** `_seen.get`. */
    method Get(key: Key) returns (held: Option<Held>)
      requires Valid()
      ensures held.Some? <==> Holds(seen, key)
      ensures held.Some? ==> (held.value.confirmed <==> HoldsHandled(seen, key))
    {
      var at := 0;
      while at < |seen|
        invariant 0 <= at <= |seen|
        invariant forall h :: h in seen[..at] ==> h.key != key
      {
        if seen[at].key == key {
          ConfirmedIsHandled(seen, seen[at]);
          return Some(seen[at]);
        }
        at := at + 1;
      }
      assert seen[..at] == seen;
      held := None;
    }

    /** A claim at any time: the key is taken on exactly when the sweep left no entry of it, a confirmed
        entry makes a duplicate, and any other is in progress. Unless an expired entry of the key is
        hidden, that is whether it is held inside the window. */
    method ClaimKey(key: Key, now: int) returns (claim: Claim)
      requires Valid()
      modifies this
      ensures Valid()
      ensures seen == Swept(old(seen), now - ttl) + if claim.TakenOn? then [Held(key, now, false)] else []
      ensures claim.TakenOn? <==> !Holds(Swept(old(seen), now - ttl), key)
      ensures claim.Duplicate? <==> HoldsHandled(Swept(old(seen), now - ttl), key)
      ensures !Hidden(old(seen), key, now - ttl) ==>
                && (claim.TakenOn? <==> !HeldInside(old(seen), key, now - ttl))
                && (claim.Duplicate? <==> HandledInside(old(seen), key, now - ttl))
      ensures KeepsOrder(old(seen), now, seen)
    {
      ClaimsRightExactlyWhen(seen, key, now - ttl);
      LookedUpKeeps(seen, now - ttl, now);
      Sweep(now);
      var held := Get(key);
      if held.None? {
        TakenOnKeeps(old(seen), now - ttl, Held(key, now, false));
        seen := seen + [Held(key, now, false)];
        claim := TakenOn;
      } else {
        claim := if held.value.confirmed then Duplicate else InProgress;
      }
    }

    method Confirm(key: Key)
      requires Valid()
      modifies `seen
      ensures Valid() && seen == Confirmed(old(seen), key)
      ensures forall skew :: Ordered(old(seen), skew) ==> Ordered(seen, skew)
    {
      ConfirmedKeeps(seen, key);
      seen := Confirmed(seen, key);
    }

    method Forget(key: Key)
      requires Valid()
      modifies `seen
      ensures Valid() && forall h :: h in seen <==> h in old(seen) && h.key != key
      ensures forall skew :: Ordered(old(seen), skew) ==> Ordered(seen, skew)
    {
      WithoutIs(seen, key);
      WithoutKeeps(seen, key);
      seen := Without(seen, key);
    }
  }
}
