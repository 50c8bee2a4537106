/** One lock per key, forgotten once nobody holds it or waits for it
    (src/acemq_amqp/patterns/ordered.py). */
module KeyedLocks {
  import opened Retry

  type Key = string

  /** A suspended or running `hold`, numbered in the order they arrived. */
  type Call = nat

  /** `asyncio.Lock`: who is inside, who waits, first come first, which of those have been cancelled but
      not yet taken themselves off, and which of these had been woken before: their futures count as done
      and not as cancelled. */
  datatype Lock = Lock(owner: Option<Call>, waiters: seq<Call>, gone: set<Call>, woken: set<Call>)

  const FREE := Lock(None, [], {}, {})

  /** What a `hold` remembers while it waits or is inside: its key, and the lock object it was given. */
  datatype Frame = Frame(key: Key, lock: nat)

  /** The two dictionaries, the lock objects they and the frames refer to, and the frames. */
  datatype World = World(
    locks: map<Key, nat>, holders: map<Key, int>,
    objects: map<nat, Lock>, nextLock: nat,
    frames: map<Call, Frame>, nextCall: nat)

  datatype Step = Arrive(key: Key) | Enter(call: Call) | Cancel(call: Call) | CancelWait(call: Call)
    | Release(call: Call)

  predicate AllGone(lock: Lock) { forall c :: c in lock.waiters ==> c in lock.gone && c !in lock.woken }

  /** A free lock whose waiters, if it has any, were all cancelled before they were woken is taken at
      once; otherwise the newcomer waits. */
  function Joined(lock: Lock, call: Call): Lock {
    if lock.owner == None && AllGone(lock) then lock.(owner := Some(call))
    else lock.(waiters := lock.waiters + [call])
  }

  predicate MayEnter(lock: Lock, call: Call) {
    lock.owner == None && lock.waiters != [] && lock.waiters[0] == call && call !in lock.gone
  }

  predicate MayBeCancelled(lock: Lock, call: Call) { call in lock.waiters && call !in lock.gone }

  /** The first in line of a free lock has been woken, and has yet to run. */
  function GivenUp(lock: Lock, call: Call): Lock {
    lock.(gone := lock.gone + {call}, woken := if MayEnter(lock, call) then lock.woken + {call} else lock.woken)
  }

  predicate MayLeave(lock: Lock, call: Call) { call in lock.waiters && call in lock.gone }

  function Entered(lock: Lock): Lock
    requires lock.waiters != []
  {
    lock.(owner := Some(lock.waiters[0]), waiters := lock.waiters[1..])
  }

  function Without(waiters: seq<Call>, call: Call): seq<Call> {
    if waiters == [] then []
    else if waiters[0] == call then waiters[1..]
    else [waiters[0]] + Without(waiters[1..], call)
  }

  function Left(lock: Lock, call: Call): Lock {
    lock.(waiters := Without(lock.waiters, call), gone := lock.gone - {call}, woken := lock.woken - {call})
  }

  function Freed(lock: Lock): Lock { lock.(owner := None) }

  predicate FrameOk(w: World, call: Call) { call in w.frames && w.frames[call].lock in w.objects }

  function LockOf(w: World, call: Call): Lock
    requires FrameOk(w, call)
  {
    w.objects[w.frames[call].lock]
  }

  predicate Enabled(w: World, step: Step) {
    match step
    case Arrive(key) => key in w.locks ==> w.locks[key] in w.objects
    case Enter(call) => FrameOk(w, call) && MayEnter(LockOf(w, call), call)
    case Cancel(call) => FrameOk(w, call) && MayBeCancelled(LockOf(w, call), call)
    case CancelWait(call) => FrameOk(w, call) && MayLeave(LockOf(w, call), call)
    case Release(call) => FrameOk(w, call) && LockOf(w, call).owner == Some(call)
  }

  /** The dictionaries after `_let_go`. */
  function LetGo(w: World, call: Call): World
    requires call in w.frames
  {
    var key := w.frames[call].key;
    var remaining := (if key in w.holders then w.holders[key] else 0) - 1;
    w.(frames := w.frames - {call},
       holders := if remaining != 0 then w.holders[key := remaining] else w.holders - {key},
       locks := if remaining != 0 then w.locks else w.locks - {key})
  }

  function Arrived(w: World, key: Key): World
    requires Enabled(w, Arrive(key))
  {
    var id := if key in w.locks then w.locks[key] else w.nextLock;
    var lock := if key in w.locks then w.objects[id] else FREE;
    World(w.locks[key := id], w.holders[key := (if key in w.holders then w.holders[key] else 0) + 1],
          w.objects[id := Joined(lock, w.nextCall)], if key in w.locks then w.nextLock else w.nextLock + 1,
          w.frames[w.nextCall := Frame(key, id)], w.nextCall + 1)
  }

  function WithLock(w: World, call: Call, lock: Lock): World
    requires call in w.frames
  {
    w.(objects := w.objects[w.frames[call].lock := lock])
  }

  function Apply(w: World, step: Step): World
    requires Enabled(w, step)
  {
    match step
    case Arrive(key) => Arrived(w, key)
    case Enter(call) => WithLock(w, call, Entered(LockOf(w, call)))
    case Cancel(call) => WithLock(w, call, GivenUp(LockOf(w, call), call))
    case CancelWait(call) => LetGo(WithLock(w, call, Left(LockOf(w, call), call)), call)
    case Release(call) => LetGo(WithLock(w, call, Freed(LockOf(w, call))), call)
  }

  predicate ValidRun(w: World, steps: seq<Step>)
    decreases |steps|
  {
    steps == [] || (Enabled(w, steps[0]) && ValidRun(Apply(w, steps[0]), steps[1..]))
  }

  function Run(w: World, steps: seq<Step>): World
    requires ValidRun(w, steps)
    decreases |steps|
  {
    if steps == [] then w else Run(Apply(w, steps[0]), steps[1..])
  }

  const EMPTY := World(map[], map[], map[], 0, map[], 0)

  // ---------------------------------------------------------------- what every step keeps

  function CallsOn(frames: map<Call, Frame>, key: Key): set<Call> { set c | c in frames && frames[c].key == key }

  /** The dictionaries have the same keys, and each key is counted as often as calls are on it. */
  ghost predicate Counted(w: World) {
    && w.locks.Keys == w.holders.Keys
    && forall key: Key :: |CallsOn(w.frames, key)| == if key in w.holders then w.holders[key] else 0
  }

  /** No key is kept that nobody is on. */
  predicate Needed(holders: map<Key, int>) { forall key :: key in holders ==> holders[key] >= 1 }

  /** Every call on a key has that key's lock object, which is no other key's. */
  predicate Shared(w: World) {
    && (forall c :: c in w.frames ==>
          c < w.nextCall && w.frames[c].key in w.locks && w.locks[w.frames[c].key] == w.frames[c].lock)
    && (forall key :: key in w.locks ==> w.locks[key] in w.objects && w.locks[key] < w.nextLock)
    && (forall j, k :: j in w.locks && k in w.locks && w.locks[j] == w.locks[k] ==> j == k)
  }

  /** In order of arrival. */
  predicate InOrder(waiters: seq<Call>) {
    waiters == [] || ((forall c :: c in waiters[1..] ==> waiters[0] < c) && InOrder(waiters[1..]))
  }

  /** Whoever is inside came before everybody who waits and is not cancelled, they wait in the order they
      came, and one that was woken stands first in line of a free lock until it has taken itself off. */
  predicate Fair(lock: Lock) {
    && InOrder(lock.waiters)
    && lock.woken <= lock.gone && (forall c :: c in lock.gone ==> c in lock.waiters)
    && (forall c :: c in lock.woken ==> lock.owner == None && lock.waiters != [] && lock.waiters[0] == c)
    && (lock.owner.Some? ==> lock.owner.value !in lock.waiters)
    && (lock.owner.Some? ==> forall c :: c in lock.waiters && c !in lock.gone ==> lock.owner.value < c)
  }

  /** The calls on a key are the one inside its lock and the ones waiting for it. */
  ghost predicate Queued(frames: map<Call, Frame>, key: Key, lock: Lock) {
    && Fair(lock)
    && forall c: Call :: (c in frames && frames[c].key == key) <==> (lock.owner == Some(c) || c in lock.waiters)
  }

  ghost predicate AllQueued(w: World) {
    forall key :: key in w.locks && w.locks[key] in w.objects ==> Queued(w.frames, key, w.objects[w.locks[key]])
  }

  ghost predicate Inv(w: World) { Counted(w) && Needed(w.holders) && Shared(w) && AllQueued(w) }

  lemma {:induction false} WithoutIs(waiters: seq<Call>, call: Call)
    requires InOrder(waiters)
    ensures InOrder(Without(waiters, call))
    ensures forall c :: c in Without(waiters, call) <==> c in waiters && c != call
  {
    if waiters != [] {
      assert waiters == [waiters[0]] + waiters[1..];
      WithoutIs(waiters[1..], call);
      if waiters[0] != call {
        assert Without(waiters, call)[1..] == Without(waiters[1..], call);
      }
    }
  }

  lemma {:induction false} JoinedInOrder(waiters: seq<Call>, call: Call)
    requires InOrder(waiters) && forall c :: c in waiters ==> c < call
    ensures InOrder(waiters + [call])
  {
    if waiters != [] {
      assert forall c :: c in waiters <==> c == waiters[0] || c in waiters[1..];
      JoinedInOrder(waiters[1..], call);
      var more := waiters + [call];
      assert more[1..] == waiters[1..] + [call];
      assert forall c :: c in more[1..] ==> c in waiters[1..] || c == call;
      assert waiters[0] in waiters;
    }
  }

  lemma CallAdded(frames: map<Call, Frame>, call: Call, frame: Frame, key: Key)
    requires call !in frames
    ensures |CallsOn(frames[call := frame], key)| == |CallsOn(frames, key)| + if key == frame.key then 1 else 0
  {
    if key == frame.key {
      assert CallsOn(frames[call := frame], key) == CallsOn(frames, key) + {call};
    } else {
      assert CallsOn(frames[call := frame], key) == CallsOn(frames, key);
    }
  }

  lemma CallGone(frames: map<Call, Frame>, call: Call, key: Key)
    requires call in frames
    ensures |CallsOn(frames - {call}, key)| == |CallsOn(frames, key)| - if key == frames[call].key then 1 else 0
  {
    if key == frames[call].key {
      assert CallsOn(frames - {call}, key) == CallsOn(frames, key) - {call};
    } else {
      assert CallsOn(frames - {call}, key) == CallsOn(frames, key);
    }
  }

  lemma NobodyOn(frames: map<Call, Frame>, key: Key)
    ensures |CallsOn(frames, key)| == 0 <==> forall c :: c in frames ==> frames[c].key != key
  {
    if c :| c in frames && frames[c].key == key {
      assert c in CallsOn(frames, key);
    }
  }

  lemma JoinQueued(frames: map<Call, Frame>, key: Key, lock: Lock, call: Call, id: nat)
    requires Queued(frames, key, lock) && forall c :: c in frames ==> c < call
    ensures Queued(frames[call := Frame(key, id)], key, Joined(lock, call))
  {
    assert forall c :: c in lock.waiters ==> c < call;
    JoinedInOrder(lock.waiters, call);
  }

  lemma OthersQueued(frames: map<Call, Frame>, key: Key, lock: Lock, call: Call, frame: Frame)
    requires Queued(frames, key, lock) && call !in frames && frame.key != key
    ensures Queued(frames[call := frame], key, lock)
  {
  }

  lemma ArrivedQueued(w: World, key: Key)
    requires Shared(w) && AllQueued(w) && Queued(w.frames, key, LockFor(w, key))
    ensures AllQueued(Arrived(w, key))
  {
    var v := Arrived(w, key);
    JoinQueued(w.frames, key, LockFor(w, key), w.nextCall, v.locks[key]);
    forall k | k in v.locks && k != key ensures Queued(v.frames, k, v.objects[v.locks[k]]) {
      assert k in w.locks && v.objects[v.locks[k]] == w.objects[w.locks[k]];
      OthersQueued(w.frames, k, w.objects[w.locks[k]], w.nextCall, v.frames[w.nextCall]);
    }
  }

  lemma ArrivedCounted(w: World, key: Key)
    requires Counted(w) && Needed(w.holders) && w.nextCall !in w.frames && Enabled(w, Arrive(key))
    ensures Counted(Arrived(w, key)) && Needed(Arrived(w, key).holders)
  {
    var v := Arrived(w, key);
    forall k: Key ensures |CallsOn(v.frames, k)| == if k in v.holders then v.holders[k] else 0 {
      CallAdded(w.frames, w.nextCall, v.frames[w.nextCall], k);
    }
  }

  lemma ArrivedShared(w: World, key: Key)
    requires Shared(w)
    ensures Shared(Arrived(w, key))
  {
  }

  lemma ArrivedKeeps(w: World, key: Key)
    requires Inv(w)
    ensures Inv(Arrived(w, key))
  {
    ArrivedCounted(w, key);
    ArrivedShared(w, key);
    ArrivedQueued(w, key);
  }

  /** A lock changed in place, with the same calls on it. */
  lemma LockPut(w: World, call: Call, lock: Lock, gone: set<Call>)
    requires Shared(w) && AllQueued(w) && call in w.frames && gone <= {call}
    requires Queued(w.frames - gone, w.frames[call].key, lock)
    ensures Shared(WithLock(w, call, lock))
    ensures forall key :: key in w.locks ==> Queued(w.frames - gone, key, WithLock(w, call, lock).objects[w.locks[key]])
  {
    var v := WithLock(w, call, lock);
    forall key | key in w.locks ensures Queued(w.frames - gone, key, v.objects[w.locks[key]]) {
      if key != w.frames[call].key {
        assert Queued(w.frames, key, w.objects[w.locks[key]]);
      }
    }
  }

  lemma EnteredKeeps(w: World, call: Call)
    requires Inv(w) && Enabled(w, Enter(call))
    ensures Inv(Apply(w, Enter(call)))
  {
    var lock := LockOf(w, call);
    assert w.frames - {} == w.frames;
    LockPut(w, call, Entered(lock), {});
  }

  lemma LetGoCounted(w: World, call: Call)
    requires Counted(w) && Needed(w.holders) && call in w.frames
    ensures Counted(LetGo(w, call)) && Needed(LetGo(w, call).holders)
  {
    var v := LetGo(w, call);
    forall k: Key ensures |CallsOn(v.frames, k)| == if k in v.holders then v.holders[k] else 0 {
      CallGone(w.frames, call, k);
    }
  }

  lemma LetGoShared(w: World, call: Call)
    requires Counted(w) && Shared(w) && call in w.frames
    ensures Shared(LetGo(w, call))
  {
    var key := w.frames[call].key;
    CallGone(w.frames, call, key);
    NobodyOn(LetGo(w, call).frames, key);
  }

  lemma GivenUpKeeps(w: World, call: Call)
    requires Inv(w) && Enabled(w, Cancel(call))
    ensures Inv(Apply(w, Cancel(call)))
  {
    var lock := LockOf(w, call);
    assert Queued(w.frames, w.frames[call].key, lock);
    assert w.frames - {} == w.frames;
    LockPut(w, call, GivenUp(lock, call), {});
  }

  /** A call that leaves: its key is forgotten exactly when it was the last one on it. */
  lemma LetGoKeeps(w: World, call: Call, lock: Lock)
    requires Inv(w) && call in w.frames && Queued(w.frames - {call}, w.frames[call].key, lock)
    ensures Inv(LetGo(WithLock(w, call, lock), call))
  {
    LockPut(w, call, lock, {call});
    LetGoCounted(WithLock(w, call, lock), call);
    LetGoShared(WithLock(w, call, lock), call);
  }

  lemma LeftQueued(frames: map<Call, Frame>, key: Key, lock: Lock, call: Call)
    requires Queued(frames, key, lock) && MayLeave(lock, call)
    ensures Queued(frames - {call}, key, Left(lock, call))
  {
    WithoutIs(lock.waiters, call);
  }

  lemma CancelledKeeps(w: World, call: Call)
    requires Inv(w) && Enabled(w, CancelWait(call))
    ensures Inv(Apply(w, CancelWait(call)))
  {
    LeftQueued(w.frames, w.frames[call].key, LockOf(w, call), call);
    LetGoKeeps(w, call, Left(LockOf(w, call), call));
  }

  lemma ReleasedKeeps(w: World, call: Call)
    requires Inv(w) && Enabled(w, Release(call))
    ensures Inv(Apply(w, Release(call)))
  {
    LetGoKeeps(w, call, Freed(LockOf(w, call)));
  }

  lemma StepKeeps(w: World, step: Step)
    requires Inv(w) && Enabled(w, step)
    ensures Inv(Apply(w, step))
  {
    match step
    case Arrive(key) => ArrivedKeeps(w, key);
    case Enter(call) => EnteredKeeps(w, call);
    case Cancel(call) => GivenUpKeeps(w, call);
    case CancelWait(call) => CancelledKeeps(w, call);
    case Release(call) => ReleasedKeeps(w, call);
  }

  lemma {:induction false} EveryRunKeeps(w: World, steps: seq<Step>)
    requires Inv(w) && ValidRun(w, steps)
    ensures Inv(Run(w, steps))
    decreases |steps|
  {
    if steps != [] {
      StepKeeps(w, steps[0]);
      EveryRunKeeps(Apply(w, steps[0]), steps[1..]);
    }
  }

  // ---------------------------------------------------------------- the theorems

  predicate Inside(w: World, call: Call) { FrameOk(w, call) && LockOf(w, call).owner == Some(call) }

  predicate Waiting(w: World, call: Call) { FrameOk(w, call) && MayBeCancelled(LockOf(w, call), call) }

  /** Cancelled, and about to take itself off. */
  predicate Leaving(w: World, call: Call) { FrameOk(w, call) && MayLeave(LockOf(w, call), call) }

  /** Over every interleaving of arrivals, entries, cancelled waits and releases: the dictionaries have
      equal domains and count the calls on each key; a call waits, is leaving or is inside, and only one
      of these; at most one is inside per key, having come before all who wait; and with no call left
      both dictionaries are empty. */
  lemma KeysAreGuarded(steps: seq<Step>, c: Call, d: Call)
    requires ValidRun(EMPTY, steps)
    ensures var w := Run(EMPTY, steps);
            && w.locks.Keys == w.holders.Keys
            && (forall key :: key in w.holders ==> w.holders[key] == |CallsOn(w.frames, key)| >= 1)
            && (c in w.frames ==> Inside(w, c) || Waiting(w, c) || Leaving(w, c))
            && (Inside(w, c) ==> !Waiting(w, c) && !Leaving(w, c))
            && (c in w.frames && d in w.frames && w.frames[c].key == w.frames[d].key ==>
                  && w.frames[c].lock == w.frames[d].lock
                  && (Inside(w, c) && Inside(w, d) ==> c == d)
                  && (Inside(w, c) && Waiting(w, d) ==> c < d))
            && (w.frames == map[] ==> w.locks == map[] && w.holders == map[])
  {
    NobodyYet();
    EveryRunKeeps(EMPTY, steps);
    var w := Run(EMPTY, steps);
    if c in w.frames {
      assert Queued(w.frames, w.frames[c].key, LockOf(w, c));
    }
    if w.frames == map[] {
      forall key: Key ensures key !in w.holders {
        NobodyOn(w.frames, key);
      }
      assert w.locks.Keys == {};
    }
  }

  /** Entry is first come, first served: whoever goes in came before all others who still wait for the
      key, a newcomer does not go in before them, and when the lock is free and anybody waits, the first
      in line can go in or, if cancelled, take itself off. */
  lemma FirstComeFirstServed(w: World, call: Call)
    requires Inv(w) && Waiting(w, call) && LockOf(w, call).owner == None
    ensures var lock := LockOf(w, call);
            var first := lock.waiters[0];
            && (Enabled(w, Enter(first)) || Enabled(w, CancelWait(first)))
            && (Enabled(w, Enter(call)) <==> call == first)
            && (forall other: Call :: MayEnter(lock, other) ==> other <= call)
            && Joined(lock, w.nextCall).owner == None
  {
    FirstIsFirst(w.frames, w.frames[call].key, LockOf(w, call), call);
    var first := LockOf(w, call).waiters[0];
    assert first in w.frames && w.frames[first].key == w.frames[call].key;
  }

  lemma FirstIsFirst(frames: map<Call, Frame>, key: Key, lock: Lock, call: Call)
    requires Queued(frames, key, lock) && MayBeCancelled(lock, call)
    ensures lock.waiters[0] in frames && frames[lock.waiters[0]].key == key && lock.waiters[0] <= call
  {
    assert lock.waiters[0] in lock.waiters;
    assert lock.waiters == [lock.waiters[0]] + lock.waiters[1..];
  }

  // ---------------------------------------------------------------- one lock per key, for ever

  /** The simple form: every key there is has its lock from the start, and keeps it. */
  datatype Ideal = Ideal(locks: imap<Key, Lock>, keys: map<Call, Key>, nextCall: nat)

  function LockFor(w: World, key: Key): Lock {
    if key in w.locks && w.locks[key] in w.objects then w.objects[w.locks[key]] else FREE
  }

  ghost function Forever(w: World): Ideal {
    Ideal(imap key: Key :: LockFor(w, key), map c | c in w.frames :: w.frames[c].key, w.nextCall)
  }

  ghost predicate IdealEnabled(i: Ideal, step: Step) {
    (forall key: Key :: key in i.locks) &&
    match step
    case Arrive(_) => true
    case Enter(call) => call in i.keys && MayEnter(i.locks[i.keys[call]], call)
    case Cancel(call) => call in i.keys && MayBeCancelled(i.locks[i.keys[call]], call)
    case CancelWait(call) => call in i.keys && MayLeave(i.locks[i.keys[call]], call)
    case Release(call) => call in i.keys && i.locks[i.keys[call]].owner == Some(call)
  }

  ghost function IdealApply(i: Ideal, step: Step): Ideal
    requires IdealEnabled(i, step)
  {
    match step
    case Arrive(key) =>
      Ideal(i.locks[key := Joined(i.locks[key], i.nextCall)], i.keys[i.nextCall := key], i.nextCall + 1)
    case Enter(call) => i.(locks := i.locks[i.keys[call] := Entered(i.locks[i.keys[call]])])
    case Cancel(call) => i.(locks := i.locks[i.keys[call] := GivenUp(i.locks[i.keys[call]], call)])
    case CancelWait(call) =>
      i.(locks := i.locks[i.keys[call] := Left(i.locks[i.keys[call]], call)], keys := i.keys - {call})
    case Release(call) =>
      i.(locks := i.locks[i.keys[call] := Freed(i.locks[i.keys[call]])], keys := i.keys - {call})
  }

  lemma NobodyMeansFree(frames: map<Call, Frame>, key: Key, lock: Lock)
    requires Queued(frames, key, lock) && forall c :: c in frames ==> frames[c].key != key
    ensures lock == FREE
  {
    var c := SomebodyIsOn(lock);
  }

  lemma SomebodyIsOn(lock: Lock) returns (c: Call)
    requires Fair(lock)
    ensures lock == FREE || lock.owner == Some(c) || c in lock.waiters
  {
    c := if lock.owner.Some? then lock.owner.value else if lock.waiters != [] then lock.waiters[0] else 0;
    assert lock.waiters == [] ==> lock.gone == {};
  }

  lemma LockPutIs(w: World, call: Call, lock: Lock)
    requires Shared(w) && call in w.frames
    ensures forall k: Key ::
              LockFor(WithLock(w, call, lock), k) == if k == w.frames[call].key then lock else LockFor(w, k)
  {
  }

  lemma LettingGoForgetsOne(w: World, call: Call)
    requires call in w.frames
    ensures var v, key := LetGo(w, call), w.frames[call].key;
            forall k: Key :: LockFor(v, k) == if k == key && key !in v.locks then FREE else LockFor(w, k)
  {
  }

  lemma LastOneForgets(w: World, call: Call)
    requires Counted(w) && call in w.frames
    ensures w.frames[call].key !in LetGo(w, call).locks ==>
              forall c :: c in w.frames - {call} ==> w.frames[c].key != w.frames[call].key
  {
    CallGone(w.frames, call, w.frames[call].key);
    NobodyOn(w.frames - {call}, w.frames[call].key);
  }

  /** A lock nobody is on is free, so forgetting it and making a new one shows nowhere. */
  lemma ForgottenIsFree(w: World, call: Call, lock: Lock)
    requires Inv(w) && call in w.frames && Queued(w.frames - {call}, w.frames[call].key, lock)
    ensures var v := LetGo(WithLock(w, call, lock), call);
            forall key: Key :: LockFor(v, key) == if key == w.frames[call].key then lock else LockFor(w, key)
  {
    var put, key := WithLock(w, call, lock), w.frames[call].key;
    LockPutIs(w, call, lock);
    LettingGoForgetsOne(put, call);
    LastOneForgets(put, call);
    if key !in LetGo(put, call).locks {
      NobodyMeansFree(w.frames - {call}, key, lock);
    }
  }

  lemma SameEnabled(w: World, step: Step)
    requires Inv(w)
    ensures Enabled(w, step) <==> IdealEnabled(Forever(w), step)
  {
  }

  /** Forgetting locks refine one lock per key for ever: the same steps are possible, and each does
      the same. */
  lemma ForgettingRefines(w: World, step: Step)
    requires Inv(w)
    ensures Enabled(w, step) <==> IdealEnabled(Forever(w), step)
    ensures Enabled(w, step) ==> Forever(Apply(w, step)) == IdealApply(Forever(w), step)
  {
    SameEnabled(w, step);
    if Enabled(w, step) {
      match step
      case Arrive(key) => ArriveRefines(w, key);
      case Enter(call) => EnterRefines(w, call);
      case Cancel(call) => GivenUpRefines(w, call);
      case CancelWait(call) => CancelRefines(w, call);
      case Release(call) => ReleaseRefines(w, call);
    }
  }

  lemma OneLockDiffers(v: World, w: World, key: Key, lock: Lock)
    requires forall k: Key :: LockFor(v, k) == if k == key then lock else LockFor(w, k)
    ensures Forever(v).locks == Forever(w).locks[key := lock]
  {
  }

  lemma ArriveRefines(w: World, key: Key)
    requires Shared(w)
    ensures Forever(Arrived(w, key)) == IdealApply(Forever(w), Arrive(key))
  {
    var v := Arrived(w, key);
    NewcomerJoins(w, key);
    OneLockDiffers(v, w, key, Joined(LockFor(w, key), w.nextCall));
    assert Forever(v).keys == Forever(w).keys[w.nextCall := key];
  }

  lemma NewcomerJoins(w: World, key: Key)
    requires Shared(w)
    ensures forall k: Key ::
              LockFor(Arrived(w, key), k) == if k == key then Joined(LockFor(w, key), w.nextCall) else LockFor(w, k)
  {
  }

  lemma EnterRefines(w: World, call: Call)
    requires Inv(w) && Enabled(w, Enter(call))
    ensures Forever(Apply(w, Enter(call))) == IdealApply(Forever(w), Enter(call))
  {
    OneLockDiffers(Apply(w, Enter(call)), w, w.frames[call].key, Entered(LockOf(w, call)));
  }

  lemma GivenUpRefines(w: World, call: Call)
    requires Inv(w) && Enabled(w, Cancel(call))
    ensures Forever(Apply(w, Cancel(call))) == IdealApply(Forever(w), Cancel(call))
  {
    OneLockDiffers(Apply(w, Cancel(call)), w, w.frames[call].key, GivenUp(LockOf(w, call), call));
  }

  lemma LeaveRefines(w: World, call: Call, lock: Lock)
    requires Inv(w) && call in w.frames && Queued(w.frames - {call}, w.frames[call].key, lock)
    ensures var i, v := Forever(w), Forever(LetGo(WithLock(w, call, lock), call));
            v == i.(locks := i.locks[w.frames[call].key := lock], keys := i.keys - {call})
  {
    ForgottenIsFree(w, call, lock);
    OneLockDiffers(LetGo(WithLock(w, call, lock), call), w, w.frames[call].key, lock);
    FramesRefine(w, call, lock);
  }

  lemma CancelRefines(w: World, call: Call)
    requires Inv(w) && Enabled(w, CancelWait(call))
    ensures Forever(Apply(w, CancelWait(call))) == IdealApply(Forever(w), CancelWait(call))
  {
    LeftQueued(w.frames, w.frames[call].key, LockOf(w, call), call);
    LeaveRefines(w, call, Left(LockOf(w, call), call));
  }

  lemma ReleaseRefines(w: World, call: Call)
    requires Inv(w) && Enabled(w, Release(call))
    ensures Forever(Apply(w, Release(call))) == IdealApply(Forever(w), Release(call))
  {
    LeaveRefines(w, call, Freed(LockOf(w, call)));
  }

  lemma FramesRefine(w: World, call: Call, lock: Lock)
    requires call in w.frames
    ensures Forever(LetGo(WithLock(w, call, lock), call)).keys == Forever(w).keys - {call}
  {
  }

  ghost predicate IdealValidRun(i: Ideal, steps: seq<Step>)
    decreases |steps|
  {
    steps == [] || (IdealEnabled(i, steps[0]) && IdealValidRun(IdealApply(i, steps[0]), steps[1..]))
  }

  ghost function IdealRun(i: Ideal, steps: seq<Step>): Ideal
    requires IdealValidRun(i, steps)
    decreases |steps|
  {
    if steps == [] then i else IdealRun(IdealApply(i, steps[0]), steps[1..])
  }

  /** Over any run: forgetting allows the very runs that keeping every lock for ever does, and they
      end with the same calls inside and waiting. */
  lemma {:induction false} ForgettingShowsNowhere(w: World, steps: seq<Step>)
    requires Inv(w)
    ensures ValidRun(w, steps) <==> IdealValidRun(Forever(w), steps)
    ensures ValidRun(w, steps) ==> Forever(Run(w, steps)) == IdealRun(Forever(w), steps)
    decreases |steps|
  {
    if steps != [] {
      ForgettingRefines(w, steps[0]);
      if Enabled(w, steps[0]) {
        StepKeeps(w, steps[0]);
        ForgettingShowsNowhere(Apply(w, steps[0]), steps[1..]);
      }
    }
  }

  // ---------------------------------------------------------------- the dictionaries in place

  lemma {:induction false} RunFurther(w: World, steps: seq<Step>, step: Step)
    requires ValidRun(w, steps) && Enabled(Run(w, steps), step)
    ensures ValidRun(w, steps + [step]) && Run(w, steps + [step]) == Apply(Run(w, steps), step)
    decreases |steps|
  {
    if steps == [] {
      assert steps + [step] == [step] && [step][1..] == [];
    } else {
      RunFurther(Apply(w, steps[0]), steps[1..], step);
      assert (steps + [step])[1..] == steps[1..] + [step];
    }
  }

  /** A key can always be asked for, and whoever is on it is counted. */
  lemma AlwaysCounted(steps: seq<Step>, key: Key, call: Call)
    requires ValidRun(EMPTY, steps)
    ensures var w := Run(EMPTY, steps);
            && Enabled(w, Arrive(key))
            && (call in w.frames ==> w.frames[call].key in w.holders)
  {
    NobodyYet();
    EveryRunKeeps(EMPTY, steps);
  }

  lemma NobodyYet()
    ensures Inv(EMPTY)
  {
    forall key: Key ensures |CallsOn(EMPTY.frames, key)| == 0 {
      NobodyOn(EMPTY.frames, key);
    }
  }

  /** `_KeyedLocks`: what `hold` does up to its first await, after it, and when it is left. */
  class Locks {
    var locks: map<Key, nat>
    var holders: map<Key, int>
    var objects: map<nat, Lock>
    var nextLock: nat
    var frames: map<Call, Frame>
    var nextCall: nat
    ghost var trace: seq<Step>

    constructor ()
      ensures Valid() && State() == EMPTY
    {
      locks, holders, objects, nextLock, frames, nextCall := map[], map[], map[], 0, map[], 0;
      trace := [];
    }

    function State(): World
      reads this
    {
      World(locks, holders, objects, nextLock, frames, nextCall)
    }

    /** The fields are what the steps taken so far make of empty dictionaries. */
    ghost predicate Valid()
      reads this
    {
      ValidRun(EMPTY, trace) && State() == Run(EMPTY, trace)
    }

    /** The lock of a key, made if there is none. */
    method Get(key: Key) returns (id: nat)
      requires Enabled(State(), Arrive(key))
      modifies `locks, `objects, `nextLock
      ensures locks == old(locks)[key := id] && id in objects
      ensures key in old(locks) ==> id == old(locks)[key] && objects == old(objects) && nextLock == old(nextLock)
      ensures key !in old(locks) ==> id == old(nextLock) && objects == old(objects)[id := FREE] && nextLock == id + 1
    {
      if key !in locks {
        locks, objects, nextLock := locks[key := nextLock], objects[nextLock := FREE], nextLock + 1;
      } else {
        assert locks[key := locks[key]] == locks;
      }
      id := locks[key];
    }

    /** Up to the first await: the key is counted, and the lock taken if it is free. */
    method Join(key: Key) returns (call: Call, inside: bool)
      requires Enabled(State(), Arrive(key))
      modifies `locks, `holders, `objects, `nextLock, `frames, `nextCall
      ensures State() == Arrived(old(State()), key) && call == old(nextCall)
      ensures inside <==> LockFor(old(State()), key).owner == None && AllGone(LockFor(old(State()), key))
    {
      var id := Get(key);
      call := nextCall;
      holders := holders[key := (if key in holders then holders[key] else 0) + 1];
      frames, nextCall := frames[call := Frame(key, id)], call + 1;
      var lock := objects[id];
      inside := lock.owner == None && forall c :: c in lock.waiters ==> c in lock.gone && c !in lock.woken;
      objects := objects[id := if inside then lock.(owner := Some(call)) else lock.(waiters := lock.waiters + [call])];
    }

    method Hold(key: Key) returns (call: Call, inside: bool)
      requires Valid()
      modifies this
      ensures Valid() && trace == old(trace) + [Arrive(key)] && call == old(nextCall)
      ensures inside <==> LockFor(old(State()), key).owner == None && AllGone(LockFor(old(State()), key))
    {
      AlwaysCounted(trace, key, 0);
      RunFurther(EMPTY, trace, Arrive(key));
      call, inside := Join(key);
      trace := trace + [Arrive(key)];
    }

    /** The wait ends: the lock is free, and this call is first in line. */
    method Acquired(call: Call)
      requires Valid() && Enabled(State(), Enter(call))
      modifies this
      ensures Valid() && trace == old(trace) + [Enter(call)] && Inside(State(), call)
    {
      RunFurther(EMPTY, trace, Enter(call));
      trace := trace + [Enter(call)];
      var id := frames[call].lock;
      objects := objects[id := objects[id].(owner := Some(call), waiters := objects[id].waiters[1..])];
    }

    /** The wait is cancelled: for others, at once; for the dictionaries, when the call resumes. */
    method GiveUp(call: Call)
      requires Valid() && Enabled(State(), Cancel(call))
      modifies this
      ensures Valid() && trace == old(trace) + [Cancel(call)]
    {
      RunFurther(EMPTY, trace, Cancel(call));
      trace := trace + [Cancel(call)];
      var id := frames[call].lock;
      objects := objects[id := GivenUp(objects[id], call)];
    }

    method Cancelled(call: Call)
      requires Valid() && Enabled(State(), CancelWait(call))
      modifies this
      ensures Valid() && trace == old(trace) + [CancelWait(call)]
    {
      AlwaysCounted(trace, "", call);
      RunFurther(EMPTY, trace, CancelWait(call));
      trace := trace + [CancelWait(call)];
      var id := frames[call].lock;
      objects := objects[id := Left(objects[id], call)];
      Forget(call);
    }

    method Released(call: Call)
      requires Valid() && Enabled(State(), Release(call))
      modifies this
      ensures Valid() && trace == old(trace) + [Release(call)]
    {
      AlwaysCounted(trace, "", call);
      RunFurther(EMPTY, trace, Release(call));
      trace := trace + [Release(call)];
      var id := frames[call].lock;
      objects := objects[id := objects[id].(owner := None)];
      Forget(call);
    }

    /** `_let_go`. */
    method Forget(call: Call)
      requires call in frames && frames[call].key in holders
      modifies `locks, `holders, `frames
      ensures State() == LetGo(old(State()), call)
    {
      var key := frames[call].key;
      frames := frames - {call};
      var remaining := holders[key] - 1;
      if remaining != 0 {
        holders := holders[key := remaining];
        return;
      }
      holders := holders - {key};
      locks := locks - {key};
    }
  }
}
