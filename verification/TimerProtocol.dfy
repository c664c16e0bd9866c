/** The life of a timeout: any number of timers, each used by one actor, armed, armed again, cancelled, fired and
    received in any order. */
module TimerProtocol {
  import opened Instants
  import opened Timers

  /** The timers of the actors, by a handle. */
  type Handle = nat

  /** The pending timeouts, the timeouts in the queue and the timers. The other fields are history: which timer each
      arm was for, the serial of the latest arm of each timer, and what became of the arms. */
  datatype System = System(
    sched: Scheduler,
    queue: seq<Entry>,
    timers: map<Handle, Timer>,
    owner: map<Handle, ActorId>,
    armedBy: seq<Handle>,
    lastArm: map<Handle, nat>,
    received: seq<Entry>,
    dropped: seq<Entry>)

  datatype Event =
    | ArmTimer(h: Handle, instant: Instant, now: Ticks)
    | CancelTimer(h: Handle)
    | Fire(room: bool)
    | Receive(tested: seq<Handle>)
    | DropQueue

  function DoCancel(s: System, h: Handle): System
    requires h in s.timers && h in s.owner
  {
    var t, dst := s.timers[h], s.owner[h];
    var (sched, t1) := Unschedule(s.sched, t, dst);
    s.(sched := sched, timers := s.timers[h := t1])
  }

  function DoArm(s: System, h: Handle, instant: Instant, now: Ticks): System
    requires h in s.timers && h in s.owner
  {
    var s1 := DoCancel(s, h);
    var (sched, t) := ScheduleUntil(s.sched, s.timers[h], instant, s.owner[h], now);
    s1.(sched := sched, timers := s1.timers[h := t],
        armedBy := s1.armedBy + [h], lastArm := s1.lastArm[h := s.sched.armed])
  }

  /** The owner tests a received timeout against some of its timers; a match resets their deadline. */
  function TestAll(timers: map<Handle, Timer>, tested: seq<Handle>, id: U32): (r: map<Handle, Timer>)
    ensures r.Keys == timers.Keys
    ensures forall h :: h in timers ==> r[h].id == timers[h].id
    ensures forall h :: h in timers ==> r[h] == timers[h] || (timers[h].id == id && r[h].deadline == Infinity)
    decreases |tested|
  {
    if tested == [] then timers
    else if tested[0] in timers then
      TestAll(timers[tested[0] := IsScheduling(timers[tested[0]], id).0], tested[1..], id)
    else TestAll(timers, tested[1..], id)
  }

  function Next(s: System, e: Event): System {
    match e
    case ArmTimer(h, instant, now) => if h in s.timers && h in s.owner then DoArm(s, h, instant, now) else s
    case CancelTimer(h) => if h in s.timers && h in s.owner then DoCancel(s, h) else s
    case Fire(room) =>
      if s.sched.list == [] || s.sched.list[0].key.deadline.Infinity? || !room then s
      else s.(sched := s.sched.(list := s.sched.list[1..]), queue := s.queue + [s.sched.list[0]])
    case Receive(tested) =>
      if s.queue == [] then s
      else s.(queue := s.queue[1..], received := s.received + [s.queue[0]],
              timers := TestAll(s.timers, tested, s.queue[0].key.id))
    case DropQueue => s.(queue := [], dropped := s.dropped + s.queue)
  }

  function Play(s: System, events: seq<Event>): System
    decreases |events|
  {
    if events == [] then s else Play(Next(s, events[0]), events[1..])
  }

  /** New timers, each with an owner, and nothing armed yet. */
  predicate Initial(s: System) {
    && s.sched == NEW_SCHEDULER && s.queue == [] && s.armedBy == [] && s.lastArm == map[]
    && s.received == [] && s.dropped == []
    && s.timers.Keys == s.owner.Keys && forall h :: h in s.timers ==> s.timers[h] == NEW_TIMER
  }

  // ---------- every arm is in exactly one place ----------

  function Count(list: seq<Entry>, serial: nat): nat {
    if list == [] then 0 else (if list[0].arm.serial == serial then 1 else 0) + Count(list[1..], serial)
  }

  function Places(s: System, serial: nat): nat {
    Count(s.sched.list, serial) + Count(s.queue, serial) + Count(s.received, serial)
    + Count(s.sched.cancelled, serial) + Count(s.sched.displaced, serial) + Count(s.dropped, serial)
  }

  lemma {:induction false} CountConcat(a: seq<Entry>, b: seq<Entry>, serial: nat)
    ensures Count(a + b, serial) == Count(a, serial) + Count(b, serial)
  {
    if a == [] {
      assert a + b == b;
    } else {
      CountConcat(a[1..], b, serial);
      assert (a + b)[1..] == a[1..] + b;
    }
  }

  lemma {:induction false} CountRemove(list: seq<Entry>, key: Timer, dst: ActorId, serial: nat)
    ensures Count(list, serial) == Count(RemoveOwned(list, key, dst), serial) + Count(Removed(list, key, dst), serial)
  {
    if list != [] && list[0].key != key {
      CountRemove(list[1..], key, dst, serial);
      assert RemoveOwned(list, key, dst)[1..] == RemoveOwned(list[1..], key, dst);
    } else if list != [] && list[0].dst == dst {
      assert [list[0]][1..] == [];
    }
  }

  lemma {:induction false} CountInsert(list: seq<Entry>, e: Entry, serial: nat)
    ensures Count(Insert(list, e), serial) + Count(Overwritten(list, e.key), serial)
         == Count(list, serial) + if e.arm.serial == serial then 1 else 0
  {
    if list == [] {
      assert Insert(list, e)[1..] == [];
    } else if list[0].key == e.key {
      assert Insert(list, e)[1..] == list[1..] && [list[0]][1..] == [];
    } else if KeyLess(e.key, list[0].key) {
      assert Insert(list, e)[1..] == list;
    } else {
      CountInsert(list[1..], e, serial);
      assert Insert(list, e)[1..] == Insert(list[1..], e);
    }
  }

  lemma {:induction false} CancelPlaces(s: System, h: Handle, serial: nat)
    requires h in s.timers && h in s.owner
    ensures Places(DoCancel(s, h), serial) == Places(s, serial)
  {
    CountRemove(s.sched.list, s.timers[h], s.owner[h], serial);
    CountConcat(s.sched.cancelled, Removed(s.sched.list, s.timers[h], s.owner[h]), serial);
    CountConcat(s.sched.cancelled, [], serial);
  }

  lemma {:induction false} NextPlaces(s: System, e: Event, serial: nat)
    ensures s.sched.armed <= Next(s, e).sched.armed
    ensures Places(Next(s, e), serial)
            == Places(s, serial) + if s.sched.armed <= serial < Next(s, e).sched.armed then 1 else 0
  {
    match e
    case ArmTimer(h, instant, now) =>
      if h in s.timers && h in s.owner {
        var s1 := DoCancel(s, h);
        var entry := Entry(Timer(s.sched.nextId, instant), s.owner[h], Arm(s.sched.armed, now));
        CancelPlaces(s, h, serial);
        CountInsert(s1.sched.list, entry, serial);
        CountConcat(s1.sched.displaced, Overwritten(s1.sched.list, entry.key), serial);
      }
    case CancelTimer(h) =>
      if h in s.timers && h in s.owner {
        CancelPlaces(s, h, serial);
      }
    case Fire(_) =>
      if s.sched.list != [] {
        CountConcat(s.queue, [s.sched.list[0]], serial);
      }
    case Receive(_) =>
      if s.queue != [] {
        CountConcat(s.received, [s.queue[0]], serial);
      }
    case DropQueue =>
      CountConcat(s.dropped, s.queue, serial);
  }

  lemma {:induction false} PlayPlaces(s: System, events: seq<Event>, serial: nat)
    ensures s.sched.armed <= Play(s, events).sched.armed
    ensures Places(Play(s, events), serial)
            == Places(s, serial) + if s.sched.armed <= serial < Play(s, events).sched.armed then 1 else 0
    decreases |events|
  {
    hide Places, Next;
    if events != [] {
      NextPlaces(s, events[0], serial);
      PlayPlaces(Next(s, events[0]), events[1..], serial);
    }
  }

  /** After any run every arm ever made is in exactly one place, and only once there: pending, in the queue, received,
      cancelled, displaced by a later arm whose identifier wrapped around to the same key, or dropped with the queue. */
  lemma {:induction false} EveryArmInOnePlace(s: System, events: seq<Event>, serial: nat)
    requires Initial(s)
    ensures Places(Play(s, events), serial) == if serial < Play(s, events).sched.armed then 1 else 0
  {
    PlayPlaces(s, events, serial);
  }

  // ---------- what is_scheduling tells ----------

  /** Identifiers are serials modulo 2^32, on entries and on timers. */
  ghost predicate Numbered(s: System) {
    && Sorted(s.sched.list) && s.timers.Keys == s.owner.Keys
    && s.sched.nextId == s.sched.armed % U32_SIZE && |s.armedBy| == s.sched.armed
    && (forall e :: e in s.sched.list + s.queue ==> e.arm.serial < s.sched.armed && e.key.id == e.arm.serial % U32_SIZE)
    && (forall h :: h in s.lastArm ==> h in s.timers && s.lastArm[h] < s.sched.armed && s.armedBy[s.lastArm[h]] == h)
    && (forall h :: h in s.timers ==> s.timers[h].id == Last(s, h) % U32_SIZE)
  }

  /** The serial of the latest arm; a timer that was never armed looks like the first arm of all. */
  function Last(s: System, h: Handle): nat {
    if h in s.lastArm then s.lastArm[h] else 0
  }

  lemma {:induction false} CancelNumbered(s: System, h: Handle)
    requires Numbered(s) && h in s.timers
    ensures Numbered(DoCancel(s, h))
    ensures forall e :: e in DoCancel(s, h).sched.list <==>
              e in s.sched.list && (s.timers[h].deadline.Infinity? || !(e.key == s.timers[h] && e.dst == s.owner[h]))
  {
    RemoveIsMapRemoval(s.sched.list, s.timers[h], s.owner[h]);
  }

  /** The pending timeouts after an arm: those that the cancellation leaves, and the new one. */
  lemma {:induction false} ArmList(s: System, h: Handle, instant: Instant, now: Ticks)
    requires Numbered(s) && h in s.timers
    ensures Sorted(DoArm(s, h, instant, now).sched.list)
    ensures var new_ := Entry(Timer(s.sched.nextId, instant), s.owner[h], Arm(s.sched.armed, now));
            forall e :: e in DoArm(s, h, instant, now).sched.list <==>
              e == new_ || (e in DoCancel(s, h).sched.list && e.key != new_.key)
  {
    hide Insert;
    hide RemoveOwned;
    CancelNumbered(s, h);
    InsertIsMapUpdate(DoCancel(s, h).sched.list,
                      Entry(Timer(s.sched.nextId, instant), s.owner[h], Arm(s.sched.armed, now)));
  }

  lemma NextIsModulo(armed: nat)
    ensures WrappingIncrement(armed % U32_SIZE) == (armed + 1) % U32_SIZE
  {
  }

  lemma {:induction false} ArmNumbered(s: System, h: Handle, instant: Instant, now: Ticks)
    requires Numbered(s) && h in s.timers
    ensures Numbered(DoArm(s, h, instant, now))
  {
    hide Insert;
    hide RemoveOwned;
    hide Removed;
    hide Overwritten;
    hide Sorted;
    CancelNumbered(s, h);
    ArmList(s, h, instant, now);
    var new_ := Entry(Timer(s.sched.nextId, instant), s.owner[h], Arm(s.sched.armed, now));
    var r := DoArm(s, h, instant, now);
    NextIsModulo(s.sched.armed);
    assert r.sched.nextId == r.sched.armed % U32_SIZE;
    hide WrappingIncrement;
    forall e | e in r.sched.list + r.queue ensures e.arm.serial < r.sched.armed && e.key.id == e.arm.serial % U32_SIZE {
      assert e == new_ || e in s.sched.list + s.queue;
    }
  }

  lemma {:induction false} NextNumbered(s: System, e: Event)
    requires Numbered(s)
    ensures Numbered(Next(s, e))
  {
    hide DoArm, DoCancel, KeyLess;
    match e
    case ArmTimer(h, instant, now) =>
      if h in s.timers {
        ArmNumbered(s, h, instant, now);
      }
    case CancelTimer(h) =>
      if h in s.timers {
        CancelNumbered(s, h);
      }
    case _ =>
      assert forall x :: x in Next(s, e).sched.list + Next(s, e).queue ==> x in s.sched.list + s.queue;
  }

  lemma {:induction false} PlayNumbered(s: System, events: seq<Event>)
    requires Numbered(s)
    ensures Numbered(Play(s, events)) && s.sched.armed <= Play(s, events).sched.armed
    decreases |events|
  {
    if events != [] {
      NextNumbered(s, events[0]);
      PlayNumbered(Next(s, events[0]), events[1..]);
    }
  }

  /** What `is_scheduling` really decides, after any run: the timeout in the queue matches the timer if and only if
      its arm and the latest arm of the timer are a multiple of 2^32 arms apart. A cancellation in between makes no
      difference. */
  lemma {:induction false} IsSchedulingExactly(s: System, events: seq<Event>, h: Handle, i: nat)
    requires Initial(s) && h in s.timers && i < |Play(s, events).queue|
    ensures var r := Play(s, events); var e := r.queue[i];
            && h in r.timers && h in r.owner
            && (IsScheduling(r.timers[h], e.key.id).1 <==> (e.arm.serial - Last(r, h)) % U32_SIZE == 0)
            && (r.sched.armed <= U32_SIZE ==> (IsScheduling(r.timers[h], e.key.id).1 <==> e.arm.serial == Last(r, h)))
            && IsScheduling(DoCancel(r, h).timers[h], e.key.id).1 == IsScheduling(r.timers[h], e.key.id).1
  {
    PlayNumbered(s, events);
    PlayKeepsTimers(s, events);
    MatchesExactly(Play(s, events), h, i);
  }

  lemma {:induction false} MatchesExactly(r: System, h: Handle, i: nat)
    requires Numbered(r) && h in r.timers && i < |r.queue|
    ensures var e := r.queue[i];
            && (IsScheduling(r.timers[h], e.key.id).1 <==> (e.arm.serial - Last(r, h)) % U32_SIZE == 0)
            && (r.sched.armed <= U32_SIZE ==> (IsScheduling(r.timers[h], e.key.id).1 <==> e.arm.serial == Last(r, h)))
            && IsScheduling(DoCancel(r, h).timers[h], e.key.id).1 == IsScheduling(r.timers[h], e.key.id).1
  {
    hide Sorted;
    hide RemoveOwned;
    hide Removed;
    assert r.queue[i] in r.sched.list + r.queue;
    SameModulo(r.queue[i].arm.serial, Last(r, h));
  }

  lemma SameModulo(a: nat, b: nat)
    ensures a % U32_SIZE == b % U32_SIZE <==> (a - b) % U32_SIZE == 0
  {
  }

  lemma {:induction false} PlayKeepsTimers(s: System, events: seq<Event>)
    ensures Play(s, events).timers.Keys == s.timers.Keys && Play(s, events).owner == s.owner
    decreases |events|
  {
    if events != [] {
      PlayKeepsTimers(Next(s, events[0]), events[1..]);
    }
  }

  // ---------- nothing is displaced before the identifiers wrap around ----------

  lemma {:induction false} NothingOverwritten(list: seq<Entry>, key: Timer)
    requires forall e :: e in list ==> e.key != key
    ensures Overwritten(list, key) == []
  {
    if list != [] {
      NothingOverwritten(list[1..], key);
    }
  }

  lemma {:induction false} NextNotDisplaced(s: System, e: Event)
    requires Numbered(s) && Next(s, e).sched.armed <= U32_SIZE
    ensures Next(s, e).sched.displaced == s.sched.displaced
  {
    if e.ArmTimer? && e.h in s.timers && e.h in s.owner {
      var s1 := DoCancel(s, e.h);
      CancelNumbered(s, e.h);
      SmallModulo(s.sched.armed);
      forall x | x in s1.sched.list ensures x.key != Timer(s.sched.nextId, e.instant) {
        assert x in s.sched.list + s.queue;
        SmallModulo(x.arm.serial);
      }
      NothingOverwritten(s1.sched.list, Timer(s.sched.nextId, e.instant));
    }
  }

  lemma {:induction false} PlayNotDisplaced(s: System, events: seq<Event>)
    requires Numbered(s) && Play(s, events).sched.armed <= U32_SIZE
    ensures Play(s, events).sched.displaced == s.sched.displaced
    decreases |events|
  {
    hide Next, Numbered;
    if events != [] {
      NextNumbered(s, events[0]);
      PlayNumbered(Next(s, events[0]), events[1..]);
      NextNotDisplaced(s, events[0]);
      PlayNotDisplaced(Next(s, events[0]), events[1..]);
    }
  }

  /** So with at most 2^32 arms every arm is exactly once pending, in the queue, received, cancelled or dropped. */
  lemma {:induction false} EveryArmInOneOfFive(s: System, events: seq<Event>, serial: nat)
    requires Initial(s) && Play(s, events).sched.armed <= U32_SIZE
    ensures var r := Play(s, events);
            && r.sched.displaced == []
            && Count(r.sched.list, serial) + Count(r.queue, serial) + Count(r.received, serial)
               + Count(r.sched.cancelled, serial) + Count(r.dropped, serial)
               == if serial < r.sched.armed then 1 else 0
  {
    EveryArmInOnePlace(s, events, serial);
    PlayNotDisplaced(s, events);
  }

  // ---------- pending entries and the timers that hold them ----------

  /** Fewer than 2^32 arms so far, every arm in exactly one place, and every pending entry with a finite deadline is
      the latest arm of the timer that armed it, which still holds its key: it can be cancelled, and each timer has
      one at most. */
  ghost predicate Held(s: System) {
    && Numbered(s) && s.sched.armed <= U32_SIZE
    && (forall serial: nat :: Places(s, serial) == if serial < s.sched.armed then 1 else 0)
    && (forall e :: e in s.sched.list && e.key.deadline.Finite? ==> HeldEntry(s, e))
  }

  predicate HeldEntry(s: System, e: Entry) {
    && e.arm.serial < |s.armedBy|
    && var h := s.armedBy[e.arm.serial];
       && h in s.lastArm && s.lastArm[h] == e.arm.serial
       && h in s.timers && s.timers[h] == e.key && h in s.owner && s.owner[h] == e.dst
  }

  lemma {:induction false} CountMember(list: seq<Entry>, e: Entry)
    requires e in list
    ensures Count(list, e.arm.serial) >= 1
  {
    if list[0] != e {
      CountMember(list[1..], e);
    }
  }

  lemma {:induction false} CancelHeldEntry(s: System, h: Handle, x: Entry)
    requires Held(s) && h in s.timers && x in DoCancel(s, h).sched.list && x.key.deadline.Finite?
    ensures HeldEntry(DoCancel(s, h), x) && s.armedBy[x.arm.serial] != h
  {
    CancelNumbered(s, h);
    assert HeldEntry(s, x);
  }

  lemma {:induction false} ArmHeldEntry(s: System, h: Handle, instant: Instant, now: Ticks, x: Entry)
    requires Held(s) && h in s.timers && x in DoArm(s, h, instant, now).sched.list && x.key.deadline.Finite?
    ensures HeldEntry(DoArm(s, h, instant, now), x)
  {
    ArmList(s, h, instant, now);
    if x != Entry(Timer(s.sched.nextId, instant), s.owner[h], Arm(s.sched.armed, now)) {
      CancelHeldEntry(s, h, x);
    }
  }

  lemma {:induction false} PendingOrQueued(s: System, x: Entry, v: Entry)
    requires Held(s) && x in s.sched.list && v in s.queue
    ensures x.key.id != v.key.id
  {
    hide Sorted, HeldEntry;
    assert v in s.sched.list + s.queue && x in s.sched.list + s.queue;
    CountMember(s.sched.list, x);
    CountMember(s.queue, v);
    assert Places(s, x.arm.serial) == 1;
  }

  /** A received timeout does not touch the timer of an entry that is still pending. */
  lemma {:induction false} ReceiveHeldEntry(s: System, tested: seq<Handle>, x: Entry)
    requires Held(s) && s.queue != [] && x in s.sched.list && x.key.deadline.Finite?
    ensures HeldEntry(Next(s, Receive(tested)), x)
  {
    PendingOrQueued(s, x, s.queue[0]);
    assert HeldEntry(s, x);
    var h := s.armedBy[x.arm.serial];
    assert TestAll(s.timers, tested, s.queue[0].key.id)[h] == s.timers[h];
  }

  lemma {:induction false} NextHeld(s: System, e: Event)
    requires Held(s) && Next(s, e).sched.armed <= U32_SIZE
    ensures Held(Next(s, e))
  {
    var r := Next(s, e);
    NextNumbered(s, e);
    forall serial: nat ensures Places(r, serial) == if serial < r.sched.armed then 1 else 0 {
      NextPlaces(s, e, serial);
    }
    forall x | x in r.sched.list && x.key.deadline.Finite? ensures HeldEntry(r, x) {
      match e
      case ArmTimer(h, instant, now) =>
        if h in s.timers {
          ArmHeldEntry(s, h, instant, now, x);
        }
      case CancelTimer(h) =>
        if h in s.timers {
          CancelHeldEntry(s, h, x);
        }
      case Fire(_) =>
        assert HeldEntry(s, x);
      case Receive(tested) =>
        if s.queue != [] {
          ReceiveHeldEntry(s, tested, x);
        }
      case DropQueue =>
        assert HeldEntry(s, x);
    }
  }

  lemma {:induction false} PlayHeld(s: System, events: seq<Event>)
    requires Held(s) && Play(s, events).sched.armed <= U32_SIZE
    ensures Held(Play(s, events))
    decreases |events|
  {
    if events != [] {
      PlayPlaces(Next(s, events[0]), events[1..], 0);
      NextHeld(s, events[0]);
      PlayHeld(Next(s, events[0]), events[1..]);
    }
  }

  /** Reachable states with at most 2^32 arms: nothing was displaced, and every finite pending entry is held. */
  lemma {:induction false} ReachableIsHeld(s: System, events: seq<Event>)
    requires Initial(s) && Play(s, events).sched.armed <= U32_SIZE
    ensures Held(Play(s, events)) && Play(s, events).sched.displaced == []
  {
    assert Held(s);
    PlayHeld(s, events);
    PlayNotDisplaced(s, events);
  }

  /** A timer that is held has one finite entry at most. */
  lemma {:induction false} OneEntryPerTimer(s: System, a: Entry, b: Entry)
    requires Held(s) && a in s.sched.list && b in s.sched.list
    requires a.key.deadline.Finite? && b.key.deadline.Finite? && s.armedBy[a.arm.serial] == s.armedBy[b.arm.serial]
    ensures a == b
  {
    assert HeldEntry(s, a) && HeldEntry(s, b);
    SameKeySameEntry(s.sched.list, a, b);
  }

  lemma {:induction false} SameKeySameEntry(list: seq<Entry>, a: Entry, b: Entry)
    requires Sorted(list) && a in list && b in list && a.key == b.key
    ensures a == b
  {
    var i :| 0 <= i < |list| && list[i] == a;
    var j :| 0 <= j < |list| && list[j] == b;
  }

  // ---------- cancelling ----------

  predicate NeverArms(events: seq<Event>, h: Handle) {
    forall i :: 0 <= i < |events| ==> !(events[i].ArmTimer? && events[i].h == h)
  }

  /** Nothing pending can fire for the latest arm of the timer. */
  ghost predicate Silenced(s: System, h: Handle) {
    h in s.lastArm && forall e :: e in s.sched.list && e.arm.serial == s.lastArm[h] ==> e.key.deadline.Infinity?
  }

  lemma {:induction false} CancelSilences(s: System, h: Handle)
    requires Held(s) && h in s.lastArm
    ensures Silenced(DoCancel(s, h), h) && Held(DoCancel(s, h))
  {
    NextHeld(s, CancelTimer(h));
    assert Next(s, CancelTimer(h)) == DoCancel(s, h);
    CancelNumbered(s, h);
    forall e | e in DoCancel(s, h).sched.list && e.arm.serial == s.lastArm[h] ensures e.key.deadline.Infinity? {
      assert e.key.deadline.Finite? ==> HeldEntry(s, e);
    }
  }

  lemma {:induction false} NextSilenced(s: System, e: Event, h: Handle)
    requires Held(s) && Silenced(s, h) && !(e.ArmTimer? && e.h == h) && Next(s, e).sched.armed <= U32_SIZE
    ensures Silenced(Next(s, e), h) && Next(s, e).lastArm[h] == s.lastArm[h]
    ensures forall v :: v in Next(s, e).queue && v.arm.serial == s.lastArm[h] ==> v in s.queue
  {
    match e
    case ArmTimer(h1, instant, now) =>
      if h1 in s.timers {
        CancelNumbered(s, h1);
        ArmList(s, h1, instant, now);
      }
    case CancelTimer(h1) =>
      if h1 in s.timers {
        CancelNumbered(s, h1);
      }
    case _ =>
  }

  lemma {:induction false} PlaySilenced(s: System, events: seq<Event>, h: Handle)
    requires Held(s) && Silenced(s, h) && NeverArms(events, h) && Play(s, events).sched.armed <= U32_SIZE
    ensures var r := Play(s, events);
            && h in r.lastArm && r.lastArm[h] == s.lastArm[h] && Held(r)
            && forall v :: v in r.queue && v.arm.serial == s.lastArm[h] ==> v in s.queue
    decreases |events|
  {
    if events != [] {
      PlayPlaces(Next(s, events[0]), events[1..], 0);
      NextHeld(s, events[0]);
      NextSilenced(s, events[0], h);
      PlaySilenced(Next(s, events[0]), events[1..], h);
    }
  }

  lemma {:induction false} MatchesLast(s: System, h: Handle, v: Entry)
    requires Held(s) && h in s.lastArm && v in s.queue
    ensures IsScheduling(s.timers[h], v.key.id).1 <==> v.arm.serial == s.lastArm[h]
  {
    assert v in s.sched.list + s.queue;
  }

  /** When a cancellation keeps its word, after any run with fewer than 2^32 arms in all: until the timer is armed
      again, a queued timeout matches it if and only if it is the timeout of its latest arm and was already in the
      queue when the timer was cancelled. */
  lemma {:induction false} CancelExactly(s: System, before: seq<Event>, h: Handle, after: seq<Event>, v: Entry)
    requires Initial(s) && h in Play(s, before).lastArm && h in Play(s, before).timers && h in Play(s, before).owner
    requires NeverArms(after, h) && Play(DoCancel(Play(s, before), h), after).sched.armed <= U32_SIZE
    requires v in Play(DoCancel(Play(s, before), h), after).queue
    ensures var c := DoCancel(Play(s, before), h); var r := Play(c, after);
            h in r.timers && (IsScheduling(r.timers[h], v.key.id).1 <==> v.arm.serial == c.lastArm[h] && v in c.queue)
  {
    var b := Play(s, before);
    var c := DoCancel(b, h);
    PlayPlaces(c, after, 0);
    ReachableIsHeld(s, before);
    CancelSilences(b, h);
    PlaySilenced(c, after, h);
    MatchesLast(Play(c, after), h, v);
  }

  /** So it does not always: arm, fire, cancel, and the timeout in the queue still matches the cancelled timer. It
      also matches every timer that was never armed, when it is the first timeout of all. */
  lemma {:induction false} CancelledTimeoutStillMatches(s: System, h: Handle, deadline: Ticks, now: Ticks)
    requires Initial(s) && h in s.timers
    ensures var c := Play(s, [ArmTimer(h, Finite(deadline), now), Fire(true), CancelTimer(h)]);
            && c.sched.list == [] && |c.queue| == 1 && c.queue[0].arm.serial == 0
            && forall h1 :: h1 in s.timers ==> h1 in c.timers && IsScheduling(c.timers[h1], c.queue[0].key.id).1
  {
    var arm, fire, cancel := ArmTimer(h, Finite(deadline), now), Fire(true), CancelTimer(h);
    var s1 := Next(s, arm);
    assert s1.sched.list == [Entry(Timer(0, Finite(deadline)), s.owner[h], Arm(0, now))];
    assert [arm, fire, cancel][1..] == [fire, cancel] && [fire, cancel][1..] == [cancel] && [cancel][1..] == [];
    assert Play(s, [arm, fire, cancel]) == Play(s1, [fire, cancel]) == Play(Next(s1, fire), [cancel])
           == Play(Next(Next(s1, fire), cancel), []);
  }

  // ---------- arming at infinity ----------

  lemma {:induction false} CancelKeepsInfinite(s: System, h: Handle, e: Entry)
    requires Numbered(s) && h in s.timers && e in s.sched.list && e.key.deadline.Infinity?
    ensures e in DoCancel(s, h).sched.list
  {
    CancelNumbered(s, h);
  }

  /** The event arms a timer at infinity, with the identifier of this entry. */
  predicate Displaces(s: System, event: Event, e: Entry) {
    && event.ArmTimer? && event.h in s.timers && event.h in s.owner
    && Timer(s.sched.nextId, event.instant) == e.key
  }

  predicate DisplacedIn(s: System, events: seq<Event>, e: Entry)
    decreases |events|
  {
    events != [] && (Displaces(s, events[0], e) || DisplacedIn(Next(s, events[0]), events[1..], e))
  }

  lemma {:induction false} NextInfinite(s: System, event: Event, e: Entry)
    requires Numbered(s) && e in s.sched.list && e.key.deadline.Infinity?
    ensures e in Next(s, event).sched.list <==> !Displaces(s, event, e)
  {
    assert e in s.sched.list + s.queue;
    match event
    case ArmTimer(h, instant, now) =>
      if h in s.timers {
        hide DoArm;
        CancelKeepsInfinite(s, h, e);
        ArmList(s, h, instant, now);
      }
    case CancelTimer(h) =>
      if h in s.timers {
        CancelKeepsInfinite(s, h, e);
      }
    case _ =>
  }

  lemma {:induction false} NextGone(s: System, event: Event, e: Entry)
    requires Numbered(s) && e !in s.sched.list && e.arm.serial < s.sched.armed
    ensures e !in Next(s, event).sched.list && s.sched.armed <= Next(s, event).sched.armed
  {
    match event
    case ArmTimer(h, instant, now) =>
      if h in s.timers {
        CancelNumbered(s, h);
        ArmList(s, h, instant, now);
      }
    case CancelTimer(h) =>
      if h in s.timers {
        CancelNumbered(s, h);
      }
    case _ =>
  }

  lemma {:induction false} GoneStaysGone(s: System, events: seq<Event>, e: Entry)
    requires Numbered(s) && e !in s.sched.list && e.arm.serial < s.sched.armed
    ensures e !in Play(s, events).sched.list
    decreases |events|
  {
    if events != [] {
      NextNumbered(s, events[0]);
      NextGone(s, events[0], e);
      GoneStaysGone(Next(s, events[0]), events[1..], e);
    }
  }

  /** No cancellation and no new arm of its own timer takes an entry armed at infinity out of the map, and it never
      fires. It leaves the map if and only if some timer is armed at infinity when the identifiers have come round
      to its own. */
  lemma {:induction false} InfiniteEntryStaysExactly(s: System, events: seq<Event>, e: Entry)
    requires Numbered(s) && e in s.sched.list && e.key.deadline.Infinity?
    ensures e in Play(s, events).sched.list <==> !DisplacedIn(s, events, e)
    decreases |events|
  {
    if events != [] {
      assert e in s.sched.list + s.queue;
      NextNumbered(s, events[0]);
      NextInfinite(s, events[0], e);
      PlayNumbered(s, [events[0]]);
      if Displaces(s, events[0], e) {
        GoneStaysGone(Next(s, events[0]), events[1..], e);
      } else {
        InfiniteEntryStaysExactly(Next(s, events[0]), events[1..], e);
      }
    }
  }

  lemma {:induction false} NotDisplaced(s: System, event: Event, e: Entry)
    requires Numbered(s) && Next(s, event).sched.armed <= U32_SIZE
    requires e.arm.serial < s.sched.armed && e.key.id == e.arm.serial % U32_SIZE
    ensures !Displaces(s, event, e)
  {
    if Displaces(s, event, e) {
      assert s.sched.armed < U32_SIZE;
      SmallModulo(e.arm.serial);
      SmallModulo(s.sched.armed);
      assert false;
    }
  }

  lemma SmallModulo(n: nat)
    requires n < U32_SIZE
    ensures n % U32_SIZE == n
  {
  }

  lemma {:induction false} NeverDisplaced(s: System, events: seq<Event>, e: Entry)
    requires Numbered(s) && Play(s, events).sched.armed <= U32_SIZE
    requires e.arm.serial < s.sched.armed && e.key.id == e.arm.serial % U32_SIZE
    ensures !DisplacedIn(s, events, e)
    decreases |events|
  {
    if events != [] {
      hide Next, Displaces, Numbered;
      var s1 := Next(s, events[0]);
      NextNumbered(s, events[0]);
      NextPlaces(s, events[0], 0);
      PlayNumbered(s1, events[1..]);
      NotDisplaced(s, events[0], e);
      NeverDisplaced(s1, events[1..], e);
    }
  }

  /** So with at most 2^32 arms it stays for ever. */
  lemma {:induction false} InfiniteEntryStays(s: System, events: seq<Event>, e: Entry)
    requires Numbered(s) && Play(s, events).sched.armed <= U32_SIZE
    requires e in s.sched.list && e.key.deadline.Infinity?
    ensures e in Play(s, events).sched.list
  {
    assert e in s.sched.list + s.queue;
    NeverDisplaced(s, events, e);
    InfiniteEntryStaysExactly(s, events, e);
  }
}
