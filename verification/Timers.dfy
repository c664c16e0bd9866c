/** The timeout scheduler: an ordered map from timers to the actors that own them. */
module Timers {
  import opened Instants

  type ActorId = nat

  /** The handle an actor keeps, and also the key of the ordered map. */
  datatype Timer = Timer(id: U32, deadline: Instant)

  /** History of one call that armed a timer: its number among all of them, and its instant. */
  datatype Arm = Arm(serial: nat, at: Ticks)

  /** One mapping of the ordered map: `key` to `dst`. The field `arm` is history. */
  datatype Entry = Entry(key: Timer, dst: ActorId, arm: Arm)

  /** The ordered map as the sequence of its mappings in key order. The other fields are history: how many
      identifiers were generated, and which mappings a cancellation took out or a later one with the same key
      displaced. */
  datatype Scheduler = Scheduler(
    nextId: U32,
    list: seq<Entry>,
    armed: nat,
    cancelled: seq<Entry>,
    displaced: seq<Entry>)

  const NEW_SCHEDULER := Scheduler(0, [], 0, [], [])

  const NEW_TIMER := Timer(0, Infinity)

  predicate KeyLess(a: Timer, b: Timer) {
    Less(a.deadline, b.deadline) || (a.deadline == b.deadline && a.id < b.id)
  }

  /** Keys are totally ordered, whatever infinities occur: an ordered map can be keyed by them. */
  lemma KeysTotallyOrdered(a: Timer, b: Timer, c: Timer)
    ensures !KeyLess(a, a)
    ensures KeyLess(a, b) && KeyLess(b, c) ==> KeyLess(a, c)
    ensures KeyLess(a, b) || a == b || KeyLess(b, a)
    ensures KeyLess(a, b) ==> !KeyLess(b, a)
    ensures Less(a.deadline, b.deadline) ==> KeyLess(a, b)
    ensures a.deadline == b.deadline ==> (KeyLess(a, b) <==> a.id < b.id)
  {
  }

  ghost predicate Sorted(list: seq<Entry>) {
    forall i, j :: 0 <= i < j < |list| ==> KeyLess(list[i].key, list[j].key)
  }

  /** `BTreeMap::insert`: an equal key is replaced. */
  function Insert(list: seq<Entry>, e: Entry): seq<Entry> {
    if list == [] then [e]
    else if list[0].key == e.key then [e] + list[1..]
    else if KeyLess(e.key, list[0].key) then [e] + list
    else [list[0]] + Insert(list[1..], e)
  }

  /** Removal of the mapping of `key` if it belongs to `dst`. */
  function RemoveOwned(list: seq<Entry>, key: Timer, dst: ActorId): seq<Entry> {
    if list == [] then []
    else if list[0].key == key then (if list[0].dst == dst then list[1..] else list)
    else [list[0]] + RemoveOwned(list[1..], key, dst)
  }

  /** The mapping that a removal takes out, if any. */
  function Removed(list: seq<Entry>, key: Timer, dst: ActorId): seq<Entry> {
    if list == [] then []
    else if list[0].key == key then (if list[0].dst == dst then [list[0]] else [])
    else Removed(list[1..], key, dst)
  }

  /** The mapping that an insertion overwrites, if any. */
  function Overwritten(list: seq<Entry>, key: Timer): seq<Entry> {
    if list == [] then []
    else if list[0].key == key then [list[0]]
    else if KeyLess(key, list[0].key) then []
    else Overwritten(list[1..], key)
  }

  function Unschedule(s: Scheduler, timer: Timer, dst: ActorId): (Scheduler, Timer) {
    if timer.deadline.Infinity? then (s, timer)
    else
      (s.(list := RemoveOwned(s.list, timer, dst), cancelled := s.cancelled + Removed(s.list, timer, dst)),
       timer.(deadline := Infinity))
  }

  function ScheduleUntil(s: Scheduler, timer: Timer, instant: Instant, dst: ActorId, now: Ticks): (Scheduler, Timer) {
    var s1 := Unschedule(s, timer, dst).0;
    var key := Timer(s1.nextId, instant);
    (s1.(nextId := WrappingIncrement(s1.nextId), list := Insert(s1.list, Entry(key, dst, Arm(s1.armed, now))),
         armed := s1.armed + 1, displaced := s1.displaced + Overwritten(s1.list, key)), key)
  }

  /** `Timer::is_scheduling` on a timeout notification: only the identifiers are compared. */
  function IsScheduling(timer: Timer, id: U32): (Timer, bool) {
    if id == timer.id then (timer.(deadline := Infinity), true) else (timer, false)
  }

  /** A timeout that matches leaves the timer at infinity, so that it cannot be cancelled any more; one that does
      not match leaves it alone. */
  lemma MatchResetsTimer(timer: Timer, id: U32)
    ensures var (t, matches) := IsScheduling(timer, id);
            && (matches <==> id == timer.id)
            && t == if matches then Timer(timer.id, Infinity) else timer
  {
  }

  lemma {:induction false} SortedTail(e: Entry, list: seq<Entry>)
    requires Sorted([e] + list)
    ensures Sorted(list) && forall x :: x in list ==> KeyLess(e.key, x.key)
  {
    hide KeyLess;
    var r := [e] + list;
    forall i | 0 <= i < |list| ensures r[i + 1] == list[i] && KeyLess(e.key, list[i].key) {
      assert KeyLess(r[0].key, r[i + 1].key);
    }
    forall i, j | 0 <= i < j < |list| ensures KeyLess(list[i].key, list[j].key) {
      assert KeyLess(r[i + 1].key, r[j + 1].key);
    }
  }

  lemma {:induction false} SortedCons(e: Entry, list: seq<Entry>)
    requires Sorted(list) && forall x :: x in list ==> KeyLess(e.key, x.key)
    ensures Sorted([e] + list)
  {
    hide KeyLess;
    var r := [e] + list;
    forall i, j | 0 <= i < j < |r| ensures KeyLess(r[i].key, r[j].key) {
      assert r[j] == list[j - 1];
      assert r[i] == if i == 0 then e else list[i - 1];
    }
  }

  /** Insertion keeps the strict order and is the map update. */
  lemma {:induction false} InsertIsMapUpdate(list: seq<Entry>, e: Entry)
    requires Sorted(list)
    ensures Sorted(Insert(list, e))
    ensures forall x :: x in Insert(list, e) <==> x == e || (x in list && x.key != e.key)
  {
    hide Sorted;
    if list == [] {
      SortedCons(e, list);
      assert [e] + list == [e];
    } else {
      assert list == [list[0]] + list[1..];
      SortedTail(list[0], list[1..]);
      if list[0].key == e.key {
        SortedCons(e, list[1..]);
      } else if KeyLess(e.key, list[0].key) {
        SortedCons(e, list);
      } else {
        InsertIsMapUpdate(list[1..], e);
        SortedCons(list[0], Insert(list[1..], e));
      }
    }
  }

  /** Removal keeps the strict order and takes out the mapping of that key and owner, and nothing else. */
  lemma {:induction false} RemoveIsMapRemoval(list: seq<Entry>, key: Timer, dst: ActorId)
    requires Sorted(list)
    ensures Sorted(RemoveOwned(list, key, dst))
    ensures forall x :: x in RemoveOwned(list, key, dst) <==> x in list && !(x.key == key && x.dst == dst)
  {
    hide Sorted;
    if list != [] {
      assert list == [list[0]] + list[1..];
      SortedTail(list[0], list[1..]);
      RemoveIsMapRemoval(list[1..], key, dst);
      SortedCons(list[0], RemoveOwned(list[1..], key, dst));
    }
  }

  /** Taking out the first mapping and storing it back changes nothing. */
  lemma {:induction false} PutBackFirst(list: seq<Entry>)
    requires list != [] && Sorted(list)
    ensures Insert(list[1..], list[0]) == list
    ensures RemoveOwned(list, list[0].key, list[0].dst) == list[1..]
  {
    assert list == [list[0]] + list[1..];
  }
}
