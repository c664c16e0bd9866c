/** The simulator under behaviours that only record: a run has a closed form, the pending timeouts due before
    the target in key order, each stamped with the later of its deadline and the start. */
module Recorders {
  import opened Instants
  import opened Timers
  import opened Engines
  import opened Simulation

  ghost predicate OnlyRecords(p: Program) {
    forall b, c, msg, replies :: p.next(b, c, msg, replies).None?
  }

  function StampOf(e: Entry, start: Ticks): Ticks
    requires e.key.deadline.Finite?
  {
    if e.key.deadline.ticks < start then start else e.key.deadline.ticks
  }

  /** The entries due strictly before the target, in key order, and the others. */
  function DueBefore(list: seq<Entry>, target: Instant): (r: seq<Entry>)
    ensures AllFinite(r)
  {
    if list == [] || !Less(list[0].key.deadline, target) then [] else [list[0]] + DueBefore(list[1..], target)
  }

  function DueLater(list: seq<Entry>, target: Instant): seq<Entry> {
    if list == [] || !Less(list[0].key.deadline, target) then list else DueLater(list[1..], target)
  }

  predicate AllFinite(entries: seq<Entry>) {
    forall i :: 0 <= i < |entries| ==> entries[i].key.deadline.Finite?
  }

  /** The dispatches of these timeouts. */
  function Stamped(entries: seq<Entry>, start: Ticks, actors: set<ActorId>): (r: seq<Dispatched>)
    requires AllFinite(entries)
  {
    if entries == [] then []
    else
      var e := entries[0];
      [Dispatched(StampOf(e, start), TimeoutOf(e), if e.dst in actors then ByBehavior else NoActor)]
      + Stamped(entries[1..], start, actors)
  }

  function RecordOne(p: Program, actors: map<ActorId, Behavior>, e: Entry, start: Ticks): (r: map<ActorId, Behavior>)
    requires e.key.deadline.Finite?
    ensures r.Keys == actors.Keys
  {
    if e.dst in actors
    then actors[e.dst := p.after(actors[e.dst], Context(e.dst, StampOf(e, start)), Timeout(e.key.id), [])]
    else actors
  }

  /** The behaviours after recording these timeouts one after the other. */
  function Recorded(p: Program, actors: map<ActorId, Behavior>, entries: seq<Entry>, start: Ticks)
    : (r: map<ActorId, Behavior>)
    requires AllFinite(entries)
    ensures r.Keys == actors.Keys
    decreases |entries|
  {
    if entries == [] then actors
    else Recorded(p, RecordOne(p, actors, entries[0], start), entries[1..], start)
  }

  /** The closed form of a run. */
  function ClosedForm(p: Program, target: Instant, d: Engine): Engine
    requires target.Finite?
  {
    var due := DueBefore(d.sched.list, target);
    d.(now := target.ticks,
       sched := d.sched.(list := DueLater(d.sched.list, target)),
       reactives := Recorded(p, d.reactives, due, d.now),
       log := d.log + Stamped(due, d.now, d.reactives.Keys))
  }

  /** These are stamped the same from either start. */
  predicate StampedAlike(entries: seq<Entry>, start: Ticks, later: Ticks)
    requires AllFinite(entries)
  {
    forall i :: 0 <= i < |entries| ==> StampOf(entries[i], start) == StampOf(entries[i], later)
  }

  lemma {:induction false} RecordedFromLater(p: Program, actors: map<ActorId, Behavior>, entries: seq<Entry>,
                                             start: Ticks, later: Ticks)
    requires AllFinite(entries) && StampedAlike(entries, start, later)
    ensures Recorded(p, actors, entries, start) == Recorded(p, actors, entries, later)
    ensures Stamped(entries, start, actors.Keys) == Stamped(entries, later, actors.Keys)
    decreases |entries|
  {
    if entries != [] {
      RecordedFromLater(p, RecordOne(p, actors, entries[0], start), entries[1..], start, later);
    }
  }

  lemma {:induction false} SortedWithoutSecond(list: seq<Entry>, e: Entry)
    requires list != [] && Sorted([e] + list)
    ensures Sorted([e] + list[1..])
  {
    var shorter, whole := [e] + list[1..], [e] + list;
    forall i, j | 0 <= i < j < |shorter| ensures KeyLess(shorter[i].key, shorter[j].key) {
      assert shorter[j] == whole[j + 1] && shorter[i] == whole[if i == 0 then 0 else i + 1];
    }
  }

  /** Later entries are stamped the same when the clock has moved to the stamp of the first one. */
  lemma {:induction false} LaterStampedAlike(list: seq<Entry>, target: Instant, e: Entry, start: Ticks)
    requires Sorted([e] + list) && e.key.deadline.Finite?
    ensures StampedAlike(DueBefore(list, target), start, StampOf(e, start))
    decreases |list|
  {
    if list != [] && Less(list[0].key.deadline, target) {
      var whole := [e] + list;
      assert whole[0] == e && whole[1] == list[0];
      SortedWithoutSecond(list, e);
      LaterStampedAlike(list[1..], target, e, start);
    }
  }

  /** The effect of the first timeout. */
  function FirstRecorded(p: Program, d: Engine): Engine
    requires d.sched.list != [] && d.sched.list[0].key.deadline.Finite?
  {
    var e := d.sched.list[0];
    d.(now := StampOf(e, d.now),
       sched := d.sched.(list := d.sched.list[1..]),
       reactives := RecordOne(p, d.reactives, e, d.now),
       log := d.log + Stamped([e], d.now, d.reactives.Keys))
  }

  /** It leaves the closed form of the rest. */
  lemma {:induction false} ClosedFormAfterFirst(p: Program, target: Instant, d: Engine)
    requires target.Finite? && d.sched.list != [] && Sorted(d.sched.list)
    requires Less(d.sched.list[0].key.deadline, target)
    ensures ClosedForm(p, target, FirstRecorded(p, d)) == ClosedForm(p, target, d)
  {
    var list, start, actors := d.sched.list, d.now, d.reactives.Keys;
    var e, rest := list[0], DueBefore(list[1..], target);
    var at := StampOf(e, start);
    assert list == [e] + list[1..];
    LaterStampedAlike(list[1..], target, e, start);
    RecordedFromLater(p, RecordOne(p, d.reactives, e, start), rest, start, at);
    var due := [e] + rest;
    assert due[1..] == rest && [e][1..] == [];
    assert RecordOne(p, d.reactives, e, start).Keys == actors;
    assert Stamped(rest, start, actors) == Stamped(rest, at, actors);
    assert Stamped([e], start, actors)
           == [Dispatched(at, TimeoutOf(e), if e.dst in actors then ByBehavior else NoActor)];
    assert Stamped(due, start, actors) == Stamped([e], start, actors) + Stamped(rest, at, actors);
    assert d.log + Stamped(due, start, actors) == d.log + Stamped([e], start, actors) + Stamped(rest, at, actors);
  }

  lemma {:induction false} FirstIsProcessed(p: Program, d: Engine, d1: Engine)
    requires OnlyRecords(p) && d.sched.list != []
    requires d.sched.list[0].key.deadline.Finite? && d.sched.list[0].dst != d.dispId
    requires d1 == d.(now := StampOf(d.sched.list[0], d.now), queue := [TimeoutOf(d.sched.list[0])],
                      sched := d.sched.(list := d.sched.list[1..]))
    requires d.queue == []
    ensures Process(p, d1) == Going(FirstRecorded(p, d))
  {
    var e := d.sched.list[0];
    assert [e][1..] == [] && d1.queue[1..] == d.queue;
    assert Stamped([e], d.now, d.reactives.Keys) == [Dispatched(d1.now, TimeoutOf(e), FateOf(d1, TimeoutOf(e)))];
  }

  /** It takes at most three ticks: advance to the deadline, queue the timeout, process it. */
  lemma {:induction false} FirstIsRecorded(p: Program, target: Instant, d: Engine, out: Halted<()>)
    requires OnlyRecords(p) && d.queue == [] && d.capacity > 0 && d.sched.list != []
    requires Less(Finite(d.now), target) && Less(d.sched.list[0].key.deadline, target)
    requires d.sched.list[0].dst != d.dispId
    ensures Ends(p, NEVER_BREAK, target, d, out) <==> Ends(p, NEVER_BREAK, target, FirstRecorded(p, d), out)
  {
    var e := d.sched.list[0];
    var d0 := d.(now := StampOf(e, d.now));
    assert d0 == d || Tick(p, NEVER_BREAK, target, d) == Again(d0, NEVER_BREAK);
    EndsByTick(p, NEVER_BREAK, target, d, out);
    var d1 := d0.(queue := [TimeoutOf(e)], sched := d0.sched.(list := d.sched.list[1..]));
    assert Tick(p, NEVER_BREAK, target, d0) == Again(d1, NEVER_BREAK);
    EndsByTick(p, NEVER_BREAK, target, d0, out);
    FirstIsProcessed(p, d, d1);
    assert Tick(p, NEVER_BREAK, target, d1) == Again(FirstRecorded(p, d), NEVER_BREAK);
    EndsByTick(p, NEVER_BREAK, target, d1, out);
  }

  /** From before a finite target, with an empty queue, the run ends in its closed form. */
  lemma {:induction false} RecordersRun(p: Program, target: Instant, d: Engine)
    requires OnlyRecords(p) && target.Finite? && Less(Finite(d.now), target)
    requires d.queue == [] && d.capacity > 0 && Sorted(d.sched.list)
    requires forall i :: 0 <= i < |d.sched.list| ==> d.sched.list[i].dst != d.dispId
    ensures Ends(p, NEVER_BREAK, target, d, Halted(ClosedForm(p, target, d), Reached, NEVER_BREAK))
    decreases |d.sched.list|
  {
    var list, out := d.sched.list, Halted(ClosedForm(p, target, d), Reached, NEVER_BREAK);
    if list != [] && Less(list[0].key.deadline, target) {
      FirstIsRecorded(p, target, d, out);
      ClosedFormAfterFirst(p, target, d);
      RecordersRun(p, target, FirstRecorded(p, d));
    } else {
      var d1 := d.(now := target.ticks);
      assert Tick(p, NEVER_BREAK, target, d) == Again(d1, NEVER_BREAK);
      EndsByTick(p, NEVER_BREAK, target, d, out);
      assert d.log + [] == d.log;
      assert out == Halted(d1, Reached, NEVER_BREAK);
      EndsByTick(p, NEVER_BREAK, target, d1, out);
    }
  }

  lemma {:induction false} DueParts(list: seq<Entry>, target: Instant)
    ensures DueBefore(list, target) + DueLater(list, target) == list
    ensures forall e :: e in DueBefore(list, target) ==> Less(e.key.deadline, target)
  {
    if list != [] && Less(list[0].key.deadline, target) {
      DueParts(list[1..], target);
      var first, due, later := [list[0]], DueBefore(list[1..], target), DueLater(list[1..], target);
      assert first + due + later == first + (due + later);
    }
  }

  lemma {:induction false} FirstIsLeast(list: seq<Entry>, target: Instant)
    requires Sorted(list) && list != [] && !Less(list[0].key.deadline, target)
    ensures forall e :: e in list ==> !Less(e.key.deadline, target)
  {
    forall i | 0 <= i < |list| ensures !Less(list[i].key.deadline, target) {
      assert i > 0 ==> KeyLess(list[0].key, list[i].key);
    }
  }

  lemma {:induction false} LaterIsNotDue(list: seq<Entry>, target: Instant)
    requires Sorted(list)
    ensures forall e :: e in DueLater(list, target) ==> !Less(e.key.deadline, target)
  {
    if list != [] {
      if Less(list[0].key.deadline, target) {
        LaterIsNotDue(list[1..], target);
      } else {
        FirstIsLeast(list, target);
      }
    }
  }

  /** In the closed form exactly the entries due before the target have fired; entries due at the target stay
      pending. */
  lemma {:induction false} ClosedFormIsExact(list: seq<Entry>, target: Instant)
    requires Sorted(list)
    ensures DueBefore(list, target) + DueLater(list, target) == list
    ensures forall e :: e in DueBefore(list, target) ==> Less(e.key.deadline, target)
    ensures forall e :: e in DueLater(list, target) ==> !Less(e.key.deadline, target)
  {
    DueParts(list, target);
    LaterIsNotDue(list, target);
  }
}
