/** Timeouts in the order of their deadlines, and with equal deadlines in the order in which they were armed. */
module Precedence {
  import opened Instants
  import opened Timers
  import opened Engines
  import opened Ledger
  import opened Ordering
  import opened Owners
  import Firing
  import TimerProtocol

  /** The earlier deadline, or the same one and the earlier arm. */
  predicate ComesFirst(x: Entry, y: Entry) {
    Less(x.key.deadline, y.key.deadline) || (x.key.deadline == y.key.deadline && x.arm.serial < y.arm.serial)
  }

  /** The pending timeouts stand in that order, as long as the identifiers have not wrapped around. */
  lemma {:induction false} PendingInOrder(s: Scheduler, i: nat, j: nat)
    requires Numbered(s) && s.armed <= U32_SIZE && i < j < |s.list|
    ensures ComesFirst(s.list[i], s.list[j]) && !ComesFirst(s.list[j], s.list[i])
  {
    var x, y := s.list[i], s.list[j];
    assert x in s.list && y in s.list && KeyLess(x.key, y.key);
    TimerProtocol.SmallModulo(x.arm.serial);
    TimerProtocol.SmallModulo(y.arm.serial);
  }

  /** So they do in every state that a new dispatcher can reach with at most 2^32 arms: deadlines do not decrease,
      and of equal deadlines the one armed first comes first. */
  lemma {:induction false} ReachableInOrder(p: Program, first: Engine, acts: seq<Act>, i: nat, j: nat)
    requires Built(first) && PerformAll(p, first, acts).Some?
    requires var r := PerformAll(p, first, acts).value; r.sched.armed <= U32_SIZE && i < j < |r.sched.list|
    ensures var list := PerformAll(p, first, acts).value.sched.list;
            && !Less(list[j].key.deadline, list[i].key.deadline)
            && (list[i].key.deadline == list[j].key.deadline ==> list[i].arm.serial < list[j].arm.serial)
  {
    PerformAllProper(p, first, acts);
    PendingInOrder(PerformAll(p, first, acts).value.sched, i, j);
  }

  // ---------- the order in which they are queued ----------

  /** The i-th message ever queued is the timeout of this arm. */
  predicate FiredAt(d: Engine, i: nat, e: Entry) {
    i < |Queued(d)| && Queued(d)[i].origin == Fired(e)
  }

  /** As long as x is pending, y has not fired, and if both have, x came first. */
  ghost predicate InTurn(d: Engine, x: Entry, y: Entry) {
    && x.arm.serial < d.sched.armed
    && (x in d.sched.list ==> forall j: nat :: !FiredAt(d, j, y))
    && (forall i: nat, j: nat :: FiredAt(d, i, x) && FiredAt(d, j, y) ==> i < j)
  }

  /** No timeout was queued, and those that were stay where they were or are gone. */
  ghost predicate SamePositions(d: Engine, r: Engine) {
    forall i: nat :: i < |Queued(r)| && Queued(r)[i].origin.Fired? ==> i < |Queued(d)| && Queued(d)[i] == Queued(r)[i]
  }

  /** Pending timeouts were pending before, or are of new arms. */
  ghost predicate ListFrom(s: Scheduler, r: Scheduler) {
    s.armed <= r.armed && forall e :: e in r.list ==> e in s.list || e.arm.serial >= s.armed
  }

  lemma {:induction false} StaysInTurn(d: Engine, r: Engine, x: Entry, y: Entry)
    requires InTurn(d, x, y) && SamePositions(d, r) && ListFrom(d.sched, r.sched)
    ensures InTurn(r, x, y)
  {
    forall i: nat, e | FiredAt(r, i, e) ensures FiredAt(d, i, e) {
      assert Queued(r)[i].origin.Fired?;
    }
  }

  lemma {:induction false} SamePositionsTransitive(d: Engine, e: Engine, r: Engine)
    requires SamePositions(d, e) && SamePositions(e, r)
    ensures SamePositions(d, r)
  {
    forall i: nat | i < |Queued(r)| && Queued(r)[i].origin.Fired?
      ensures i < |Queued(d)| && Queued(d)[i] == Queued(r)[i]
    {
      assert Queued(e)[i] == Queued(r)[i];
    }
  }

  lemma {:induction false} GrowsKeepsPositions(d: Engine, r: Engine)
    requires Grows(d, r)
    ensures SamePositions(d, r)
  {
    var n := |Envelopes(d.log)|;
    forall i: nat | i < |Queued(r)| && Queued(r)[i].origin.Fired?
      ensures i < |Queued(d)| && Queued(d)[i] == Queued(r)[i]
    {
      if i >= n {
        assert Queued(r)[i] == r.queue[i - n];
      }
    }
  }

  lemma EmptiedKeepsPositions(d: Engine, r: Engine)
    requires r.log == d.log && r.queue == []
    ensures SamePositions(d, r)
  {
  }

  lemma {:induction false} ExecuteListFrom(d: Engine, own: ActorId, c: Command)
    requires Proper(d)
    ensures ListFrom(d.sched, Execute(d, own, c).0.sched)
  {
    match c
    case Schedule(timer, instant) =>
      var s1 := Unschedule(d.sched, timer, own).0;
      RemoveIsMapRemoval(d.sched.list, timer, own);
      InsertIsMapUpdate(s1.list, Entry(Timer(s1.nextId, instant), own, Arm(s1.armed, d.now)));
    case Cancel(timer) => RemoveIsMapRemoval(d.sched.list, timer, own);
    case SendRequest(to, payload) =>
      var id := WrappingIncrement(d.requestCounter);
      ReceiveRequestOnlySends(d.(requestCounter := id), to, Reactive(own), id, payload);
    case _ =>
  }

  lemma {:induction false} RunCommandsListFrom(p: Program, d: Engine, b: Behavior, c: Context, msg: Message,
                                               replies: seq<Reply>, left: nat)
    requires Proper(d) && c.own in d.reactives
    ensures ListFrom(d.sched, RunCommands(p, d, b, c, msg, replies, left).sched)
    decreases left
  {
    hide Execute;
    var command := p.next(b, c, msg, replies);
    if left != 0 && command.Some? {
      var (d1, reply) := Execute(d, c.own, command.value);
      ExecuteProper(d, c.own, command.value);
      ExecuteListFrom(d, c.own, command.value);
      RunCommandsListFrom(p, d1, b, c, msg, replies + [reply], left - 1);
    }
  }

  lemma {:induction false} DispatcherKeepsOrder(d: Engine, msg: Message)
    requires !ProcessDispatcherMessage(d, msg).Panicking?
    ensures var r := ProcessDispatcherMessage(d, msg).d; r.sched == d.sched && SamePositions(d, r)
  {
    var v := ProcessDispatcherMessage(d, msg);
    var (d1, answer) := Serve(d, msg.payload).value;
    if v.Going? {
      DispatcherGrows(d, msg);
      GrowsKeepsPositions(d, v.d);
      DispatcherLeavesTimers(d, msg);
    } else {
      DrainOnlySends(d);
      PostOnlySends(d1, msg.src, Response(msg.id, Ok(DispatcherStopped)));
      EmptiedKeepsPositions(d, d1);
      PostGrows(d1, msg.src, Response(msg.id, Ok(DispatcherStopped)));
      GrowsKeepsPositions(d1, v.d);
      SamePositionsTransitive(d, d1, v.d);
    }
  }

  lemma {:induction false} DispatcherLeavesTimers(d: Engine, msg: Message)
    requires ProcessDispatcherMessage(d, msg).Going?
    ensures ProcessDispatcherMessage(d, msg).d.sched == d.sched
  {
    var (d1, answer) := Serve(d, msg.payload).value;
    if answer.Some? {
      PostOnlySends(d1, msg.src, Response(msg.id, Ok(answer.value)));
    }
  }

  lemma {:induction false} ProcessInTurn(p: Program, d: Engine, x: Entry, y: Entry)
    requires d.queue != [] && Proper(d) && InTurn(d, x, y) && !Process(p, d).Panicking?
    ensures InTurn(Process(p, d).d, x, y)
  {
    hide InTurn, SamePositions;
    var e, d1, r := d.queue[0], Take(d), Process(p, d).d;
    TakeKeepsTurn(d, x, y);
    match FateOf(d, e)
    case ByDispatcher =>
      DispatcherKeepsOrder(d1, e.msg);
      StaysInTurn(d1, r, x, y);
    case ByBehavior =>
      var b, c := d1.reactives[e.dst], Context(e.dst, d1.now);
      RunCommandsListFrom(p, d1, b, c, e.msg, [], p.bound(b, c, e.msg));
      var _ := RunCommandsGrows(p, d1, b, c, e.msg, [], p.bound(b, c, e.msg));
      GrowsKeepsPositions(d1, r);
      StaysInTurn(d1, r, x, y);
    case NoActor =>
      if e.msg.Request? {
        var msg := Response(e.msg.id, Err(ActorDisappeared, TheBox(e.msg.payload)));
        PostOnlySends(d1, e.msg.src, msg);
        PostGrows(d1, e.msg.src, msg);
      }
      GrowsKeepsPositions(d1, r);
      StaysInTurn(d1, r, x, y);
  }

  lemma {:induction false} TakeKeepsTurn(d: Engine, x: Entry, y: Entry)
    requires d.queue != [] && InTurn(d, x, y)
    ensures InTurn(Take(d), x, y)
  {
    TakeKeepsQueued(d);
    StaysInTurn(d, Take(d), x, y);
  }

  /** The first pending timeout fires; it is not y as long as x is pending. */
  lemma {:induction false} FireInTurn(d: Engine, x: Entry, y: Entry)
    requires Proper(d) && d.sched.armed <= U32_SIZE && ComesFirst(x, y) && InTurn(d, x, y)
    ensures InTurn(TrySendNextTimeout(d).0, x, y)
  {
    var r := TrySendNextTimeout(d).0;
    if r != d {
      var head, n := d.sched.list[0], |Queued(d)|;
      assert Queued(r) == Queued(d) + [TimeoutOf(head)];
      forall k | 0 < k < |d.sched.list| ensures !ComesFirst(d.sched.list[k], head) && d.sched.list[k] != head {
        PendingInOrder(d.sched, 0, k);
      }
      if x in d.sched.list {
        assert head != y;
      }
      forall i: nat, e | FiredAt(r, i, e) ensures FiredAt(d, i, e) || (i == n && e == head) {
        assert i < n ==> Queued(r)[i] == Queued(d)[i];
      }
    }
  }

  lemma {:induction false} PerformInTurn(p: Program, d: Engine, act: Act, x: Entry, y: Entry)
    requires Proper(d) && d.sched.armed <= U32_SIZE && ComesFirst(x, y) && InTurn(d, x, y) && Perform(p, d, act).Some?
    ensures InTurn(Perform(p, d, act).value, x, y)
  {
    hide InTurn, SamePositions, ComesFirst;
    var r := Perform(p, d, act).value;
    match act
    case ProcessOne => ProcessInTurn(p, d, x, y);
    case SendTimeout => FireInTurn(d, x, y);
    case DropDispatcher =>
      DrainOnlySends(d);
      EmptiedKeepsPositions(d, r);
      StaysInTurn(d, r, x, y);
    case Clock(_) =>
      ClockKeepsPositions(d, r);
      StaysInTurn(d, r, x, y);
    case _ =>
      OtherActsGrow(p, d, act);
      GrowsKeepsPositions(d, r);
      StaysInTurn(d, r, x, y);
  }

  lemma ClockKeepsPositions(d: Engine, r: Engine)
    requires r == d.(now := r.now)
    ensures SamePositions(d, r)
  {
  }

  /** Arms are only counted up. */
  lemma {:induction false} PerformArms(p: Program, d: Engine, act: Act)
    requires Proper(d) && Perform(p, d, act).Some?
    ensures d.sched.armed <= Perform(p, d, act).value.sched.armed
  {
    match act
    case ProcessOne =>
      var e, d1 := d.queue[0], Take(d);
      match FateOf(d, e) {
        case ByDispatcher => DispatcherKeepsOrder(d1, e.msg);
        case ByBehavior =>
          var b, c := d1.reactives[e.dst], Context(e.dst, d1.now);
          RunCommandsListFrom(p, d1, b, c, e.msg, [], p.bound(b, c, e.msg));
        case NoActor =>
          if e.msg.Request? {
            PostOnlySends(d1, e.msg.src, Response(e.msg.id, Err(ActorDisappeared, TheBox(e.msg.payload))));
          }
      }
    case SendTimeout =>
    case DropDispatcher => DrainOnlySends(d);
    case Clock(_) =>
    case _ => OtherActsGrow(p, d, act);
  }

  lemma {:induction false} PerformAllArms(p: Program, d: Engine, acts: seq<Act>)
    requires Proper(d) && PerformAll(p, d, acts).Some?
    ensures d.sched.armed <= PerformAll(p, d, acts).value.sched.armed
    decreases |acts|
  {
    hide Perform;
    if acts != [] {
      PerformArms(p, d, acts[0]);
      PerformProper(p, d, acts[0]);
      PerformAllArms(p, Perform(p, d, acts[0]).value, acts[1..]);
    }
  }

  lemma {:induction false} OtherActsGrow(p: Program, d: Engine, act: Act)
    requires !act.ProcessOne? && !act.SendTimeout? && !act.DropDispatcher? && Perform(p, d, act).Some? && !act.Clock?
    ensures Grows(d, Perform(p, d, act).value) && Perform(p, d, act).value.sched == d.sched
  {
    match act
    case Notify(to, payload) => PostGrows(d, to, Notification(payload));
    case AnswerTo(to, id, payload) => PostGrows(d, to, Response(id, Ok(payload)));
    case SendRequestTo(to, src, id, payload) =>
      ReceiveRequestGrows(d, to, src, id, payload);
      ReceiveRequestOnlySends(d, to, src, id, payload);
    case _ =>
  }

  lemma {:induction false} PerformAllInTurn(p: Program, d: Engine, acts: seq<Act>, x: Entry, y: Entry)
    requires Proper(d) && ComesFirst(x, y) && InTurn(d, x, y) && PerformAll(p, d, acts).Some?
    requires PerformAll(p, d, acts).value.sched.armed <= U32_SIZE
    ensures InTurn(PerformAll(p, d, acts).value, x, y)
    decreases |acts|
  {
    hide InTurn, ComesFirst, Perform;
    if acts != [] {
      var d1 := Perform(p, d, acts[0]).value;
      PerformProper(p, d, acts[0]);
      PerformArms(p, d, acts[0]);
      PerformAllArms(p, d1, acts[1..]);
      PerformInTurn(p, d, acts[0], x, y);
      PerformAllInTurn(p, d1, acts[1..], x, y);
    }
  }

  /** Pending timeouts fire in the order of their deadlines, and with equal deadlines in the order of their arms: in
      every state that a new dispatcher can reach, and over any acts from there, with at most 2^32 arms in all, the
      later one of two pending timeouts is not queued as long as the first one is pending, and if both are queued,
      the first one is queued before it. */
  lemma {:induction false} FireInOrder(p: Program, first: Engine, before: seq<Act>, after: seq<Act>, x: Entry, y: Entry)
    requires Built(first) && Ledger.Fresh(first) && PerformAll(p, first, before).Some?
    requires var d := PerformAll(p, first, before).value;
             && x in d.sched.list && y in d.sched.list && ComesFirst(x, y)
             && PerformAll(p, d, after).Some? && PerformAll(p, d, after).value.sched.armed <= U32_SIZE
    ensures var r := PerformAll(p, PerformAll(p, first, before).value, after).value;
            && (x in r.sched.list ==> forall j: nat :: !FiredAt(r, j, y))
            && forall i: nat, j: nat :: FiredAt(r, i, x) && FiredAt(r, j, y) ==> i < j
  {
    var d := PerformAll(p, first, before).value;
    PerformAllProper(p, first, before);
    Firing.EachArmFiresOnce(p, first, before);
    PendingHaveNotFired(d, x);
    PendingHaveNotFired(d, y);
    PerformAllInTurn(p, d, after, x, y);
  }

  lemma {:induction false} PendingHaveNotFired(d: Engine, x: Entry)
    requires Firing.FiresOnce(d) && x in d.sched.list
    ensures forall i: nat :: !FiredAt(d, i, x)
  {
    forall i: nat ensures !FiredAt(d, i, x) {
      if FiredAt(d, i, x) {
        assert false;
      }
    }
  }
}
