/** Where every arm is, over any run of the engine with any behaviours; and so at most one timeout for each. */
module Firing {
  import opened Instants
  import opened Timers
  import opened Engines
  import opened Ledger
  import opened Ordering
  import TimerProtocol

  /** How many of these messages are the timeout of that arm. */
  function FiredIn(q: seq<Envelope>, serial: nat): nat {
    if q == [] then 0
    else (if q[0].origin.Fired? && q[0].origin.entry.arm.serial == serial then 1 else 0) + FiredIn(q[1..], serial)
  }

  /** How often an arm is pending, cancelled or displaced, or its timeout queued, processed or dropped. */
  function Places(d: Engine, serial: nat): nat {
    TimerPlaces(d.sched, serial) + FiredIn(Queued(d), serial) + FiredIn(d.dropped, serial)
  }

  function TimerPlaces(s: Scheduler, serial: nat): nat {
    TimerProtocol.Count(s.list, serial) + TimerProtocol.Count(s.cancelled, serial)
    + TimerProtocol.Count(s.displaced, serial)
  }

  lemma {:induction false} UnscheduleKeepsPlaces(s: Scheduler, timer: Timer, dst: ActorId, serial: nat)
    ensures TimerPlaces(Unschedule(s, timer, dst).0, serial) == TimerPlaces(s, serial)
    ensures Unschedule(s, timer, dst).0.armed == s.armed
  {
    TimerProtocol.CountRemove(s.list, timer, dst, serial);
    TimerProtocol.CountConcat(s.cancelled, Removed(s.list, timer, dst), serial);
  }

  lemma {:induction false} ScheduleAddsOne(s: Scheduler, timer: Timer, instant: Instant, dst: ActorId, now: Ticks,
                                           serial: nat)
    ensures var r := ScheduleUntil(s, timer, instant, dst, now).0;
            TimerPlaces(r, serial) == TimerPlaces(s, serial) + (if serial == s.armed then 1 else 0)
            && r.armed == s.armed + 1
  {
    hide Insert, Overwritten, RemoveOwned, Removed;
    var s1 := Unschedule(s, timer, dst).0;
    UnscheduleKeepsPlaces(s, timer, dst, serial);
    TimerProtocol.CountInsert(s1.list, Entry(Timer(s1.nextId, instant), dst, Arm(s1.armed, now)), serial);
    TimerProtocol.CountConcat(s1.displaced, Overwritten(s1.list, Timer(s1.nextId, instant)), serial);
  }

  /** An arm is in exactly one place from the moment it is made, and in none before. */
  predicate InOnePlace(d: Engine, serial: nat) {
    Places(d, serial) == if serial < d.sched.armed then 1 else 0
  }

  lemma {:induction false} FiredConcat(a: seq<Envelope>, b: seq<Envelope>, serial: nat)
    ensures FiredIn(a + b, serial) == FiredIn(a, serial) + FiredIn(b, serial)
  {
    if a == [] {
      assert a + b == b;
    } else {
      FiredConcat(a[1..], b, serial);
      assert (a + b)[1..] == a[1..] + b;
    }
  }

  lemma {:induction false} FiredInQueued(d: Engine, serial: nat)
    ensures FiredIn(Queued(d), serial) == FiredIn(Envelopes(d.log), serial) + FiredIn(d.queue, serial)
  {
    FiredConcat(Envelopes(d.log), d.queue, serial);
  }

  /** The timers are left alone, and no timeout is queued; those in the queue stay there or are dropped. */
  predicate SendsOnly(d: Engine, r: Engine, serial: nat) {
    && r.sched == d.sched && r.log == d.log
    && FiredIn(r.queue, serial) + FiredIn(r.dropped, serial) == FiredIn(d.queue, serial) + FiredIn(d.dropped, serial)
  }

  lemma {:induction false} SendsOnlyKeeps(d: Engine, r: Engine, serial: nat)
    requires InOnePlace(d, serial) && SendsOnly(d, r, serial)
    ensures InOnePlace(r, serial)
  {
    FiredInQueued(d, serial);
    FiredInQueued(r, serial);
  }

  lemma {:induction false} PostSends(d: Engine, to: Addr, msg: Message, serial: nat)
    ensures SendsOnly(d, Post(d, to, msg).0, serial)
  {
    if to.Reactive? {
      FiredConcat(d.queue, [Envelope(to.id, msg, Posted)], serial);
    }
  }

  lemma {:induction false} ReceiveRequestSends(d: Engine, to: Addr, src: Addr, id: U32, payload: Payload, serial: nat)
    ensures SendsOnly(d, ReceiveRequest(d, to, src, id, payload), serial)
  {
    var d0 := d.(issued := d.issued + [Ask(to, src, id, payload)]);
    var (d1, failed) := Post(d0, to, Request(src, id, payload));
    PostSends(d0, to, Request(src, id, payload), serial);
    forall returned | failed.Some?
      ensures SendsOnly(d1, Post(d1, src, Response(id, Err(failed.value, returned))).0, serial)
    {
      PostSends(d1, src, Response(id, Err(failed.value, returned)), serial);
    }
  }

  lemma {:induction false} ArmOnce(d: Engine, own: ActorId, timer: Timer, instant: Instant, serial: nat)
    requires InOnePlace(d, serial)
    ensures InOnePlace(Execute(d, own, Schedule(timer, instant)).0, serial)
    ensures InOnePlace(Execute(d, own, Cancel(timer)).0, serial)
  {
    hide TimerPlaces, ScheduleUntil, Unschedule;
    UnscheduleKeepsPlaces(d.sched, timer, own, serial);
    ScheduleAddsOne(d.sched, timer, instant, own, d.now, serial);
  }

  lemma {:induction false} ExecuteOnce(d: Engine, own: ActorId, c: Command, serial: nat)
    requires InOnePlace(d, serial)
    ensures InOnePlace(Execute(d, own, c).0, serial)
  {
    var r := Execute(d, own, c).0;
    match c
    case SendNotification(to, payload) =>
      PostSends(d, to, Notification(payload), serial);
      SendsOnlyKeeps(d, r, serial);
    case SendRequest(to, payload) =>
      var id := WrappingIncrement(d.requestCounter);
      ReceiveRequestSends(d.(requestCounter := id), to, Reactive(own), id, payload, serial);
      SendsOnlyKeeps(d, r, serial);
    case SendResponse(to, id, payload) =>
      PostSends(d, to, Response(id, Ok(payload)), serial);
      SendsOnlyKeeps(d, r, serial);
    case Schedule(timer, instant) => ArmOnce(d, own, timer, instant, serial);
    case Cancel(timer) => ArmOnce(d, own, timer, Infinity, serial);
  }

  lemma {:induction false} RunCommandsOnce(p: Program, d: Engine, b: Behavior, c: Context, msg: Message,
                                           replies: seq<Reply>, left: nat, serial: nat)
    requires InOnePlace(d, serial)
    ensures InOnePlace(RunCommands(p, d, b, c, msg, replies, left), serial)
    decreases left
  {
    var command := p.next(b, c, msg, replies);
    if left != 0 && command.Some? {
      var (d1, reply) := Execute(d, c.own, command.value);
      ExecuteOnce(d, c.own, command.value, serial);
      RunCommandsOnce(p, d1, b, c, msg, replies + [reply], left - 1, serial);
    }
  }

  lemma {:induction false} DrainSends(d: Engine, serial: nat)
    ensures SendsOnly(d, Drain(d), serial)
    decreases DrainMeasure(d.queue)
  {
    if d.queue != [] {
      DrainOneSends(d, serial);
      DrainSends(DrainOne(d), serial);
    }
  }

  lemma {:induction false} DrainOneSends(d: Engine, serial: nat)
    requires d.queue != []
    ensures SendsOnly(d, DrainOne(d), serial)
  {
    var e := d.queue[0];
    var d1 := d.(queue := d.queue[1..], dropped := d.dropped + [e]);
    FiredConcat(d.dropped, [e], serial);
    assert [e][1..] == [];
    if e.msg.Request? {
      PostSends(d1, e.msg.src, Response(e.msg.id, Err(ActorDisappeared, TheBox(e.msg.payload))), serial);
    }
  }

  lemma {:induction false} ApplyOpsSends(d: Engine, ops: seq<RegistryOp>, serial: nat)
    ensures SendsOnly(d, ApplyOps(d, ops).0, serial)
    decreases |ops|
  {
    if ops != [] {
      ApplyOpsSends(ApplyOp(d, ops[0]).0, ops[1..], serial);
    }
  }

  lemma {:induction false} DispatcherSends(d: Engine, msg: Message, serial: nat)
    ensures !ProcessDispatcherMessage(d, msg).Panicking? ==> SendsOnly(d, ProcessDispatcherMessage(d, msg).d, serial)
  {
    hide TimerPlaces, Post;
    if msg.Request? && Serve(d, msg.payload).Some? {
      var (d1, answer) := Serve(d, msg.payload).value;
      DrainSends(d, serial);
      if msg.payload.ExecuteFn? {
        ApplyOpsSends(d, msg.payload.ops, serial);
      }
      if answer.Some? {
        PostSends(d1, msg.src, Response(msg.id, Ok(answer.value)), serial);
      }
    }
  }

  lemma {:induction false} ProcessOnce(p: Program, d: Engine, serial: nat)
    requires d.queue != [] && InOnePlace(d, serial)
    ensures !Process(p, d).Panicking? ==> InOnePlace(Process(p, d).d, serial)
  {
    var e, d1 := d.queue[0], Take(d);
    TakeKeepsQueued(d);
    assert InOnePlace(d1, serial);
    match FateOf(d, e)
    case ByDispatcher =>
      DispatcherSends(d1, e.msg, serial);
      if !Process(p, d).Panicking? {
        SendsOnlyKeeps(d1, Process(p, d).d, serial);
      }
    case ByBehavior =>
      var b, c := d1.reactives[e.dst], Context(e.dst, d1.now);
      RunCommandsOnce(p, d1, b, c, e.msg, [], p.bound(b, c, e.msg), serial);
    case NoActor =>
      if e.msg.Request? {
        PostSends(d1, e.msg.src, Response(e.msg.id, Err(ActorDisappeared, TheBox(e.msg.payload))), serial);
        SendsOnlyKeeps(d1, Process(p, d).d, serial);
      }
  }

  /** A timeout that fires moves from the timers to the queue. */
  lemma {:induction false} FiringKeepsPlaces(d: Engine, serial: nat)
    ensures Places(TrySendNextTimeout(d).0, serial) == Places(d, serial)
    ensures TrySendNextTimeout(d).0.sched.armed == d.sched.armed
  {
    var r := TrySendNextTimeout(d).0;
    if r != d {
      var e := d.sched.list[0];
      var fired := [TimeoutOf(e)];
      assert r.queue == d.queue + fired;
      FiredInQueued(d, serial);
      FiredInQueued(r, serial);
      FiredConcat(d.queue, fired, serial);
      assert fired[1..] == [];
    }
  }

  lemma {:induction false} PerformOnce(p: Program, d: Engine, act: Act, serial: nat)
    requires InOnePlace(d, serial) && Perform(p, d, act).Some?
    ensures InOnePlace(Perform(p, d, act).value, serial)
  {
    hide Places, Queued, Drain, Process, TrySendNextTimeout, ReceiveRequest, Post;
    var r := Perform(p, d, act).value;
    match act
    case ProcessOne => ProcessOnce(p, d, serial);
    case SendTimeout => FiringKeepsPlaces(d, serial);
    case Notify(to, payload) =>
      PostSends(d, to, Notification(payload), serial);
      SendsOnlyKeeps(d, r, serial);
    case AnswerTo(to, id, payload) =>
      PostSends(d, to, Response(id, Ok(payload)), serial);
      SendsOnlyKeeps(d, r, serial);
    case SendRequestTo(to, src, id, payload) =>
      ReceiveRequestSends(d, to, src, id, payload, serial);
      SendsOnlyKeeps(d, r, serial);
    case DropDispatcher =>
      DrainSends(d, serial);
      SendsOnlyKeeps(d, r, serial);
    case _ =>
      SendsOnlyKeeps(d, r, serial);
  }

  lemma {:induction false} PerformAllOnce(p: Program, d: Engine, acts: seq<Act>, serial: nat)
    requires InOnePlace(d, serial) && PerformAll(p, d, acts).Some?
    ensures InOnePlace(PerformAll(p, d, acts).value, serial)
    decreases |acts|
  {
    if acts != [] {
      PerformOnce(p, d, acts[0], serial);
      PerformAllOnce(p, Perform(p, d, acts[0]).value, acts[1..], serial);
    }
  }

  lemma {:induction false} FiredAt(q: seq<Envelope>, i: nat, serial: nat)
    requires i < |q| && q[i].origin.Fired? && q[i].origin.entry.arm.serial == serial
    ensures FiredIn(q, serial) >= 1
  {
    if i > 0 {
      FiredAt(q[1..], i - 1, serial);
    }
  }

  /** All timeouts ever queued are of different arms, each made before, and none of these arms is still pending. */
  ghost predicate FiresOnce(d: Engine) {
    var all := Queued(d);
    forall i :: 0 <= i < |all| && all[i].origin.Fired? ==>
      && var serial := all[i].origin.entry.arm.serial;
         && serial < d.sched.armed
         && (forall e :: e in d.sched.list ==> e.arm.serial != serial)
         && (forall j :: 0 <= j < i && all[j].origin.Fired? ==> all[j].origin.entry.arm.serial != serial)
  }

  lemma {:induction false} OnceMeansDistinct(d: Engine)
    requires forall serial: nat :: InOnePlace(d, serial)
    ensures FiresOnce(d)
  {
    var all := Queued(d);
    forall i | 0 <= i < |all| && all[i].origin.Fired?
      ensures var serial := all[i].origin.entry.arm.serial;
              && serial < d.sched.armed
              && (forall e :: e in d.sched.list ==> e.arm.serial != serial)
              && (forall j :: 0 <= j < i && all[j].origin.Fired? ==> all[j].origin.entry.arm.serial != serial)
    {
      var serial := all[i].origin.entry.arm.serial;
      assert InOnePlace(d, serial);
      FiredAt(all, i, serial);
      forall e | e in d.sched.list ensures e.arm.serial != serial {
        if e.arm.serial == serial {
          TimerProtocol.CountMember(d.sched.list, e);
        }
      }
      forall j | 0 <= j < i && all[j].origin.Fired? ensures all[j].origin.entry.arm.serial != serial {
        if all[j].origin.entry.arm.serial == serial {
          assert all == all[..i] + all[i..];
          FiredConcat(all[..i], all[i..], serial);
          FiredAt(all[..i], j, serial);
          FiredAt(all[i..], 0, serial);
        }
      }
    }
  }

  /** Whatever the behaviours do with their timers and whatever happens, from a state in which nothing was queued or
      armed yet: after any run every arm ever made is exactly once pending, cancelled, displaced by a later one with
      the same key, or its timeout queued, processed or dropped with the queue. */
  lemma {:induction false} EveryArmInOnePlace(p: Program, d: Engine, acts: seq<Act>, serial: nat)
    requires Fresh(d) && d.sched == NEW_SCHEDULER && PerformAll(p, d, acts).Some?
    ensures var r := PerformAll(p, d, acts).value;
            && InOnePlace(r, serial)
            && FiredIn(Queued(r), serial) == FiredIn(Envelopes(r.log), serial) + FiredIn(r.queue, serial)
  {
    assert Queued(d) == [];
    PerformAllOnce(p, d, acts, serial);
    FiredInQueued(PerformAll(p, d, acts).value, serial);
  }

  /** So each arm fires once at most. */
  lemma {:induction false} EachArmFiresOnce(p: Program, d: Engine, acts: seq<Act>)
    requires Fresh(d) && d.sched == NEW_SCHEDULER && PerformAll(p, d, acts).Some?
    ensures FiresOnce(PerformAll(p, d, acts).value)
  {
    forall serial: nat ensures InOnePlace(PerformAll(p, d, acts).value, serial) {
      EveryArmInOnePlace(p, d, acts, serial);
    }
    OnceMeansDistinct(PerformAll(p, d, acts).value);
  }
}
