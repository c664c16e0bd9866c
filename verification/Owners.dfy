/** Whose identifiers are whose, in every reachable state: registered actors, the dispatcher itself, and the owners
    of timers. */
module Owners {
  import opened Instants
  import opened Timers
  import opened Engines
  import opened Ledger
  import opened Simulation
  import opened Recorders
  import TimerProtocol

  /** No identifier was handed out twice; the dispatcher is not among the actors it runs, and owns no timer. */
  ghost predicate Proper(d: Engine) {
    && d.dispId < d.nextActorId && d.dispId !in d.reactives
    && (forall id :: id in d.reactives ==> id < d.nextActorId)
    && Numbered(d.sched)
    && forall e :: e in d.sched.list ==> e.dst != d.dispId
  }

  /** Identifiers of timers are serials modulo 2^32, and until they wrap around no pending timeout is displaced. */
  ghost predicate Numbered(s: Scheduler) {
    && Sorted(s.list) && s.nextId == s.armed % U32_SIZE
    && (forall e :: e in s.list ==> e.arm.serial < s.armed && e.key.id == e.arm.serial % U32_SIZE)
    && (s.armed <= U32_SIZE ==> s.displaced == [])
  }

  lemma UnscheduleNumbered(s: Scheduler, timer: Timer, dst: ActorId)
    requires Numbered(s)
    ensures Numbered(Unschedule(s, timer, dst).0)
    ensures forall e :: e in Unschedule(s, timer, dst).0.list ==> e in s.list
  {
    RemoveIsMapRemoval(s.list, timer, dst);
  }

  lemma ScheduleNumbered(s: Scheduler, timer: Timer, instant: Instant, dst: ActorId, now: Ticks)
    requires Numbered(s)
    ensures Numbered(ScheduleUntil(s, timer, instant, dst, now).0)
    ensures forall e :: e in ScheduleUntil(s, timer, instant, dst, now).0.list ==> e in s.list || e.dst == dst
  {
    var s1 := Unschedule(s, timer, dst).0;
    var key := Timer(s1.nextId, instant);
    UnscheduleNumbered(s, timer, dst);
    InsertIsMapUpdate(s1.list, Entry(key, dst, Arm(s1.armed, now)));
    TimerProtocol.NextIsModulo(s1.armed);
    if s1.armed < U32_SIZE {
      forall e | e in s1.list ensures e.key != key {
        TimerProtocol.SmallModulo(s1.armed);
        TimerProtocol.SmallModulo(e.arm.serial);
      }
      TimerProtocol.NothingOverwritten(s1.list, key);
    }
  }

  /** Sending changes neither actors nor timers. */
  predicate OnlySends(d: Engine, r: Engine) {
    SameFrame(d, r) && r.reactives == d.reactives && r.sched == d.sched && r.nextActorId == d.nextActorId
  }

  lemma ReceiveRequestOnlySends(d: Engine, to: Addr, src: Addr, id: U32, payload: Payload)
    ensures OnlySends(d, ReceiveRequest(d, to, src, id, payload))
  {
  }

  lemma {:induction false} ExecuteProper(d: Engine, own: ActorId, c: Command)
    requires Proper(d) && own != d.dispId
    ensures Proper(Execute(d, own, c).0) && Execute(d, own, c).0.dispId == d.dispId
    ensures Execute(d, own, c).0.reactives == d.reactives
  {
    match c
    case SendNotification(to, payload) =>
    case SendRequest(to, payload) =>
      var id := WrappingIncrement(d.requestCounter);
      ReceiveRequestOnlySends(d.(requestCounter := id), to, Reactive(own), id, payload);
    case SendResponse(to, id, payload) =>
    case Schedule(timer, instant) => ScheduleNumbered(d.sched, timer, instant, own, d.now);
    case Cancel(timer) => UnscheduleNumbered(d.sched, timer, own);
  }

  lemma {:induction false} RunCommandsProper(p: Program, d: Engine, b: Behavior, c: Context, msg: Message,
                                             replies: seq<Reply>, left: nat)
    requires Proper(d) && c.own in d.reactives
    ensures Proper(RunCommands(p, d, b, c, msg, replies, left))
    decreases left
  {
    hide Execute;
    var command := p.next(b, c, msg, replies);
    if left != 0 && command.Some? {
      var (d1, reply) := Execute(d, c.own, command.value);
      ExecuteProper(d, c.own, command.value);
      RunCommandsProper(p, d1, b, c, msg, replies + [reply], left - 1);
    }
  }

  lemma {:induction false} ApplyOpsProper(d: Engine, ops: seq<RegistryOp>)
    requires Proper(d)
    ensures Proper(ApplyOps(d, ops).0)
    decreases |ops|
  {
    if ops != [] {
      ApplyOpProper(d, ops[0]);
      ApplyOpsProper(ApplyOp(d, ops[0]).0, ops[1..]);
    }
  }

  lemma ApplyOpProper(d: Engine, op: RegistryOp)
    requires Proper(d)
    ensures Proper(ApplyOp(d, op).0)
  {
  }

  /** Other actors' addresses stay valid: over any registrations, replacements and removals, an actor stays
      registered under its identifier if and only if it is not itself removed, and stays the same one if it is not
      itself replaced either. */
  lemma {:induction false} OthersStayRegistered(d: Engine, ops: seq<RegistryOp>, id: ActorId)
    requires Proper(d) && id in d.reactives
    ensures id in ApplyOps(d, ops).0.reactives <==> Unregister(Reactive(id)) !in ops
    ensures (forall op :: op in ops ==>
             !(op.Unregister? && op.addr == Reactive(id)) && !(op.Replace? && op.addr == Reactive(id))) ==>
            id in ApplyOps(d, ops).0.reactives && ApplyOps(d, ops).0.reactives[id] == d.reactives[id]
    decreases |ops|
  {
    if ops != [] {
      var d1 := ApplyOp(d, ops[0]).0;
      ApplyOpProper(d, ops[0]);
      if ops[0] == Unregister(Reactive(id)) {
        RemovedStaysAway(d1, ops[1..], id);
      } else {
        OthersStayRegistered(d1, ops[1..], id);
      }
    }
  }

  /** And an identifier is never handed out again. */
  lemma {:induction false} RemovedStaysAway(d: Engine, ops: seq<RegistryOp>, id: ActorId)
    requires Proper(d) && id !in d.reactives && id < d.nextActorId
    ensures id !in ApplyOps(d, ops).0.reactives
    decreases |ops|
  {
    if ops != [] {
      ApplyOpProper(d, ops[0]);
      RemovedStaysAway(ApplyOp(d, ops[0]).0, ops[1..], id);
    }
  }

  lemma {:induction false} DrainOnlySends(d: Engine)
    ensures OnlySends(d, Drain(d))
    decreases DrainMeasure(d.queue)
  {
    if d.queue != [] {
      DrainOnlySends(DrainOne(d));
    }
  }

  lemma {:induction false} DispatcherProper(d: Engine, msg: Message)
    requires Proper(d) && !ProcessDispatcherMessage(d, msg).Panicking?
    ensures Proper(ProcessDispatcherMessage(d, msg).d)
  {
    hide Numbered, Post;
    var (d1, answer) := Serve(d, msg.payload).value;
    DrainOnlySends(d);
    if answer.Some? {
      PostOnlySends(d1, msg.src, Response(msg.id, Ok(answer.value)));
    }
    match msg.payload
    case ExecuteFn(ops) => ApplyOpsProper(d, ops);
    case RegisterReactive(Some(b)) => ApplyOpProper(d, Register(b));
    case _ =>
  }

  lemma PostOnlySends(d: Engine, to: Addr, msg: Message)
    ensures OnlySends(d, Post(d, to, msg).0)
  {
  }

  lemma {:induction false} ProcessProper(p: Program, d: Engine)
    requires d.queue != [] && Proper(d) && !Process(p, d).Panicking?
    ensures Proper(Process(p, d).d)
  {
    var e, d1 := d.queue[0], Take(d);
    match FateOf(d, e)
    case ByDispatcher => DispatcherProper(d1, e.msg);
    case ByBehavior =>
      var b, c := d1.reactives[e.dst], Context(e.dst, d1.now);
      RunCommandsProper(p, d1, b, c, e.msg, [], p.bound(b, c, e.msg));
    case NoActor =>
  }

  lemma {:induction false} PerformProper(p: Program, d: Engine, act: Act)
    requires Proper(d) && Perform(p, d, act).Some?
    ensures Proper(Perform(p, d, act).value)
  {
    match act
    case SendRequestTo(to, src, id, payload) => ReceiveRequestOnlySends(d, to, src, id, payload);
    case Apply(op) => ApplyOpProper(d, op);
    case ProcessOne => ProcessProper(p, d);
    case DropDispatcher => DrainOnlySends(d);
    case _ =>
  }

  lemma {:induction false} PerformAllProper(p: Program, d: Engine, acts: seq<Act>)
    requires Proper(d) && PerformAll(p, d, acts).Some?
    ensures Proper(PerformAll(p, d, acts).value)
    decreases |acts|
  {
    hide Perform, Proper;
    if acts != [] {
      PerformProper(p, d, acts[0]);
      PerformAllProper(p, Perform(p, d, acts[0]).value, acts[1..]);
    }
  }

  /** A dispatcher that was just built. */
  predicate Built(d: Engine) {
    d.dispId < d.nextActorId && d.reactives == map[] && d.sched == NEW_SCHEDULER
  }

  /** In every state that a new dispatcher can reach, by any acts with any behaviours, a run of behaviours that only
      record has its closed form. */
  lemma {:induction false} ReachableRecordersRun(p: Program, first: Engine, acts: seq<Act>, recorders: Program,
                                                 target: Instant)
    requires Built(first) && PerformAll(p, first, acts).Some? && OnlyRecords(recorders) && target.Finite?
    requires var d := PerformAll(p, first, acts).value; Less(Finite(d.now), target) && d.queue == [] && d.capacity > 0
    ensures var d := PerformAll(p, first, acts).value;
            Ends(recorders, NEVER_BREAK, target, d, Halted(ClosedForm(recorders, target, d), Reached, NEVER_BREAK))
  {
    PerformAllProper(p, first, acts);
    RecordersRun(recorders, target, PerformAll(p, first, acts).value);
  }

  /** In every state that a new dispatcher can reach with at most 2^32 arms, no pending timeout was ever displaced. */
  lemma {:induction false} NothingDisplaced(p: Program, first: Engine, acts: seq<Act>)
    requires Built(first) && PerformAll(p, first, acts).Some?
    ensures var r := PerformAll(p, first, acts).value; r.sched.armed <= U32_SIZE ==> r.sched.displaced == []
  {
    PerformAllProper(p, first, acts);
  }
}
