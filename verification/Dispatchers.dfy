/** The objects behind the engine: each method does to the objects what the engine function of the same name does
    to the value they stand for. */
module Dispatchers {
  import opened Instants
  import opened Timers
  import opened Engines
  import opened Registry

  class TimeoutScheduler {
    var nextTimeoutId: U32
    var timeoutList: seq<Entry>
    var armed: nat
    var cancelled: seq<Entry>
    var displaced: seq<Entry>

    function State(): Scheduler
      reads this
    {
      Scheduler(nextTimeoutId, timeoutList, armed, cancelled, displaced)
    }

    ghost predicate Valid()
      reads this
    {
      Sorted(timeoutList)
    }

    constructor ()
      ensures Valid() && State() == NEW_SCHEDULER
    {
      nextTimeoutId, timeoutList, armed, cancelled, displaced := 0, [], 0, [], [];
    }

    method GenerateTimeoutId() returns (id: U32)
      modifies this
      ensures id == old(nextTimeoutId)
      ensures State() == old(State()).(nextId := WrappingIncrement(id), armed := old(armed) + 1)
    {
      id := nextTimeoutId;
      nextTimeoutId := WrappingIncrement(nextTimeoutId);
      armed := armed + 1;
    }

    method Unschedule(timer: Timer, dst: ActorId) returns (t: Timer)
      requires Valid()
      modifies this
      ensures Valid() && (State(), t) == Timers.Unschedule(old(State()), timer, dst)
    {
      t := timer;
      if !t.deadline.Infinity? {
        RemoveIsMapRemoval(timeoutList, t, dst);
        cancelled := cancelled + Removed(timeoutList, t, dst);
        timeoutList := RemoveOwned(timeoutList, t, dst);
        t := t.(deadline := Infinity);
      }
    }

    method ScheduleUntil(timer: Timer, instant: Instant, dst: ActorId, now: Ticks) returns (t: Timer)
      requires Valid()
      modifies this
      ensures Valid() && (State(), t) == Timers.ScheduleUntil(old(State()), timer, instant, dst, now)
    {
      hide Insert, RemoveOwned, Removed, Overwritten, Sorted;
      var serial := armed;
      t := Unschedule(timer, dst);
      var id := GenerateTimeoutId();
      t := Timer(id, instant);
      InsertIsMapUpdate(timeoutList, Entry(t, dst, Arm(serial, now)));
      displaced := displaced + Overwritten(timeoutList, t);
      timeoutList := Insert(timeoutList, Entry(t, dst, Arm(serial, now)));
    }
  }

  /** What a dispatcher shares with the rest of the program: the channels of the active actors, the global counter of
      actor identifiers, and the history of requests and of dropped messages. */
  class Surroundings {
    var mailboxes: map<ActorId, Mailbox>
    var nextActorId: ActorId
    var issued: seq<Ask>
    var mailed: seq<Ask>
    var answers: seq<Answer>
    var dropped: seq<Envelope>

    constructor ()
      ensures mailboxes == map[] && nextActorId == 1 && issued == [] && mailed == [] && answers == [] && dropped == []
    {
      mailboxes, nextActorId, issued, mailed, answers, dropped := map[], 1, [], [], [], [];
    }

    method GenerateActorId() returns (id: ActorId)
      modifies this`nextActorId
      ensures id == old(nextActorId) && nextActorId == id + 1
    {
      id := nextActorId;
      nextActorId := nextActorId + 1;
    }
  }

  class MpscDispatcher {
    const program: Program
    const dispActorId: ActorId
    const capacity: nat
    const outside: Surroundings
    var open: bool
    var queue: seq<Envelope>
    var reactiveList: seq<Slot>
    var log: seq<Dispatched>

    ghost predicate Valid()
      reads this, outside
    {
      && StrictlySorted(reactiveList)
      && (forall i :: 0 <= i < |reactiveList| ==> reactiveList[i].id < outside.nextActorId)
      && dispActorId < outside.nextActorId && dispActorId !in Contents(reactiveList)
    }

    /** The parts of the engine that live here and in the surroundings. */
    ghost predicate Is(d: Engine)
      reads this, outside
    {
      && Valid()
      && d.dispId == dispActorId && d.open == open && d.capacity == capacity && d.queue == queue
      && d.reactives == Contents(reactiveList) && d.log == log
      && d.mailboxes == outside.mailboxes && d.nextActorId == outside.nextActorId
      && d.issued == outside.issued && d.mailed == outside.mailed && d.answers == outside.answers
      && d.dropped == outside.dropped
    }

    constructor (program: Program, queueSize: nat, outside: Surroundings)
      modifies outside`nextActorId
      ensures this.program == program && capacity == queueSize && this.outside == outside
      ensures dispActorId == old(outside.nextActorId) && outside.nextActorId == dispActorId + 1
      ensures Valid() && open && queue == [] && reactiveList == [] && log == []
    {
      this.program, capacity, this.outside := program, queueSize, outside;
      open, queue, reactiveList, log := true, [], [], [];
      var id := outside.GenerateActorId();
      dispActorId := id;
    }

    // ---------- the registry ----------

    method GetBehaviorIndex(id: ActorId) returns (index: Option<nat>)
      requires StrictlySorted(reactiveList)
      ensures index.Some? ==> At(reactiveList, index.value, id)
      ensures index.Some? <==> id in Contents(reactiveList)
    {
      IdsOfContents(reactiveList, id);
      var lo, hi := 0, |reactiveList|;
      while lo < hi
        invariant 0 <= lo <= hi <= |reactiveList|
        invariant forall i :: 0 <= i < lo ==> reactiveList[i].id < id
        invariant forall i :: hi <= i < |reactiveList| ==> id < reactiveList[i].id
      {
        var mid := lo + (hi - lo) / 2;
        if reactiveList[mid].id == id {
          assert At(reactiveList, mid, id);
          return Some(mid);
        } else if reactiveList[mid].id < id {
          lo := mid + 1;
        } else {
          hi := mid;
        }
      }
      index := None;
    }

    method RegisterReactive(behavior: Behavior, ghost d: Engine) returns (addr: Addr)
      requires Is(d)
      modifies this`reactiveList, outside`nextActorId
      ensures Is(ApplyOp(d, Register(behavior)).0) && NewAddr(addr) == ApplyOp(d, Register(behavior)).1
      ensures addr.Reactive? && addr.id !in old(Contents(reactiveList))
    {
      hide StrictlySorted;
      hide SortById;
      hide Contents;
      var id := outside.GenerateActorId();
      PushAndSort(reactiveList, Slot(id, behavior));
      reactiveList := SortById(reactiveList + [Slot(id, behavior)]);
      addr := Reactive(id);
    }

    method ReplaceReactive(addr: Addr, behavior: Behavior, ghost d: Engine) returns (result: RegistryResult)
      requires Is(d)
      modifies this`reactiveList
      ensures Is(ApplyOp(d, Replace(addr, behavior)).0) && result == ApplyOp(d, Replace(addr, behavior)).1
      ensures Contents(reactiveList).Keys == old(Contents(reactiveList).Keys)
    {
      result := ReplaceErr(behavior);
      if addr.Reactive? {
        var index := GetBehaviorIndex(addr.id);
        if index.Some? {
          ContentsAgrees(reactiveList);
          ReplaceAt(reactiveList, index.value, behavior);
          result := ReplaceOk(reactiveList[index.value].behavior);
          reactiveList := reactiveList[index.value := Slot(reactiveList[index.value].id, behavior)];
        }
      }
    }

    method UnregisterReactive(addr: Addr, ghost d: Engine) returns (removed: Option<Behavior>)
      requires Is(d)
      modifies this`reactiveList
      ensures Is(ApplyOp(d, Unregister(addr)).0) && Unregistered(removed) == ApplyOp(d, Unregister(addr)).1
    {
      removed := None;
      if addr.Reactive? {
        var index := GetBehaviorIndex(addr.id);
        if index.Some? {
          ContentsAgrees(reactiveList);
          RemoveAt(reactiveList, index.value);
          removed := Some(reactiveList[index.value].behavior);
          reactiveList := Without(reactiveList, index.value);
        }
      }
    }

    // ---------- sending ----------

    /** `try_send` on the queue behind an address. */
    method Send(to: Addr, msg: Message, ghost d: Engine) returns (failed: Option<Error>)
      requires Is(d)
      modifies this`queue, outside`mailboxes
      ensures Is(Post(d, to, msg).0) && failed == Post(d, to, msg).1
    {
      match to
      case Invalid =>
        failed := Some(AddrUnreachable);
      case Reactive(id) =>
        if !open {
          failed := Some(AddrUnreachable);
        } else if |queue| < capacity {
          queue := queue + [Envelope(id, msg, Posted)];
          failed := None;
        } else {
          failed := Some(QueueFull);
        }
      case Active(id) =>
        if id !in outside.mailboxes {
          failed := Some(AddrUnreachable);
        } else {
          var m := outside.mailboxes[id];
          if |m.rx| < m.capacity {
            outside.mailboxes := outside.mailboxes[id := m.(rx := m.rx + [msg])];
            failed := None;
          } else {
            failed := Some(QueueFull);
          }
        }
    }

    method ReceiveErrResponse(ask: Ask, error: Error, returned: Returned, ghost d: Engine)
      requires Is(d)
      modifies this`queue, outside`mailboxes, outside`answers
      ensures Is(Refuse(d, ask, error, returned))
    {
      var failed := Send(ask.src, Response(ask.id, Err(error, returned)), d);
      outside.answers := outside.answers + [Answer(ask, error, failed)];
    }

    method ReceiveRequest(to: Addr, src: Addr, id: U32, payload: Payload, ghost d: Engine)
      requires Is(d)
      modifies this`queue, outside`mailboxes, outside`answers, outside`issued, outside`mailed
      ensures Is(Engines.ReceiveRequest(d, to, src, id, payload))
    {
      var ask := Ask(to, src, id, payload);
      outside.issued := outside.issued + [ask];
      ghost var d0 := d.(issued := d.issued + [ask]);
      var failed := Send(to, Request(src, id, payload), d0);
      ghost var d1 := Post(d0, to, Request(src, id, payload)).0;
      if failed.Some? {
        var returned := match to
          case Invalid => TheValue(payload)
          case Reactive(_) => TheMessage(Request(src, id, payload))
          case Active(_) => TheBox(payload);
        ReceiveErrResponse(ask, failed.value, returned, d1);
      } else if to.Active? {
        outside.mailed := outside.mailed + [ask];
      }
    }

    // ---------- shutdown ----------

    method DropQueuedMessages(ghost d: Engine)
      requires Is(d)
      modifies this`queue, outside`mailboxes, outside`answers, outside`dropped
      ensures Is(Drain(d)) && queue == []
    {
      ghost var e := d;
      while queue != []
        invariant Is(e) && Drain(e) == Drain(d)
        decreases DrainMeasure(e.queue)
      {
        var v := queue[0];
        queue := queue[1..];
        outside.dropped := outside.dropped + [v];
        if v.msg.Request? {
          ReceiveErrResponse(AskOf(v), ActorDisappeared, TheBox(v.msg.payload),
                             e.(queue := e.queue[1..], dropped := e.dropped + [v]));
        }
        e := DrainOne(e);
      }
    }

    /** `Drop`: the drain and the closing of the queue, taken as one step. */
    method Close(ghost d: Engine)
      requires Is(d)
      modifies this`queue, this`open, outside`mailboxes, outside`answers, outside`dropped
      ensures Is(Drop(d))
    {
      DropQueuedMessages(d);
      open := false;
    }
  }

  /** What a behaviour, and the dispatch loops, act through. */
  class ProcessContext {
    const disp: MpscDispatcher
    const scheduler: TimeoutScheduler
    var ownActorId: ActorId
    var requestIdCounter: U32
    var now: Ticks

    ghost predicate Is(d: Engine)
      reads this, disp, disp.outside, scheduler
    {
      && disp.Is(d) && scheduler.Valid() && d.sched == scheduler.State()
      && d.requestCounter == requestIdCounter && d.now == now
    }

    constructor (disp: MpscDispatcher, requestIdCounter: U32, now: Ticks, scheduler: TimeoutScheduler)
      ensures this.disp == disp && this.scheduler == scheduler
      ensures this.requestIdCounter == requestIdCounter && this.now == now
    {
      this.disp, this.scheduler := disp, scheduler;
      this.ownActorId, this.requestIdCounter, this.now := 0, requestIdCounter, now;
    }

    /** `send_request`: the response will carry the identifier returned here. */
    method SendRequest(to: Addr, payload: Payload, ghost d: Engine) returns (id: U32)
      requires Is(d)
      modifies this`requestIdCounter, disp`queue, disp.outside
      ensures Is(Engines.Execute(d, ownActorId, Command.SendRequest(to, payload)).0)
      ensures Requested(id) == Engines.Execute(d, ownActorId, Command.SendRequest(to, payload)).1
    {
      hide Engines.ReceiveRequest, Contents, StrictlySorted, Sorted;
      requestIdCounter := WrappingIncrement(requestIdCounter);
      disp.ReceiveRequest(to, Reactive(ownActorId), requestIdCounter, payload, d.(requestCounter := requestIdCounter));
      id := requestIdCounter;
    }

    method Execute(c: Command, ghost d: Engine) returns (reply: Reply)
      requires Is(d)
      modifies this`requestIdCounter, disp`queue, disp.outside, scheduler
      ensures Is(Engines.Execute(d, ownActorId, c).0) && reply == Engines.Execute(d, ownActorId, c).1
    {
      match c
      case SendNotification(to, payload) =>
        var failed := disp.Send(to, Notification(payload), d);
        reply := Sent(failed);
      case SendRequest(to, payload) =>
        var id := SendRequest(to, payload, d);
        reply := Requested(id);
      case SendResponse(to, id, payload) =>
        var _ := disp.Send(to, Response(id, Ok(payload)), d);
        reply := NoReply;
      case Schedule(timer, instant) =>
        var t := scheduler.ScheduleUntil(timer, instant, ownActorId, now);
        reply := TimerNow(t);
      case Cancel(timer) =>
        var t := scheduler.Unschedule(timer, ownActorId);
        reply := TimerNow(t);
    }

    /** Let a registered behaviour process a message. */
    method RunBehavior(index: nat, msg: Message, ghost d: Engine)
      requires Is(d) && At(disp.reactiveList, index, ownActorId)
      modifies this`requestIdCounter, disp`queue, disp`reactiveList, disp.outside, scheduler
      ensures var p, b, c := disp.program, old(disp.reactiveList[index].behavior), Context(ownActorId, now);
              Is(RunCommands(p, d, b, c, msg, [], p.bound(b, c, msg)))
    {
      var p, b, c := disp.program, disp.reactiveList[index].behavior, Context(ownActorId, now);
      var replies: seq<Reply>, left := [], p.bound(b, c, msg);
      ghost var e := d;
      var command := p.next(b, c, msg, replies);
      while left > 0 && command.Some?
        invariant Is(e) && disp.reactiveList == old(disp.reactiveList)
        invariant command == p.next(b, c, msg, replies)
        invariant RunCommands(p, e, b, c, msg, replies, left) == RunCommands(p, d, b, c, msg, [], p.bound(b, c, msg))
        decreases left
      {
        var reply := Execute(command.value, e);
        e := Engines.Execute(e, ownActorId, command.value).0;
        replies, left := replies + [reply], left - 1;
        command := p.next(b, c, msg, replies);
      }
      ReplaceAt(disp.reactiveList, index, p.after(b, c, msg, replies));
      disp.reactiveList := disp.reactiveList[index := Slot(ownActorId, p.after(b, c, msg, replies))];
    }

    /** Queue the first pending timeout if it is mature, and put it back if the queue has no room. The result is the
        time to wait, or None when the messages are to be processed again. */
    method TrySendNextPendingTimeout(ghost d: Engine) returns (wait: Option<Duration>)
      requires Is(d) && d.open
      modifies disp`queue, scheduler
      ensures Is(TrySendNextTimeout(d).0) && wait == TrySendNextTimeout(d).1
    {
      if scheduler.timeoutList == [] {
        return Some(DURATION_MAX);
      }
      var first := scheduler.timeoutList[0];
      var toNext := SaturatingSub(first.key.deadline, Finite(now));
      if toNext != 0 {
        return Some(toNext);
      }
      PutBackFirst(scheduler.timeoutList);
      scheduler.timeoutList := RemoveOwned(scheduler.timeoutList, first.key, first.dst);
      if disp.open && |disp.queue| < disp.capacity {
        disp.queue := disp.queue + [Envelope(first.dst, Timeout(first.key.id), Fired(first))];
      } else {
        scheduler.timeoutList := Insert(scheduler.timeoutList, first);
      }
      return None;
    }

    // ---------- processing messages ----------

    method ExecuteFn(ops: seq<RegistryOp>, ghost d: Engine) returns (results: seq<RegistryResult>)
      requires Is(d)
      modifies disp`reactiveList, disp.outside`nextActorId
      ensures Is(ApplyOps(d, ops).0) && results == ApplyOps(d, ops).1
      decreases |ops|
    {
      if ops == [] {
        return [];
      }
      var result;
      match ops[0] {
        case Register(b) =>
          var addr := disp.RegisterReactive(b, d);
          result := NewAddr(addr);
        case Replace(addr, b) =>
          result := disp.ReplaceReactive(addr, b, d);
        case Unregister(addr) =>
          var removed := disp.UnregisterReactive(addr, d);
          result := Unregistered(removed);
      }
      var rest := ExecuteFn(ops[1..], ApplyOp(d, ops[0]).0);
      results := [result] + rest;
    }

    /** The work of a dispatcher request, and the data of its response. */
    method Serve(payload: Payload, ghost d: Engine) returns (answer: Option<Payload>)
      requires Is(d) && Engines.Serve(d, payload).Some?
      modifies disp`queue, disp`reactiveList, disp.outside
      ensures Is(Engines.Serve(d, payload).value.0) && answer == Engines.Serve(d, payload).value.1
    {
      answer := None;
      match payload {
        case RegisterReactive(None) =>
          answer := Some(RegisteredAt(Invalid));
        case RegisterReactive(Some(b)) =>
          var addr := disp.RegisterReactive(b, d);
          answer := Some(RegisteredAt(addr));
        case ExecuteFn(ops) =>
          var results := ExecuteFn(ops, d);
          answer := Some(Executed(results));
        case StopReactive(_) =>
        case StopDispatcher =>
          disp.DropQueuedMessages(d);
          disp.reactiveList := [];
          answer := Some(DispatcherStopped);
      }
    }

    method ProcessDispatcherMessage(msg: Message, ghost d: Engine) returns (stop: bool)
      requires Is(d) && !Engines.ProcessDispatcherMessage(d, msg).Panicking?
      modifies disp`queue, disp`reactiveList, disp.outside
      ensures var v := Engines.ProcessDispatcherMessage(d, msg); Is(v.d) && (stop <==> v.Stopping?)
    {
      var answer := Serve(msg.payload, d);
      if answer.Some? {
        var _ := disp.Send(msg.src, Response(msg.id, Ok(answer.value)), Engines.Serve(d, msg.payload).value.0);
      }
      stop := msg.payload.StopDispatcher?;
    }

    /** Take the oldest message, if any, and process it. */
    method TryProcessMessage(ghost d: Engine) returns (processed: bool, stop: bool)
      requires Is(d) && (d.queue != [] ==> !Process(disp.program, d).Panicking?)
      modifies this`ownActorId, this`requestIdCounter, disp`queue, disp`reactiveList, disp`log, disp.outside, scheduler
      ensures processed <==> d.queue != []
      ensures if processed then Is(Process(disp.program, d).d) && (stop <==> Process(disp.program, d).Stopping?)
              else Is(d) && !stop
    {
      processed, stop := disp.queue != [], false;
      if processed {
        var e := disp.queue[0];
        disp.queue := disp.queue[1..];
        var index := None;
        if e.dst != disp.dispActorId {
          ownActorId := e.dst;
          index := disp.GetBehaviorIndex(e.dst);
        }
        var fate := if e.dst == disp.dispActorId then ByDispatcher else if index.Some? then ByBehavior else NoActor;
        disp.log := disp.log + [Dispatched(now, e, fate)];
        match fate
        case ByDispatcher =>
          stop := ProcessDispatcherMessage(e.msg, Take(d));
        case ByBehavior =>
          ContentsAgrees(disp.reactiveList);
          RunBehavior(index.value, e.msg, Take(d));
        case NoActor =>
          if e.msg.Request? {
            disp.ReceiveErrResponse(AskOf(e), ActorDisappeared, TheBox(e.msg.payload), Take(d));
          }
      }
    }
  }
}
