/** The simulation dispatcher as an object: its loops against the ticks of the simulator. */
module SimulationDispatchers {
  import opened Instants
  import opened Timers
  import opened Engines
  import opened Simulation
  import opened Timing
  import opened Waiting
  import opened Dispatchers

  class SimulatedInstantSource {
    var elapsedDuration: Duration
    var simulatedNow: Ticks
    ghost const start: Ticks

    ghost predicate Valid()
      reads this
    {
      simulatedNow == start + elapsedDuration
    }

    constructor (now: Ticks)
      ensures Valid() && simulatedNow == now
    {
      elapsedDuration, simulatedNow, start := 0, now, now;
    }

    method AdvanceFor(duration: Duration)
      requires Valid() && simulatedNow + duration < DURATION_MAX
      modifies this
      ensures Valid() && simulatedNow == old(simulatedNow) + duration
    {
      elapsedDuration := elapsedDuration + duration;
      simulatedNow := simulatedNow + duration;
    }

    /** The program panics on an infinite instant. */
    method AdvanceUntil(instant: Instant)
      requires Valid() && instant.Finite? && simulatedNow <= instant.ticks
      modifies this
      ensures Valid() && simulatedNow == instant.ticks
    {
      elapsedDuration := elapsedDuration + (instant.ticks - simulatedNow);
      simulatedNow := instant.ticks;
    }
  }

  class SimulationDispatcher {
    const disp: MpscDispatcher
    const timeoutScheduler: TimeoutScheduler
    const instantSource: SimulatedInstantSource
    var requestIdCounterBackup: U32

    ghost predicate Is(d: Engine)
      reads this, disp, disp.outside, timeoutScheduler, instantSource
    {
      && disp.Is(d) && d.open && timeoutScheduler.Valid() && d.sched == timeoutScheduler.State()
      && instantSource.Valid() && d.now == instantSource.simulatedNow && d.requestCounter == requestIdCounterBackup
    }

    constructor (program: Program, queueSize: nat, outside: Surroundings, now: Ticks)
      modifies outside`nextActorId
      ensures Is(Engine(old(outside.nextActorId), true, queueSize, [], map[], NEW_SCHEDULER, 0, outside.mailboxes, now,
                        old(outside.nextActorId) + 1, outside.issued, outside.mailed, outside.answers,
                        outside.dropped, []))
      ensures fresh(disp) && fresh(timeoutScheduler) && fresh(instantSource) && disp.outside == outside
    {
      disp := new MpscDispatcher(program, queueSize, outside);
      timeoutScheduler := new TimeoutScheduler();
      instantSource := new SimulatedInstantSource(now);
      requestIdCounterBackup := 0;
    }

    /** The body of the innermost loop: process a message if there is one, and ask the break function. */
    method ProcessAndPoll<S>(context: ProcessContext, instant: Instant, breakFunc: Poll<S>,
                             ghost d: Engine, ghost n: nat, ghost out: Halted<S>)
      returns (processed: bool, stop: bool, poll: Poll<S>, ghost e: Engine)
      requires context.disp == disp && context.scheduler == timeoutScheduler && context.Is(d)
      requires Run(disp.program, breakFunc, instant, d, n) == Some(out)
      modifies context`ownActorId, context`requestIdCounter, disp, disp.outside, timeoutScheduler
      ensures context.Is(e) && e.open == d.open && e.now == d.now && n > 0
      ensures if stop then e == out.d && poll == out.poll
              else if processed then Run(disp.program, poll, instant, e, n - 1) == Some(out)
              else e.queue == [] && !AtTarget(e, instant, false)
                   && Run(disp.program, poll, instant, FireOrAdvance(e, instant), n - 1) == Some(out)
    {
      ghost var v := if d.queue != [] then Process(disp.program, d) else Going(d);
      processed, stop := context.TryProcessMessage(d);
      var (memo, boxes, break_) := breakFunc.ask(breakFunc.memo, disp.outside.mailboxes);
      poll := breakFunc.(memo := memo);
      disp.outside.mailboxes := boxes;
      if break_ {
        stop := true;
      } else {
        var now := Finite(context.now);
        if Less(instant, now) || (!processed && now == instant) {
          stop := true;
        }
      }
      e := v.d.(mailboxes := boxes);
    }

    /** The innermost loop: all queued messages are processed, and the break function asked after each of them and once
        more when the queue is empty. Unless it stops, it leaves the queue empty just before time may pass. */
    method ProcessQueuedMessages<S>(context: ProcessContext, instant: Instant, breakFunc: Poll<S>,
                                    ghost d: Engine, ghost n: nat, ghost out: Halted<S>)
      returns (stop: bool, poll: Poll<S>, ghost e: Engine, ghost left: nat)
      requires context.disp == disp && context.scheduler == timeoutScheduler && context.Is(d)
      requires Run(disp.program, breakFunc, instant, d, n) == Some(out)
      modifies context`ownActorId, context`requestIdCounter, disp, disp.outside, timeoutScheduler
      ensures context.Is(e) && e.open == d.open && e.now == d.now
      ensures if stop then e == out.d && poll == out.poll
              else e.queue == [] && left < n && !AtTarget(e, instant, false)
                   && Run(disp.program, poll, instant, FireOrAdvance(e, instant), left) == Some(out)
    {
      hide Tick, FireOrAdvance;
      poll, e, left := breakFunc, d, n;
      while true
        invariant context.Is(e) && e.open == d.open && e.now == d.now
        invariant Run(disp.program, poll, instant, e, left) == Some(out) && left <= n
        decreases left
      {
        var processed;
        processed, stop, poll, e := ProcessAndPoll(context, instant, poll, e, left, out);
        left := left - 1;
        if stop || !processed {
          return;
        }
      }
    }

    /** With the queue empty: fire, or move the clock. */
    method FireOrMoveClock(context: ProcessContext, instant: Instant, ghost d: Engine)
      requires context.disp == disp && context.scheduler == timeoutScheduler && context.Is(d) && Is(d)
      requires d.queue == [] && !AtTarget(d, instant, false)
      modifies disp`queue, timeoutScheduler, instantSource
      ensures Is(FireOrAdvance(d, instant))
    {
      var wait := context.TrySendNextPendingTimeout(d);
      if wait.Some? {
        if wait.value != DURATION_MAX && Less(Add(Finite(instantSource.simulatedNow), wait.value), instant) {
          instantSource.AdvanceFor(wait.value);
        } else if instant.Infinity? {
        } else {
          instantSource.AdvanceUntil(instant);
        }
      }
    }

    /** The three nested loops, with any break function. The call returns at all exactly when the run ends in some
        number n of ticks; the objects are then where the ticks end. */
    method ProcessUntilCond<S>(instant: Instant, breakFunc: Poll<S>, ghost d: Engine, ghost n: nat,
                               ghost out: Halted<S>)
      returns (poll: Poll<S>)
      requires Is(d) && Run(disp.program, breakFunc, instant, d, n) == Some(out)
      modifies this, disp, disp.outside, timeoutScheduler, instantSource
      ensures Is(out.d) && poll == out.poll
    {
      poll := breakFunc;
      ghost var e, left := d, n;
      var stop := false;
      while !stop
        invariant if stop then Is(out.d) && poll == out.poll
                  else Is(e) && Run(disp.program, poll, instant, e, left) == Some(out)
        decreases !stop, left
      {
        while true
          invariant Is(e) && Run(disp.program, poll, instant, e, left) == Some(out) && !stop
          decreases left
        {
          var context := new ProcessContext(disp, requestIdCounterBackup, instantSource.simulatedNow, timeoutScheduler);
          stop, poll, e, left := ProcessQueuedMessages(context, instant, poll, e, left, out);
          requestIdCounterBackup := context.requestIdCounter;
          if stop {
            break;
          }
          FireOrMoveClock(context, instant, e);
          e := FireOrAdvance(e, instant);
        }
      }
    }

    method ProcessUntil(instant: Instant, ghost d: Engine, ghost n: nat, ghost out: Halted<()>)
      requires Is(d) && Run(disp.program, NEVER_BREAK, instant, d, n) == Some(out)
      modifies this, disp, disp.outside, timeoutScheduler, instantSource
      ensures Is(out.d)
    {
      var _ := ProcessUntilCond(instant, NEVER_BREAK, d, n, out);
    }

    method ProcessFor(duration: Duration, ghost d: Engine, ghost n: nat, ghost out: Halted<()>)
      requires Is(d) && AddFits(Finite(d.now), duration)
      requires Run(disp.program, NEVER_BREAK, Add(Finite(d.now), duration), d, n) == Some(out)
      modifies this, disp, disp.outside, timeoutScheduler, instantSource
      ensures Is(out.d)
    {
      ProcessUntil(Add(Finite(instantSource.simulatedNow), duration), d, n, out);
    }

    /** Wait until an instant for a message to an active actor, or until the function of the caller breaks. The
        result is the message found at the first tick of the simulator that finds one, and None if the simulator
        ends before. */
    method ActiveWaitMessageUntilCond<S(!new)>(id: ActorId, instant: Instant, breakFunc: Poll<S>, ghost d: Engine,
                                               ghost n: nat, ghost out: Halted<(S, Option<Message>)>)
      returns (msg: Option<Message>, ghost k: nat)
      requires Is(d) && Run(disp.program, WaitFor(id, breakFunc), instant, d, n) == Some(out)
      modifies this, disp, disp.outside, timeoutScheduler, instantSource
      ensures Is(out.d) && msg == out.poll.memo.1
      ensures NothingBefore(disp.program, breakFunc, instant, d, id, k)
              && After(disp.program, breakFunc, instant, d, k).Some?
      ensures var e := Polled(disp.program, After(disp.program, breakFunc, instant, d, k).value.0);
              if InboxEmpty(e, id) then msg == None
              else
                var (box, first) := TryGetMessage(e.mailboxes[id]);
                msg == first && out.d == e.(mailboxes := e.mailboxes[id := box])
    {
      k := WaitStopsAtFirstMessage(disp.program, breakFunc, instant, d, id, out, n);
      var poll := ProcessUntilCond(instant, WaitFor(id, breakFunc), d, n, out);
      msg := poll.memo.1;
    }

    /** The same without a function of the caller. */
    method ActiveWaitMessageUntil(id: ActorId, instant: Instant, ghost d: Engine, ghost n: nat,
                                  ghost out: Halted<((), Option<Message>)>)
      returns (msg: Option<Message>, ghost k: nat)
      requires Is(d) && Run(disp.program, WaitFor(id, NEVER_BREAK), instant, d, n) == Some(out)
      modifies this, disp, disp.outside, timeoutScheduler, instantSource
      ensures Is(out.d) && msg == out.poll.memo.1
      ensures NothingBefore(disp.program, NEVER_BREAK, instant, d, id, k)
              && After(disp.program, NEVER_BREAK, instant, d, k).Some?
      ensures var e := Polled(disp.program, After(disp.program, NEVER_BREAK, instant, d, k).value.0);
              && OnlyReceives(d.mailboxes, e.mailboxes)
              && if InboxEmpty(e, id) then msg == None
                 else
                   var (box, first) := TryGetMessage(e.mailboxes[id]);
                   msg == first && out.d == e.(mailboxes := e.mailboxes[id := box])
    {
      hide Tick, After, Polled, NothingBefore, TryGetMessage, WaitFor;
      msg, k := ActiveWaitMessageUntilCond(id, instant, NEVER_BREAK, d, n, out);
      WaitingOnlyReceives(disp.program, instant, d, k);
    }

    /** Send a request of an active actor, and look at the first message that its mailbox gives until the instant. */
    method ActiveRequestUntilCond<S(!new)>(id: ActorId, requestId: U32, dst: Addr, payload: Payload,
                                           expected: ActiveMailboxes.Expected, instant: Instant, breakFunc: Poll<S>,
                                           ghost d: Engine, ghost n: nat, ghost out: Halted<(S, Option<Message>)>)
      returns (result: RequestResult)
      requires Is(d)
      requires Run(disp.program, WaitFor(id, breakFunc), instant,
                   ReceiveRequest(d, dst, Active(id), requestId, payload), n) == Some(out)
      modifies this, disp, disp.outside, timeoutScheduler, instantSource
      ensures Is(out.d) && result == Judge(out.poll.memo.1, requestId, expected)
    {
      disp.ReceiveRequest(dst, Active(id), requestId, payload, d);
      ghost var sent := ReceiveRequest(d, dst, Active(id), requestId, payload);
      var msg, _ := ActiveWaitMessageUntilCond(id, instant, breakFunc, sent, n, out);
      result := NoMessage;
      if msg.Some? {
        match msg.value {
          case Response(responseId, outcome) =>
            if responseId == requestId {
              match outcome {
                case Ok(data) => result := if expected(data) then Answered(data) else DowncastFailed;
                case Err(error, _) => result := Failed(error);
              }
            }
          case _ =>
        }
      }
    }
  }
}
