/** `MpscDispatcher::process` as an object-changing loop, against the steps of the threaded loop. */
module ThreadedDispatchers {
  import opened Instants
  import opened Timers
  import opened Engines
  import opened Dispatchers
  import opened Threaded

  /** The environment of the loop: how much of it has passed. */
  class Environment {
    const moments: seq<Moment>
    var next: nat

    constructor (moments: seq<Moment>)
      ensures this.moments == moments && next == 0
    {
      this.moments, next := moments, 0;
    }

    function Rest(): seq<Moment>
      requires next <= |moments|
      reads this
    {
      moments[next..]
    }
  }

  /** Other threads act on the queues. */
  method PerformArrival(disp: MpscDispatcher, a: Arrival, ghost d: Engine)
    requires disp.Is(d)
    modifies disp`queue, disp.outside
    ensures disp.Is(Arrive(d, a))
  {
    match a
    case Notified(to, payload) =>
      var _ := disp.Send(to, Notification(payload), d);
    case Asked(to, src, id, payload) =>
      disp.ReceiveRequest(to, src, id, payload, d);
    case Answered(to, id, payload) =>
      var _ := disp.Send(to, Response(id, Ok(payload)), d);
    case Taken(owner) =>
      if owner in disp.outside.mailboxes {
        disp.outside.mailboxes := disp.outside.mailboxes[owner := TryGetMessage(disp.outside.mailboxes[owner]).0];
      }
  }

  method PerformArrivals(disp: MpscDispatcher, arrivals: seq<Arrival>, ghost d: Engine)
    requires disp.Is(d)
    modifies disp`queue, disp.outside
    ensures disp.Is(ArriveAll(d, arrivals))
  {
    hide Arrive;
    ghost var e := d;
    for i := 0 to |arrivals|
      invariant disp.Is(e) && ArriveAll(e, arrivals[i..]) == ArriveAll(d, arrivals)
    {
      PerformArrival(disp, arrivals[i], e);
      assert arrivals[i..][0] == arrivals[i] && arrivals[i..][1..] == arrivals[i + 1..];
      e := Arrive(e, arrivals[i]);
    }
  }

  method LetPass(context: ProcessContext, env: Environment, ghost d: Engine)
    requires context.Is(d) && env.next < |env.moments|
    modifies context`now, context.disp`queue, context.disp.outside, env`next
    ensures env.next == old(env.next) + 1
    ensures context.Is(Pass(d, env.moments[old(env.next)]))
  {
    var m := env.moments[env.next];
    PerformArrivals(context.disp, m.arrivals, d);
    context.now := if m.reading < context.now then context.now else m.reading;
    env.next := env.next + 1;
  }

  /** The state of the loop is that of the objects, and what is still to come ends where it must. */
  ghost predicate OnTrack(context: ProcessContext, env: Environment, s: Loop, end: Loop)
    reads context, context.disp, context.disp.outside, context.scheduler, env
  {
    && context.Is(s.d) && s.d.open && env.next <= |env.moments|
    && Steps(context.disp.program, s, env.Rest()) == end && !end.pc.Panicked?
  }

  /** The next moment of the environment, at a loop that is not out. */
  lemma {:induction false} OneStep(p: Program, s: Loop, moments: seq<Moment>, next: nat, end: Loop)
    requires next < |moments| && !Out(s) && Steps(p, s, moments[next..]) == end && !end.pc.Panicked?
    ensures Steps(p, Step(p, s, moments[next]), moments[next + 1..]) == end
    ensures !Step(p, s, moments[next]).pc.Panicked?
  {
    assert moments[next..][0] == moments[next] && moments[next..][1..] == moments[next + 1..];
  }

  /** `try_process_message`, or the end of `block_process_message`. */
  method TryProcess(context: ProcessContext, env: Environment, ghost s: Loop, ghost end: Loop)
    returns (processed: bool, stop: bool, ghost s1: Loop)
    requires OnTrack(context, env, s, end) && env.next < |env.moments| && (s.pc.Draining? || s.pc.Blocking?)
    modifies context, context.disp, context.disp.outside, context.scheduler, env`next
    ensures env.next == old(env.next) + 1 && OnTrack(context, env, s1, end)
    ensures stop <==> s1.pc.Stopped?
    ensures !stop ==> s1.pc == if processed || s.pc.Blocking? then Draining else Firing
  {
    OneStep(context.disp.program, s, env.moments, env.next, end);
    s1 := Step(context.disp.program, s, env.moments[env.next]);
    ghost var d := Pass(s.d, env.moments[env.next]);
    LetPass(context, env, s.d);
    processed, stop := context.TryProcessMessage(d);
  }

  method TryFire(context: ProcessContext, env: Environment, ghost s: Loop, ghost end: Loop)
    returns (wait: Option<Duration>, ghost s1: Loop)
    requires OnTrack(context, env, s, end) && env.next < |env.moments| && s.pc.Firing?
    modifies context`now, context.disp, context.disp.outside, context.scheduler, env`next
    ensures env.next == old(env.next) + 1 && OnTrack(context, env, s1, end)
    ensures s1.pc == match wait case None => Draining case Some(w) => Blocking(w)
  {
    OneStep(context.disp.program, s, env.moments, env.next, end);
    s1 := Step(context.disp.program, s, env.moments[env.next]);
    ghost var d := Pass(s.d, env.moments[env.next]);
    LetPass(context, env, s.d);
    wait := context.TrySendNextPendingTimeout(d);
  }

  /** The innermost loop: process the queued messages. */
  method ProcessQueued(context: ProcessContext, env: Environment, ghost s: Loop, ghost end: Loop)
    returns (stop: bool, over: bool, ghost s1: Loop)
    requires OnTrack(context, env, s, end) && s.pc == Draining
    modifies context, context.disp, context.disp.outside, context.scheduler, env`next
    ensures OnTrack(context, env, s1, end) && env.next >= old(env.next)
    ensures if over then env.next == |env.moments|
            else if stop then s1.pc.Stopped?
            else s1.pc == Firing && env.next > old(env.next)
  {
    s1 := s;
    stop := false;
    while true
      invariant OnTrack(context, env, s1, end) && s1.pc == Draining && env.next >= old(env.next)
      decreases |env.moments| - env.next
    {
      over := env.next == |env.moments|;
      if over {
        return;
      }
      var processed;
      processed, stop, s1 := TryProcess(context, env, s1, end);
      if stop || !processed {
        return;
      }
    }
  }

  /** The middle loop: process messages and mature timeouts, one timeout at a time, until there is neither. */
  method ProcessReady(context: ProcessContext, env: Environment, ghost s: Loop, ghost end: Loop)
    returns (stop: bool, over: bool, toNextTimeout: Duration, ghost s1: Loop)
    requires OnTrack(context, env, s, end) && s.pc == Draining
    modifies context, context.disp, context.disp.outside, context.scheduler, env`next
    ensures OnTrack(context, env, s1, end) && env.next >= old(env.next)
    ensures if over then env.next == |env.moments|
            else if stop then s1.pc.Stopped?
            else s1.pc == Blocking(toNextTimeout)
  {
    s1 := s;
    toNextTimeout := DURATION_MAX;
    while true
      invariant OnTrack(context, env, s1, end) && s1.pc == Draining && env.next >= old(env.next)
      decreases |env.moments| - env.next
    {
      stop, over, s1 := ProcessQueued(context, env, s1, end);
      if stop || over {
        return;
      }
      over := env.next == |env.moments|;
      if over {
        return;
      }
      var wait;
      wait, s1 := TryFire(context, env, s1, end);
      if wait.Some? {
        toNextTimeout := wait.value;
        return;
      }
    }
  }

  /** The three nested loops, as far as a stop or as the environment is observed. */
  method ProcessLoop(disp: MpscDispatcher, env: Environment, now: Ticks, ghost d: Engine, ghost end: Loop)
    returns (context: ProcessContext)
    requires disp.Is(d) && disp.open && d.sched == NEW_SCHEDULER && d.requestCounter == 0 && d.now == now
             && env.next == 0
    requires Steps(disp.program, Loop(d, Draining), env.moments) == end && !end.pc.Panicked?
    modifies disp, disp.outside, env
    ensures context.disp == disp && context.Is(end.d)
    ensures end.pc.Stopped? || env.next == |env.moments|
  {
    hide Step, TrySendNextTimeout, Sorted;
    var scheduler := new TimeoutScheduler();
    context := new ProcessContext(disp, 0, now, scheduler);
    ghost var s := Loop(d, Draining);
    assert env.moments[0..] == env.moments;
    while true
      invariant OnTrack(context, env, s, end) && s.pc == Draining
      decreases |env.moments| - env.next
    {
      var stop, over, toNextTimeout;
      stop, over, toNextTimeout, s := ProcessReady(context, env, s, end);
      if stop || over || env.next == |env.moments| {
        return;
      }
      // nothing to do before a message comes or that time is over
      assert s.pc == Blocking(toNextTimeout);
      var processed;
      processed, stop, s := TryProcess(context, env, s, end);
      if stop {
        return;
      }
    }
  }
}
