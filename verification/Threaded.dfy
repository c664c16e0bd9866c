/** The threaded dispatch loop, in an environment of other threads and of a clock that never goes back. */
module Threaded {
  import opened Instants
  import opened Timers
  import opened Engines
  import opened Simulation
  import opened Timing

  /** What other threads may do to the queues between two steps of the loop. */
  datatype Arrival =
    | Notified(to: Addr, payload: Payload)
    | Asked(to: Addr, src: Addr, id: U32, payload: Payload)
    | Answered(to: Addr, id: U32, payload: Payload)
    | Taken(owner: ActorId)

  function Arrive(d: Engine, a: Arrival): (r: Engine)
    ensures r.now == d.now && r.sched == d.sched && r.log == d.log && r.capacity == d.capacity && r.open == d.open
    ensures r.requestCounter == d.requestCounter
  {
    match a
    case Notified(to, payload) => Post(d, to, Notification(payload)).0
    case Asked(to, src, id, payload) => ReceiveRequest(d, to, src, id, payload)
    case Answered(to, id, payload) => Post(d, to, Response(id, Ok(payload))).0
    case Taken(owner) =>
      if owner in d.mailboxes then d.(mailboxes := d.mailboxes[owner := TryGetMessage(d.mailboxes[owner]).0]) else d
  }

  function ArriveAll(d: Engine, arrivals: seq<Arrival>): (r: Engine)
    ensures r.now == d.now && r.sched == d.sched && r.log == d.log && r.capacity == d.capacity && r.open == d.open
    ensures r.requestCounter == d.requestCounter
    decreases |arrivals|
  {
    if arrivals == [] then d else ArriveAll(Arrive(d, arrivals[0]), arrivals[1..])
  }

  /** The environment up to the next step: what arrived, and a reading of the clock. */
  datatype Moment = Moment(arrivals: seq<Arrival>, reading: Ticks)

  /** The monotonic clock of the system. */
  function Later(d: Engine, reading: Ticks): Ticks {
    if reading < d.now then d.now else reading
  }

  function Pass(d: Engine, m: Moment): Engine {
    ArriveAll(d, m.arrivals).(now := Later(d, m.reading))
  }

  /** Where the loop is: about to take a message, to look at the timeouts, to block for a time, or out. */
  datatype Pc = Draining | Firing | Blocking(wait: Duration) | Stopped | Panicked

  datatype Loop = Loop(d: Engine, pc: Pc)

  predicate Out(s: Loop) {
    s.pc.Stopped? || s.pc.Panicked?
  }

  function TakeOne(p: Program, d: Engine): Loop
    requires d.queue != []
  {
    match Process(p, d)
    case Going(r) => Loop(r, Draining)
    case Stopping(r) => Loop(r, Stopped)
    case Panicking => Loop(d, Panicked)
  }

  /** One atomic step of the loop: `try_recv`, `try_send_next_pending_timeout`, or the end of `recv_timeout`. */
  function Step(p: Program, s: Loop, m: Moment): Loop {
    var d := Pass(s.d, m);
    match s.pc
    case Draining => if d.queue != [] then TakeOne(p, d) else Loop(d, Firing)
    case Firing =>
      var (r, wait) := TrySendNextTimeout(d);
      Loop(r, match wait case None => Draining case Some(w) => Blocking(w))
    case Blocking(_) => if d.queue != [] then TakeOne(p, d) else Loop(d, Draining)
    case _ => s
  }

  function Steps(p: Program, s: Loop, env: seq<Moment>): Loop
    decreases |env|
  {
    if env == [] || Out(s) then s else Steps(p, Step(p, s, env[0]), env[1..])
  }

  // ---------- never early ----------

  predicate NotEarly(v: Envelope, at: Ticks) {
    Genuine(v) && (v.origin.Fired? ==> AtMost(v.origin.entry.key.deadline, Finite(at)))
  }

  /** No timeout is queued or processed before its deadline, and the wait of a blocked loop ends exactly at the least
      pending deadline, as seen from the last reading of the clock. */
  ghost predicate Punctual(s: Loop) {
    && Sorted(s.d.sched.list)
    && (forall i :: 0 <= i < |s.d.queue| ==> NotEarly(s.d.queue[i], s.d.now))
    && (forall i :: 0 <= i < |s.d.log| ==> NotEarly(s.d.log[i].envelope, s.d.log[i].at) && s.d.log[i].at <= s.d.now)
    && (s.pc.Blocking? ==> BlocksUntilLeast(s))
  }

  predicate BlocksUntilLeast(s: Loop)
    requires s.pc.Blocking?
  {
    && s.pc.wait > 0
    && if s.d.sched.list == [] then s.pc.wait == DURATION_MAX
       else AddFits(Finite(s.d.now), s.pc.wait) && Add(Finite(s.d.now), s.pc.wait) == s.d.sched.list[0].key.deadline
  }

  lemma {:induction false} ArriveEffect(d: Engine, a: Arrival)
    ensures forall v :: v in Arrive(d, a).queue ==> v in d.queue || (v.origin.Posted? && !v.msg.Timeout?)
  {
    match a
    case Notified(to, payload) => PostEffect(d, to, Notification(payload));
    case Asked(to, src, id, payload) => ReceiveRequestEffect(d, to, src, id, payload);
    case Answered(to, id, payload) => PostEffect(d, to, Response(id, Ok(payload)));
    case Taken(owner) =>
  }

  lemma {:induction false} ArriveAllEffect(d: Engine, arrivals: seq<Arrival>)
    ensures forall v :: v in ArriveAll(d, arrivals).queue ==> v in d.queue || (v.origin.Posted? && !v.msg.Timeout?)
    decreases |arrivals|
  {
    if arrivals != [] {
      ArriveEffect(d, arrivals[0]);
      ArriveAllEffect(Arrive(d, arrivals[0]), arrivals[1..]);
    }
  }

  lemma PassKeepsPunctual(s: Loop, m: Moment)
    requires Punctual(s)
    ensures Punctual(Loop(Pass(s.d, m), Draining)) && Pass(s.d, m).now >= s.d.now
  {
    ArriveAllEffect(s.d, m.arrivals);
    var d := Pass(s.d, m);
    forall i | 0 <= i < |d.queue| ensures NotEarly(d.queue[i], d.now) {
      assert d.queue[i] in d.queue;
      if d.queue[i] in s.d.queue {
        var j :| 0 <= j < |s.d.queue| && s.d.queue[j] == d.queue[i];
      }
    }
  }

  lemma {:induction false} TakeOneKeepsPunctual(p: Program, d: Engine)
    requires d.queue != [] && Punctual(Loop(d, Draining))
    ensures Punctual(TakeOne(p, d))
  {
    if !Process(p, d).Panicking? {
      ProcessEffect(p, d);
      var r := Process(p, d).d;
      forall i | 0 <= i < |r.queue| ensures NotEarly(r.queue[i], r.now) {
        assert r.queue[i] in r.queue;
        if r.queue[i] in Take(d).queue {
          var j :| 0 <= j < |Take(d).queue| && Take(d).queue[j] == r.queue[i];
          assert d.queue[j + 1] == r.queue[i];
        }
      }
    }
  }

  lemma StepKeepsPunctual(p: Program, s: Loop, m: Moment)
    requires Punctual(s)
    ensures Punctual(Step(p, s, m)) && Step(p, s, m).d.now >= s.d.now
  {
    PassKeepsPunctual(s, m);
    var d := Pass(s.d, m);
    if s.pc.Firing? {
      FiringKeepsPunctual(d);
    } else if !Out(s) && d.queue != [] {
      TakeOneKeepsPunctual(p, d);
    }
  }

  /** The timeout moved to the queue is the first of the map, and is mature; the map loses just that entry. */
  lemma FiringKeepsPunctual(d: Engine)
    requires Punctual(Loop(d, Draining))
    ensures var (r, wait) := TrySendNextTimeout(d);
            && Punctual(Loop(r, match wait case None => Draining case Some(w) => Blocking(w)))
            && (r == d || (d.sched.list != [] && r.sched.list == d.sched.list[1..] && |d.queue| < d.capacity
                           && r.queue == d.queue + [TimeoutOf(d.sched.list[0])]
                           && forall i :: 1 <= i < |d.sched.list| ==>
                              KeyLess(d.sched.list[0].key, d.sched.list[i].key)))
  {
  }

  /** For every environment: no timeout is early, and every block ends at the least deadline. */
  lemma {:induction false} LoopIsPunctual(p: Program, s: Loop, env: seq<Moment>)
    requires Punctual(s)
    ensures Punctual(Steps(p, s, env)) && Steps(p, s, env).d.now >= s.d.now
    decreases |env|
  {
    if env != [] && !Out(s) {
      StepKeepsPunctual(p, s, env[0]);
      LoopIsPunctual(p, Step(p, s, env[0]), env[1..]);
    }
  }

  lemma {:induction false} LastStep(p: Program, s: Loop, env: seq<Moment>)
    requires env != [] && !Out(Steps(p, s, env))
    ensures var before := Steps(p, s, env[..|env| - 1]);
            !Out(before) && Steps(p, s, env) == Step(p, before, env[|env| - 1])
    decreases |env|
  {
    hide Step;
    if |env| == 1 {
      assert env[1..] == [];
    } else {
      LastStep(p, Step(p, s, env[0]), env[1..]);
      assert env[1..][..|env| - 2] == env[..|env| - 1][1..];
    }
  }

  lemma WhereFrom(p: Program, s: Loop, m: Moment)
    requires !Out(s)
    ensures var r, d := Step(p, s, m), Pass(s.d, m);
            && (r.pc.Blocking? ==> s.pc.Firing? && r.d == d && TrySendNextTimeout(d).1 == Some(r.pc.wait))
            && (r.pc.Firing? ==> s.pc.Draining? && r.d == d && d.queue == [])
  {
  }

  /** Before the loop blocks it saw the queue empty, and then looked at the timeouts; what arrives in between does
      not make it look again, but ends the block at once. */
  lemma {:induction false} BlocksAfterEmptyQueue(p: Program, s: Loop, env: seq<Moment>)
    requires s.pc.Draining? && Steps(p, s, env).pc.Blocking?
    ensures |env| >= 2
    ensures var n := |env| - 2;
            var before := Steps(p, s, env[..n]); var seen := Pass(before.d, env[n]); var r := Steps(p, s, env);
            && before.pc == Draining && seen.queue == []
            && r.d == Pass(seen, env[n + 1]) && TrySendNextTimeout(r.d).1 == Some(r.pc.wait)
  {
    hide Step, Pass, TrySendNextTimeout;
    LastStep(p, s, env);
    var shorter := env[..|env| - 1];
    WhereFrom(p, Steps(p, s, shorter), env[|env| - 1]);
    LastStep(p, s, shorter);
    WhereFrom(p, Steps(p, s, shorter[..|shorter| - 1]), shorter[|shorter| - 1]);
    assert shorter[..|shorter| - 1] == env[..|env| - 2];
  }

  /** A loop that is about to take a message, or that wakes up from a block, processes the oldest message that is
      there by then, and goes on unless that was a stop. */
  lemma MessageIsTaken(p: Program, s: Loop, m: Moment)
    requires (s.pc.Draining? || s.pc.Blocking?) && Pass(s.d, m).queue != []
    ensures var d, r := Pass(s.d, m), Step(p, s, m);
            match Process(p, d)
            case Going(e) => r == Loop(e, Draining)
            case Stopping(e) => r == Loop(e, Stopped)
            case Panicking => r.pc == Panicked
  {
  }

  // ---------- the simulator is the threaded loop in an ideal environment ----------

  /** Nothing arrives, processing takes no time, and a block lasts exactly as long as asked. */
  function Ideal(s: Loop): Moment {
    Moment([], if s.pc.Blocking? && s.d.now + s.pc.wait < DURATION_MAX then s.d.now + s.pc.wait else s.d.now)
  }

  function IdealSteps(p: Program, s: Loop, k: nat): Loop
    decreases k
  {
    if k == 0 || Out(s) then s else IdealSteps(p, Step(p, s, Ideal(s)), k - 1)
  }

  /** The loop has done all it does before the target: stopped, or waiting with nothing to process. */
  predicate DoneBefore(s: Loop, target: Instant) {
    match s.pc
    case Stopped => true
    case Draining => s.d.queue == [] && Finite(s.d.now) == target
    case Blocking(wait) => s.d.queue == []
                           && (wait == DURATION_MAX || !AddFits(Finite(s.d.now), wait)
                               || AtMost(target, Add(Finite(s.d.now), wait)))
    case _ => false
  }

  lemma {:induction false} IdealStepsAdd(p: Program, s: Loop, j: nat, k: nat)
    ensures IdealSteps(p, s, j + k) == IdealSteps(p, IdealSteps(p, s, j), k)
    decreases j
  {
    hide Step;
    if j > 0 && !Out(s) {
      IdealStepsAdd(p, Step(p, s, Ideal(s)), j - 1, k);
    }
  }

  /** Time passes up to the target: nothing is due before it. */
  predicate NothingDueBefore(d: Engine, target: Instant) {
    match TrySendNextTimeout(d).1
    case None => false
    case Some(w) => w == DURATION_MAX || AtMost(target, Add(Finite(d.now), w))
  }

  /** A tick of the simulator is one, two or three ideal steps: process; see the queue empty and fire; or see it
      empty, block and wake up. */
  lemma {:induction false} TickIsIdealSteps(p: Program, target: Instant, d: Engine) returns (j: nat)
    requires Tick(p, NEVER_BREAK, target, d).Again? && AtMost(Finite(d.now), target)
    requires d.queue == [] ==> !NothingDueBefore(d, target)
    ensures IdealSteps(p, Loop(d, Draining), j) == Loop(Tick(p, NEVER_BREAK, target, d).d, Draining)
  {
    var s := Loop(d, Draining);
    if d.queue != [] {
      j := 1;
      assert Step(p, s, Ideal(s)) == Loop(Tick(p, NEVER_BREAK, target, d).d, Draining);
    } else {
      var s1 := Loop(d, Firing);
      assert Step(p, s, Ideal(s)) == s1;
      var (r, wait) := TrySendNextTimeout(d);
      var s2 := Loop(r, match wait case None => Draining case Some(w) => Blocking(w));
      assert Step(p, s1, Ideal(s1)) == s2;
      if wait.None? {
        j := 2;
      } else {
        j := 3;
        assert Step(p, s2, Ideal(s2)) == Loop(FireOrAdvance(d, target), Draining);
      }
    }
  }

  /** Once nothing is due before the target, the simulator advances to it and ends there. */
  lemma {:induction false} EndAtTarget(p: Program, target: Instant, d: Engine, out: Halted<()>, n: nat)
    requires Run(p, NEVER_BREAK, target, d, n) == Some(out)
    requires d.queue == [] && NothingDueBefore(d, target) && Less(Finite(d.now), target)
    ensures target.Finite? && out == Halted(d.(now := target.ticks), Reached, NEVER_BREAK)
  {
    if target.Infinity? {
      IdleForEver(p, d, n);
    } else {
      var d1 := d.(now := target.ticks);
      assert Tick(p, NEVER_BREAK, target, d) == Again(d1, NEVER_BREAK);
      assert Tick(p, NEVER_BREAK, target, d1) == Halt(Halted(d1, Reached, NEVER_BREAK));
      assert Run(p, NEVER_BREAK, target, d1, n - 1) == Some(out);
    }
  }

  /** The tick that ends the run. */
  lemma {:induction false} LastTick(p: Program, target: Instant, d: Engine, out: Halted<()>) returns (k: nat)
    requires Tick(p, NEVER_BREAK, target, d) == Halt(out) && AtMost(Finite(d.now), target)
    ensures SameUpTo(IdealSteps(p, Loop(d, Draining), k), out, target)
  {
    var s := Loop(d, Draining);
    assert Step(p, s, Ideal(s)) == if d.queue != [] then TakeOne(p, d) else Loop(d, Firing);
    k := if d.queue == [] then 0 else 1;
  }

  /** Up to the target the threaded loop in an ideal environment and the simulator do the same: same dispatch log, same
      behaviours, timers, mailboxes, queue and counters. Only the clock of the blocked loop has not moved yet. */
  lemma {:induction false} SimulatorIsIdealLoop(p: Program, target: Instant, d: Engine, out: Halted<()>, n: nat)
    returns (k: nat)
    requires Run(p, NEVER_BREAK, target, d, n) == Some(out) && AtMost(Finite(d.now), target)
    ensures SameUpTo(IdealSteps(p, Loop(d, Draining), k), out, target)
    decreases n
  {
    NeverBreakStays(p, target, d);
    hide Tick, Step, NothingDueBefore, SameUpTo;
    if d.queue == [] && NothingDueBefore(d, target) && Less(Finite(d.now), target) {
      EndAtTarget(p, target, d, out, n);
      IdealBlock(p, target, d, out);
      k := 2;
    } else if Tick(p, NEVER_BREAK, target, d).Again? {
      var d1 := Tick(p, NEVER_BREAK, target, d).d;
      TickWithin(p, NEVER_BREAK, target, d);
      AgainMeansDue(p, target, d);
      var j := TickIsIdealSteps(p, target, d);
      k := SimulatorIsIdealLoop(p, target, d1, out, n - 1);
      IdealStepsAdd(p, Loop(d, Draining), j, k);
      k := j + k;
    } else {
      k := LastTick(p, target, d, out);
    }
  }

  lemma AgainMeansDue(p: Program, target: Instant, d: Engine)
    requires Tick(p, NEVER_BREAK, target, d).Again? && AtMost(Finite(d.now), target)
    ensures d.queue == [] ==> Less(Finite(d.now), target)
  {
  }

  predicate SameUpTo(s: Loop, out: Halted<()>, target: Instant) {
    && DoneBefore(s, target) && (s.pc.Stopped? <==> out.why == StopHandled)
    && out.d == s.d.(now := out.d.now) && (s.pc.Stopped? ==> out.d == s.d)
  }

  lemma {:induction false} IdealBlock(p: Program, target: Instant, d: Engine, out: Halted<()>)
    requires d.queue == [] && NothingDueBefore(d, target) && target.Finite?
             && out == Halted(d.(now := target.ticks), Reached, NEVER_BREAK)
    ensures SameUpTo(IdealSteps(p, Loop(d, Draining), 2), out, target)
  {
    var s := Loop(d, Draining);
    assert Step(p, s, Ideal(s)) == Loop(d, Firing);
    var s1 := Loop(d, Firing);
    assert Step(p, s1, Ideal(s1)) == Loop(d, Blocking(TrySendNextTimeout(d).1.value));
    assert IdealSteps(p, s, 2) == Loop(d, Blocking(TrySendNextTimeout(d).1.value));
  }
}
