/** Runs of the discrete-event simulator. */
module Simulation {
  import opened Instants
  import opened Timers
  import opened Engines

  type Mailboxes = map<ActorId, Mailbox>

  /** A break function with what it has captured: it may change that and take messages out of mailboxes, and it
      asks to break or to continue. */
  datatype Poll<!S> = Poll(memo: S, ask: (S, Mailboxes) -> (S, Mailboxes, bool))

  const NEVER_BREAK: Poll<()> := Poll((), (_: (), boxes: Mailboxes) => ((), boxes, false))

  datatype Reason = StopHandled | Broke | Reached

  /** The end of a run of the simulator, and what the break function has captured by then. */
  datatype Halted<!S> = Halted(d: Engine, why: Reason, poll: Poll<S>)

  datatype TickResult<!S> = Again(d: Engine, poll: Poll<S>) | Halt(out: Halted<S>) | Crash

  /** Past the target, or at the target with nothing left to process. */
  predicate AtTarget(d: Engine, target: Instant, processed: bool) {
    Less(target, Finite(d.now)) || (!processed && Finite(d.now) == target)
  }

  /** Advance to the next deadline if it comes before the target, and else to the target. */
  function Advance(d: Engine, target: Instant, wait: Duration): Engine
    requires wait != DURATION_MAX ==> d.now + wait < DURATION_MAX
  {
    if wait != DURATION_MAX && Less(Add(Finite(d.now), wait), target) then d.(now := d.now + wait)
    else if target.Infinity? then d
    else d.(now := target.ticks)
  }

  /** With the queue empty: queue a mature timeout, or else let time pass. */
  function FireOrAdvance(d: Engine, target: Instant): Engine {
    var (d1, wait) := TrySendNextTimeout(d);
    match wait case None => d1 case Some(w) => Advance(d1, target, w)
  }

  /** One iteration of the innermost loop, together with what follows it when the queue was empty. */
  function Tick<S>(p: Program, poll: Poll<S>, target: Instant, d: Engine): TickResult<S> {
    var processed := d.queue != [];
    var v := if processed then Process(p, d) else Going(d);
    if v.Panicking? then Crash
    else
      var (memo, boxes, break_) := poll.ask(poll.memo, v.d.mailboxes);
      var d1, poll1 := v.d.(mailboxes := boxes), poll.(memo := memo);
      if v.Stopping? then Halt(Halted(d1, StopHandled, poll1))
      else if break_ then Halt(Halted(d1, Broke, poll1))
      else if AtTarget(d1, target, processed) then Halt(Halted(d1, Reached, poll1))
      else if processed then Again(d1, poll1)
      else Again(FireOrAdvance(d1, target), poll1)
  }

  /** The end of the run if it comes within n ticks. */
  function Run<S>(p: Program, poll: Poll<S>, target: Instant, d: Engine, n: nat): Option<Halted<S>>
    decreases n
  {
    if n == 0 then None
    else match Tick(p, poll, target, d)
      case Again(d1, poll1) => Run(p, poll1, target, d1, n - 1)
      case Halt(out) => Some(out)
      case Crash => None
  }

  ghost predicate Ends<S>(p: Program, poll: Poll<S>, target: Instant, d: Engine, out: Halted<S>) {
    exists n: nat :: Run(p, poll, target, d, n) == Some(out)
  }

  lemma {:induction false} EndsByTick<S>(p: Program, poll: Poll<S>, target: Instant, d: Engine, out: Halted<S>)
    ensures Ends(p, poll, target, d, out) <==>
            match Tick(p, poll, target, d)
            case Again(d1, poll1) => Ends(p, poll1, target, d1, out)
            case Halt(o) => o == out
            case Crash => false
  {
    match Tick(p, poll, target, d)
    case Again(d1, poll1) =>
      if n: nat :| Run(p, poll1, target, d1, n) == Some(out) {
        assert Run(p, poll, target, d, n + 1) == Some(out);
      }
      if n: nat :| Run(p, poll, target, d, n) == Some(out) {
        assert Run(p, poll1, target, d1, n - 1) == Some(out);
      }
    case Halt(o) =>
      assert Run(p, poll, target, d, 1) == Some(o);
    case Crash =>
  }

  /** A run has one end at most. */
  lemma {:induction false} OneEnd<S>(p: Program, poll: Poll<S>, target: Instant, d: Engine, m: nat, n: nat)
    requires Run(p, poll, target, d, m).Some? && Run(p, poll, target, d, n).Some?
    ensures Run(p, poll, target, d, m) == Run(p, poll, target, d, n)
    decreases m
  {
    hide Tick;
    match Tick(p, poll, target, d)
    case Again(d1, poll1) => OneEnd(p, poll1, target, d1, m - 1, n - 1);
    case _ =>
  }

  /** Before the target a tick does not take the clock beyond it. */
  lemma TickWithin<S>(p: Program, poll: Poll<S>, target: Instant, d: Engine)
    ensures Tick(p, poll, target, d).Again? && AtMost(Finite(d.now), target) ==>
            AtMost(Finite(Tick(p, poll, target, d).d.now), target)
    ensures Tick(p, poll, target, d).Halt? ==> Tick(p, poll, target, d).out.d.now == d.now
  {
  }

  lemma NeverBreakStays(p: Program, target: Instant, d: Engine)
    ensures Tick(p, NEVER_BREAK, target, d).Again? ==> Tick(p, NEVER_BREAK, target, d).poll == NEVER_BREAK
  {
  }

  /** A run that was ended neither by a stop nor by its break function, and that did not start past its target, ends
      exactly at the target and with nothing left to process. */
  lemma {:induction false} RunEndsAtTarget<S>(p: Program, poll: Poll<S>, target: Instant, d: Engine, out: Halted<S>,
                                              n: nat)
    requires Run(p, poll, target, d, n) == Some(out) && AtMost(Finite(d.now), target)
    requires out.why == Reached
    ensures Finite(out.d.now) == target && out.d.queue == []
    decreases n
  {
    TickWithin(p, poll, target, d);
    match Tick(p, poll, target, d)
    case Again(d1, poll1) => RunEndsAtTarget(p, poll1, target, d1, out, n - 1);
    case _ =>
  }

  /** Nothing can fire any more: with an infinite target the simulator then idles for ever. */
  lemma {:induction false} IdleForEver(p: Program, d: Engine, n: nat)
    requires d.queue == []
    requires d.sched.list == [] || d.sched.list[0].key.deadline.Infinity?
    ensures Run(p, NEVER_BREAK, Infinity, d, n) == None
  {
    if n > 0 {
      assert Tick(p, NEVER_BREAK, Infinity, d) == Again(d, NEVER_BREAK);
      IdleForEver(p, d, n - 1);
    }
  }
}
