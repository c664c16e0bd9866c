/** What splitting a simulated interval does to a run. */
module Splitting {
  import opened Instants
  import opened Timers
  import opened Engines
  import opened Simulation
  import opened Ordering

  /** The run up to t2 with a pause at t1: after a stop before the pause nothing more is run. */
  ghost predicate EndsInTwo(p: Program, t1: Instant, t2: Instant, d: Engine, out: Halted<()>) {
    exists mid: Halted<()> :: Ends(p, NEVER_BREAK, t1, d, mid) &&
                          if mid.why == StopHandled then out == mid else Ends(p, NEVER_BREAK, t2, mid.d, out)
  }

  lemma {:induction false} EndsInTwoByTick(p: Program, t1: Instant, t2: Instant, d: Engine, d1: Engine, out: Halted<()>)
    requires Tick(p, NEVER_BREAK, t1, d) == Again(d1, NEVER_BREAK)
    ensures EndsInTwo(p, t1, t2, d, out) <==> EndsInTwo(p, t1, t2, d1, out)
  {
    forall mid: Halted<()> ensures Ends(p, NEVER_BREAK, t1, d, mid) <==> Ends(p, NEVER_BREAK, t1, d1, mid) {
      EndsByTick(p, NEVER_BREAK, t1, d, mid);
    }
  }

  lemma {:induction false} EndsInTwoByHalt(p: Program, t1: Instant, t2: Instant, d: Engine, mid: Halted<()>,
                                           out: Halted<()>)
    requires Tick(p, NEVER_BREAK, t1, d) == Halt(mid)
    ensures EndsInTwo(p, t1, t2, d, out) <==>
            if mid.why == StopHandled then out == mid else Ends(p, NEVER_BREAK, t2, mid.d, out)
  {
    forall m: Halted<()> ensures Ends(p, NEVER_BREAK, t1, d, m) <==> m == mid {
      EndsByTick(p, NEVER_BREAK, t1, d, m);
    }
  }

  /** The only ticks that differ between the two runs: the first one ends at t1, or advances to t1 where
      the second one goes on to a deadline or to t2. */
  lemma {:induction false} SplitWhereTicksDiffer(p: Program, t1: Instant, t2: Instant, d: Engine, out: Halted<()>)
    requires AtMost(t1, t2) && AtMost(Finite(d.now), t2)
    requires Tick(p, NEVER_BREAK, t1, d).Again? ==> Tick(p, NEVER_BREAK, t1, d) != Tick(p, NEVER_BREAK, t2, d)
    ensures EndsInTwo(p, t1, t2, d, out) <==> Ends(p, NEVER_BREAK, t2, d, out)
  {
    EndsByTick(p, NEVER_BREAK, t2, d, out);
    match Tick(p, NEVER_BREAK, t1, d)
    case Halt(mid) =>
      EndsInTwoByHalt(p, t1, t2, d, mid, out);
    case Again(d1, _) =>
      SplitAtJump(p, t1, t2, d, out);
    case Crash =>
      forall m: Halted<()> ensures !Ends(p, NEVER_BREAK, t1, d, m) {
        EndsByTick(p, NEVER_BREAK, t1, d, m);
      }
  }

  /** The first run jumps to t1 and ends there; the second one then starts from t1. */
  lemma {:induction false} JumpToFirstTarget(p: Program, t1: Instant, t2: Instant, d: Engine, out: Halted<()>)
    requires t1.Finite? && Tick(p, NEVER_BREAK, t1, d) == Again(d.(now := t1.ticks), NEVER_BREAK) && d.queue == []
    ensures EndsInTwo(p, t1, t2, d, out) <==> Ends(p, NEVER_BREAK, t2, d.(now := t1.ticks), out)
  {
    var d1 := d.(now := t1.ticks);
    assert Tick(p, NEVER_BREAK, t1, d1) == Halt(Halted(d1, Reached, NEVER_BREAK));
    EndsInTwoByTick(p, t1, t2, d, d1, out);
    EndsInTwoByHalt(p, t1, t2, d1, Halted(d1, Reached, NEVER_BREAK), out);
  }

  lemma {:induction false} SplitAtJump(p: Program, t1: Instant, t2: Instant, d: Engine, out: Halted<()>)
    requires AtMost(t1, t2) && d.queue == [] && Less(Finite(d.now), t1)
    requires Tick(p, NEVER_BREAK, t1, d) != Tick(p, NEVER_BREAK, t2, d)
    ensures EndsInTwo(p, t1, t2, d, out) <==> Ends(p, NEVER_BREAK, t2, d, out)
  {
    var w := TrySendNextTimeout(d).1.value;
    var d1 := d.(now := t1.ticks);
    JumpToFirstTarget(p, t1, t2, d, out);
    EndsByTick(p, NEVER_BREAK, t2, d, out);
    EndsByTick(p, NEVER_BREAK, t2, d1, out);
    if w == DURATION_MAX && t2.Infinity? {
      assert TrySendNextTimeout(d1).1 == Some(DURATION_MAX);
      forall n: nat ensures Run(p, NEVER_BREAK, t2, d, n) == None == Run(p, NEVER_BREAK, t2, d1, n) {
        IdleForEver(p, d, n);
        IdleForEver(p, d1, n);
      }
    } else if w != DURATION_MAX && Less(Add(Finite(d.now), w), t2) {
      assert Tick(p, NEVER_BREAK, t2, d) == Again(d.(now := d.now + w), NEVER_BREAK);
    }
  }

  lemma {:induction false} SplitForward(p: Program, t1: Instant, t2: Instant, d: Engine, out: Halted<()>, n: nat)
    requires AtMost(t1, t2) && AtMost(Finite(d.now), t2)
    requires Run(p, NEVER_BREAK, t2, d, n) == Some(out)
    ensures EndsInTwo(p, t1, t2, d, out)
    decreases n
  {
    NeverBreakStays(p, t1, d);
    NeverBreakStays(p, t2, d);
    hide Tick;
    TickWithin(p, NEVER_BREAK, t2, d);
    match Tick(p, NEVER_BREAK, t1, d) {
      case Again(d1, _) =>
        if Tick(p, NEVER_BREAK, t2, d) == Again(d1, NEVER_BREAK) {
          SplitForward(p, t1, t2, d1, out, n - 1);
          EndsInTwoByTick(p, t1, t2, d, d1, out);
          return;
        }
      case _ =>
    }
    SplitWhereTicksDiffer(p, t1, t2, d, out);
  }

  lemma {:induction false} SplitBackward(p: Program, t1: Instant, t2: Instant, d: Engine, out: Halted<()>,
                                         mid: Halted<()>, n: nat)
    requires AtMost(t1, t2) && AtMost(Finite(d.now), t2)
    requires Run(p, NEVER_BREAK, t1, d, n) == Some(mid)
    requires if mid.why == StopHandled then out == mid else Ends(p, NEVER_BREAK, t2, mid.d, out)
    ensures Ends(p, NEVER_BREAK, t2, d, out)
    decreases n
  {
    NeverBreakStays(p, t1, d);
    NeverBreakStays(p, t2, d);
    hide Tick;
    TickWithin(p, NEVER_BREAK, t2, d);
    assert Ends(p, NEVER_BREAK, t1, d, mid);
    match Tick(p, NEVER_BREAK, t1, d) {
      case Again(d1, _) =>
        if Tick(p, NEVER_BREAK, t2, d) == Again(d1, NEVER_BREAK) {
          SplitBackward(p, t1, t2, d1, out, mid, n - 1);
          EndsByTick(p, NEVER_BREAK, t2, d, out);
          return;
        }
      case _ =>
    }
    SplitWhereTicksDiffer(p, t1, t2, d, out);
  }

  /** A pause changes nothing, as long as the clock is not past t2: the run ends in the same clock, queue, timers,
      behaviours, mailboxes, counters and dispatch log. */
  lemma {:induction false} SplitInterval(p: Program, t1: Instant, t2: Instant, d: Engine, out: Halted<()>)
    requires AtMost(t1, t2) && AtMost(Finite(d.now), t2)
    ensures EndsInTwo(p, t1, t2, d, out) <==> Ends(p, NEVER_BREAK, t2, d, out)
  {
    if n: nat :| Run(p, NEVER_BREAK, t2, d, n) == Some(out) {
      SplitForward(p, t1, t2, d, out, n);
    }
    if mid: Halted<()>, n: nat :|
      && Run(p, NEVER_BREAK, t1, d, n) == Some(mid)
      && if mid.why == StopHandled then out == mid else Ends(p, NEVER_BREAK, t2, mid.d, out) {
      SplitBackward(p, t1, t2, d, out, mid, n);
    }
  }

  // ---------- one call and two calls ----------

  /** The call of `process_until` returns, and leaves this engine. */
  ghost predicate Once(p: Program, target: Instant, d: Engine, r: Engine) {
    exists out: Halted<()> :: Ends(p, NEVER_BREAK, target, d, out) && out.d == r
  }

  /** Two calls, one after the other: the caller is not told of a stop in the first one, and makes the second one
      anyway. */
  ghost predicate Twice(p: Program, t1: Instant, t2: Instant, d: Engine, r: Engine) {
    exists mid: Engine :: Once(p, t1, d, mid) && Once(p, t2, mid, r)
  }

  /** Two calls leave exactly what one call leaves. */
  ghost predicate SplitHarmless(p: Program, t1: Instant, t2: Instant, d: Engine) {
    forall r: Engine :: Twice(p, t1, t2, d, r) <==> Once(p, t2, d, r)
  }

  lemma {:induction false} UniqueEnd(p: Program, target: Instant, d: Engine, a: Halted<()>, b: Halted<()>)
    requires Ends(p, NEVER_BREAK, target, d, a) && Ends(p, NEVER_BREAK, target, d, b)
    ensures a == b
  {
    var m: nat :| Run(p, NEVER_BREAK, target, d, m) == Some(a);
    var n: nat :| Run(p, NEVER_BREAK, target, d, n) == Some(b);
    OneEnd(p, NEVER_BREAK, target, d, m, n);
  }

  lemma TickLog(p: Program, target: Instant, d: Engine)
    ensures match Tick(p, NEVER_BREAK, target, d)
            case Again(d1, _) => |d.log| <= |d1.log|
            case Halt(out) => |d.log| + (if d.queue != [] then 1 else 0) == |out.d.log|
                              && (out.why == StopHandled ==> d.queue != [])
            case Crash => true
    ensures Tick(p, NEVER_BREAK, target, d).Halt? ==> Tick(p, NEVER_BREAK, target, d).out.why != Broke
  {
  }

  /** The log grows in every run that processes anything, and in every run that is stopped. */
  lemma {:induction false} LogGrows(p: Program, target: Instant, d: Engine, out: Halted<()>, n: nat)
    requires Run(p, NEVER_BREAK, target, d, n) == Some(out)
    ensures |d.log| <= |out.d.log| && (out.why == StopHandled ==> |d.log| < |out.d.log|) && out.why != Broke
    decreases n
  {
    hide Tick;
    TickLog(p, target, d);
    NeverBreakStays(p, target, d);
    match Tick(p, NEVER_BREAK, target, d)
    case Again(d1, _) => LogGrows(p, target, d1, out, n - 1);
    case _ =>
  }

  lemma {:induction false} RunWithin(p: Program, target: Instant, d: Engine, out: Halted<()>, n: nat)
    requires Run(p, NEVER_BREAK, target, d, n) == Some(out) && AtMost(Finite(d.now), target)
    ensures AtMost(Finite(out.d.now), target)
    decreases n
  {
    hide Tick;
    TickWithin(p, NEVER_BREAK, target, d);
    NeverBreakStays(p, target, d);
    match Tick(p, NEVER_BREAK, target, d)
    case Again(d1, _) => RunWithin(p, target, d1, out, n - 1);
    case _ =>
  }

  /** From a state not past the target a call changes nothing if and only if the clock is there and the queue is
      empty. */
  lemma {:induction false} CallChangesNothing(p: Program, target: Instant, d: Engine)
    requires AtMost(Finite(d.now), target)
    ensures Once(p, target, d, d) <==> Finite(d.now) == target && d.queue == []
  {
    if out: Halted<()> :| Ends(p, NEVER_BREAK, target, d, out) && out.d == d {
      var n: nat :| Run(p, NEVER_BREAK, target, d, n) == Some(out);
      LogGrows(p, target, d, out, n);
      RunEndsAtTarget(p, NEVER_BREAK, target, d, out, n);
    }
    if Finite(d.now) == target && d.queue == [] {
      EndsByTick(p, NEVER_BREAK, target, d, Halted(d, Reached, NEVER_BREAK));
    }
  }

  /** Once the first call is known to end in `mid`, the second one starts from there. */
  lemma {:induction false} TwiceFrom(p: Program, t1: Instant, t2: Instant, d: Engine, mid: Halted<()>, r: Engine)
    requires Ends(p, NEVER_BREAK, t1, d, mid)
    ensures Twice(p, t1, t2, d, r) <==> Once(p, t2, mid.d, r)
  {
    assert Once(p, t1, d, mid.d);
    if e: Engine :| Once(p, t1, d, e) && Once(p, t2, e, r) {
      var out: Halted<()> :| Ends(p, NEVER_BREAK, t1, d, out) && out.d == e;
      UniqueEnd(p, t1, d, mid, out);
    }
  }

  /** If the first call was not stopped, the two ways leave the same. */
  lemma {:induction false} HarmlessWithoutStop(p: Program, t1: Instant, t2: Instant, d: Engine, r: Engine)
    requires AtMost(t1, t2) && AtMost(Finite(d.now), t2)
    requires forall mid: Halted<()> :: Ends(p, NEVER_BREAK, t1, d, mid) ==> mid.why != StopHandled
    ensures Twice(p, t1, t2, d, r) <==> Once(p, t2, d, r)
  {
    if Twice(p, t1, t2, d, r) {
      var e: Engine :| Once(p, t1, d, e) && Once(p, t2, e, r);
      var mid: Halted<()> :| Ends(p, NEVER_BREAK, t1, d, mid) && mid.d == e;
      var out: Halted<()> :| Ends(p, NEVER_BREAK, t2, e, out) && out.d == r;
      SplitInterval(p, t1, t2, d, out);
    }
    if out: Halted<()> :| Ends(p, NEVER_BREAK, t2, d, out) && out.d == r {
      SplitInterval(p, t1, t2, d, out);
      var mid: Halted<()> :| Ends(p, NEVER_BREAK, t1, d, mid) && Ends(p, NEVER_BREAK, t2, mid.d, out);
      assert Once(p, t1, d, mid.d) && Once(p, t2, mid.d, r);
    }
  }

  /** If it was, one call leaves what the first one left, and two calls the same only if the second one has nothing
      to do. */
  lemma {:induction false} HarmlessAfterStop(p: Program, t1: Instant, t2: Instant, d: Engine, mid: Halted<()>)
    requires AtMost(t1, t2) && AtMost(Finite(d.now), t2) && Ends(p, NEVER_BREAK, t1, d, mid) && mid.why == StopHandled
    ensures SplitHarmless(p, t1, t2, d) <==> mid.d.queue == [] && Finite(mid.d.now) == t2
  {
    SplitInterval(p, t1, t2, d, mid);
    var n: nat :| Run(p, NEVER_BREAK, t2, d, n) == Some(mid);
    RunWithin(p, t2, d, mid, n);
    CallChangesNothing(p, t2, mid.d);
    forall r: Engine
      ensures Once(p, t2, d, r) <==> r == mid.d
      ensures Twice(p, t1, t2, d, r) <==> Once(p, t2, mid.d, r)
    {
      TwiceFrom(p, t1, t2, d, mid, r);
      if out: Halted<()> :| Ends(p, NEVER_BREAK, t2, d, out) && out.d == r {
        UniqueEnd(p, t2, d, mid, out);
      }
    }
    if Once(p, t2, mid.d, mid.d) {
      forall r: Engine | Once(p, t2, mid.d, r) ensures r == mid.d {
        var a: Halted<()> :| Ends(p, NEVER_BREAK, t2, mid.d, a) && a.d == mid.d;
        var b: Halted<()> :| Ends(p, NEVER_BREAK, t2, mid.d, b) && b.d == r;
        UniqueEnd(p, t2, mid.d, a, b);
      }
    }
  }

  /** Splitting a simulated interval, exactly: with the clock not past t2, `process_until(t1)` followed by
      `process_until(t2)` leaves what `process_until(t2)` leaves if and only if the first call does not stop the
      dispatcher, or stops it with the clock already at t2 and nothing left in the queue. */
  lemma {:induction false} SplitExactly(p: Program, t1: Instant, t2: Instant, d: Engine)
    requires AtMost(t1, t2) && AtMost(Finite(d.now), t2)
    ensures SplitHarmless(p, t1, t2, d) <==>
            forall mid: Halted<()> :: Ends(p, NEVER_BREAK, t1, d, mid) && mid.why == StopHandled ==>
              mid.d.queue == [] && Finite(mid.d.now) == t2
  {
    if mid: Halted<()> :| Ends(p, NEVER_BREAK, t1, d, mid) && mid.why == StopHandled {
      HarmlessAfterStop(p, t1, t2, d, mid);
      forall other: Halted<()> | Ends(p, NEVER_BREAK, t1, d, other) ensures other == mid {
        UniqueEnd(p, t1, d, mid, other);
      }
    } else {
      forall r: Engine ensures Twice(p, t1, t2, d, r) <==> Once(p, t2, d, r) {
        HarmlessWithoutStop(p, t1, t2, d, r);
      }
    }
  }

  /** Past the target a call is over after one message. */
  lemma {:induction false} PastTargetOnce(p: Program, target: Instant, d: Engine, r: Engine)
    requires Less(target, Finite(d.now))
    ensures Once(p, target, d, r) <==>
            if d.queue == [] then r == d else !Process(p, d).Panicking? && r == Process(p, d).d
    ensures Tick(p, NEVER_BREAK, target, d).Crash? <==> d.queue != [] && Process(p, d).Panicking?
  {
    match Tick(p, NEVER_BREAK, target, d)
    case Halt(o) =>
      forall out: Halted<()> ensures Ends(p, NEVER_BREAK, target, d, out) <==> out == o {
        EndsByTick(p, NEVER_BREAK, target, d, out);
      }
    case Crash =>
      forall out: Halted<()> ensures !Ends(p, NEVER_BREAK, target, d, out) {
        EndsByTick(p, NEVER_BREAK, target, d, out);
      }
  }

  /** Past t2 every call still processes one message, so that splitting is harmless if and only if there is no
      message, or the first one leaves the queue empty, or makes the program panic; whether it stops the dispatcher
      makes no difference. */
  lemma {:induction false} SplitPastTarget(p: Program, t1: Instant, t2: Instant, d: Engine)
    requires AtMost(t1, t2) && Less(t2, Finite(d.now))
    ensures SplitHarmless(p, t1, t2, d) <==>
            d.queue == [] || Process(p, d).Panicking? || Process(p, d).d.queue == []
  {
    hide Tick;
    if d.queue != [] && Process(p, d).Panicking? {
      forall r: Engine ensures !Twice(p, t1, t2, d, r) && !Once(p, t2, d, r) {
        forall e: Engine ensures !Once(p, t1, d, e) {
          PastTargetOnce(p, t1, d, e);
        }
        PastTargetOnce(p, t2, d, r);
      }
    } else {
      var mid := if d.queue == [] then d else Process(p, d).d;
      forall r: Engine
        ensures Once(p, t2, d, r) <==> r == mid
        ensures Twice(p, t1, t2, d, r) <==> Once(p, t2, mid, r)
      {
        PastTargetOnce(p, t2, d, r);
        forall e: Engine ensures Once(p, t1, d, e) <==> e == mid {
          PastTargetOnce(p, t1, d, e);
        }
      }
      forall r: Engine
        ensures Once(p, t2, mid, r) <==>
                if mid.queue == [] then r == mid else !Process(p, mid).Panicking? && r == Process(p, mid).d
      {
        PastTargetOnce(p, t2, mid, r);
      }
      if mid.queue != [] && !Process(p, mid).Panicking? {
        assert |Process(p, mid).d.log| == |mid.log| + 1;
      }
      assert Once(p, t2, d, mid);
    }
  }

  /** So two messages in the queue, the first of which does not stop the dispatcher, are enough to tell them apart. */
  lemma {:induction false} SplitPastTargetDiffers(p: Program, t1: Instant, t2: Instant, d: Engine)
    requires AtMost(t1, t2) && Less(t2, Finite(d.now)) && |d.queue| >= 2 && Process(p, d).Going?
    ensures !SplitHarmless(p, t1, t2, d)
  {
    SplitPastTarget(p, t1, t2, d);
    ProcessIsFifo(p, d);
  }

  // ---------- instances ----------

  /** A stop before t1, asked for by nobody: one call ends at once, but of two calls the second one takes the clock
      to t2. */
  lemma {:induction false} StopBeforeFirstTarget(p: Program, t1: Instant, t2: Instant, d: Engine, id: U32)
    returns (one: Engine, two: Engine)
    requires AtMost(t1, t2) && Less(Finite(d.now), t1) && t2.Finite? && d.sched.list == []
    requires d.queue == [Envelope(d.dispId, Request(Invalid, id, StopDispatcher), Posted)]
    ensures Once(p, t2, d, one) && Twice(p, t1, t2, d, two)
    ensures one.now == d.now && Finite(two.now) == t2 && !SplitHarmless(p, t1, t2, d)
  {
    one := Process(p, d).d;
    assert Take(d).queue == [] && one.queue == [] && one.sched == d.sched;
    var mid := Halted(one, StopHandled, NEVER_BREAK);
    EndsByTick(p, NEVER_BREAK, t1, d, mid);
    EndsByTick(p, NEVER_BREAK, t2, d, mid);
    two := one.(now := t2.ticks);
    var out := Halted(two, Reached, NEVER_BREAK);
    EndsByTick(p, NEVER_BREAK, t2, two, out);
    EndsByTick(p, NEVER_BREAK, t2, one, out);
    assert Once(p, t1, d, one) && Once(p, t2, one, two);
    HarmlessAfterStop(p, t1, t2, d, mid);
  }

  /** A stop past t2, asked for by an actor of the same dispatcher: of two calls the second one processes the
      response that the first one left in the queue. */
  lemma {:induction false} StopPastTarget(p: Program, t1: Instant, t2: Instant, d: Engine, id: U32, client: ActorId)
    returns (one: Engine, two: Engine)
    requires AtMost(t1, t2) && Less(t2, Finite(d.now)) && d.open && d.capacity > 0 && client != d.dispId
    requires d.queue == [Envelope(d.dispId, Request(Reactive(client), id, StopDispatcher), Posted)]
    ensures Once(p, t2, d, one) && Twice(p, t1, t2, d, two)
    ensures one.queue == [Envelope(client, Response(id, Ok(DispatcherStopped)), Posted)] && two.queue == []
    ensures |two.log| == |one.log| + 1 && !SplitHarmless(p, t1, t2, d)
  {
    one := Process(p, d).d;
    assert Take(d).queue == [] && one.reactives == map[];
    assert one.queue == [Envelope(client, Response(id, Ok(DispatcherStopped)), Posted)];
    two := Process(p, one).d;
    PastTargetOnce(p, t1, d, one);
    PastTargetOnce(p, t2, d, one);
    PastTargetOnce(p, t2, one, two);
    SplitPastTarget(p, t1, t2, d);
  }
}
