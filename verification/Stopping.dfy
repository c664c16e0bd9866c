/** A stopped broadcaster together with the timers and the queue of its dispatcher: when it stays quiet. */
module Stopping {
  import opened Instants
  import opened Timers
  import opened Engines
  import opened Broadcasting
  import P = TimerProtocol

  /** The broadcaster, and the timers, pending timeouts and queued timeouts of its dispatcher. */
  datatype Scene = Scene(b: State, sys: P.System)

  /** A message that is not a timeout reaches the broadcaster; the oldest queued timeout reaches its actor; or
      something happens to the timers that the broadcaster has no part in. */
  datatype Happening =
    | Arrives(input: Input, now: Ticks, requestId: U32)
    | Delivered(now: Ticks, requestId: U32, tested: seq<P.Handle>)
    | Elsewhere(event: P.Event)

  /** What an output does to the timer `h` of the broadcaster. */
  function Follow(sys: P.System, h: P.Handle, o: Output, now: Ticks): P.System {
    match o
    case Armed(timer) => P.Next(sys, P.ArmTimer(h, timer.deadline, now))
    case Disarmed => P.Next(sys, P.CancelTimer(h))
    case _ => sys
  }

  function FollowAll(sys: P.System, h: P.Handle, out: seq<Output>, now: Ticks): P.System
    decreases |out|
  {
    if out == [] then sys else FollowAll(Follow(sys, h, out[0], now), h, out[1..], now)
  }

  /** Processing the message does not make the program panic. */
  predicate Safe(x: Scene, input: Input, now: Ticks, requestId: U32) {
    NoPanic(x.b, Fresh(now, x.sys.sched.nextId, requestId), input)
  }

  /** The broadcaster processes one message. */
  function Reacts(b: State, sys: P.System, h: P.Handle, input: Input, now: Ticks, requestId: U32): Scene
    requires NoPanic(b, Fresh(now, sys.sched.nextId, requestId), input)
  {
    var (b1, out) := Handle(b, Fresh(now, sys.sched.nextId, requestId), input);
    Scene(b1, FollowAll(sys, h, out, now))
  }

  predicate Concerns(event: P.Event, h: P.Handle) {
    match event
    case ArmTimer(h1, _, _) => h1 == h
    case CancelTimer(h1) => h1 == h
    case Receive(_) => true
    case _ => false
  }

  function Step(x: Scene, h: P.Handle, e: Happening): Scene {
    match e
    case Arrives(input, now, requestId) =>
      if input.TimedOut? || !Safe(x, input, now, requestId) then x else Reacts(x.b, x.sys, h, input, now, requestId)
    case Delivered(now, requestId, tested) =>
      if x.sys.queue == [] || h !in x.sys.owner then x
      else
        var v := x.sys.queue[0];
        if v.dst == x.sys.owner[h] then
          if !Safe(x, TimedOut(v.key.id), now, requestId) then x
          else Reacts(x.b, P.Next(x.sys, P.Receive([h])), h, TimedOut(v.key.id), now, requestId)
        else if h in tested then x
        else x.(sys := P.Next(x.sys, P.Receive(tested)))
    case Elsewhere(event) =>
      if Concerns(event, h) then x else x.(sys := P.Next(x.sys, event))
  }

  function StepAll(x: Scene, h: P.Handle, es: seq<Happening>): Scene
    decreases |es|
  {
    if es == [] then x else StepAll(Step(x, h, es[0]), h, es[1..])
  }

  predicate NoStarts(es: seq<Happening>) {
    forall i :: 0 <= i < |es| ==> !(es[i].Arrives? && es[i].input.Start?)
  }

  predicate Begins(x: Scene, h: P.Handle) {
    P.Initial(x.sys) && h in x.sys.timers && x.b == NEW_BROADCASTER
  }

  // ---------- what every step keeps ----------

  /** The timers are as they should, and timeouts are for the owner of the timer that was armed. */
  ghost predicate Sound(sys: P.System) {
    P.Held(sys) && forall v :: v in sys.sched.list + sys.queue ==> Owned(sys, v)
  }

  /** The actor holds the timer that the dispatcher knows, and has armed it if it is running. */
  ghost predicate Linked(x: Scene, h: P.Handle) {
    && Sound(x.sys) && h in x.sys.timers && x.sys.timers[h] == x.b.timer
    && (!x.b.phase.Stopped? ==> h in x.sys.lastArm)
  }

  predicate Owned(sys: P.System, v: Entry) {
    v.arm.serial < |sys.armedBy| && sys.armedBy[v.arm.serial] in sys.owner
    && sys.owner[sys.armedBy[v.arm.serial]] == v.dst
  }

  lemma NextOwned(sys: P.System, e: P.Event)
    requires P.Numbered(sys) && forall v :: v in sys.sched.list + sys.queue ==> Owned(sys, v)
    ensures forall v :: v in P.Next(sys, e).sched.list + P.Next(sys, e).queue ==> Owned(P.Next(sys, e), v)
  {
    var r := P.Next(sys, e);
    forall v | v in r.sched.list + r.queue ensures Owned(r, v) {
      match e
      case ArmTimer(h, instant, now) =>
        if h in sys.timers {
          P.ArmList(sys, h, instant, now);
          P.CancelNumbered(sys, h);
        }
        assert v.arm.serial < sys.sched.armed ==> v in sys.sched.list + sys.queue;
      case CancelTimer(h) =>
        if h in sys.timers {
          P.CancelNumbered(sys, h);
        }
        assert v in sys.sched.list + sys.queue;
      case _ =>
        assert v in sys.sched.list + sys.queue;
    }
  }

  lemma NextSound(sys: P.System, e: P.Event)
    requires Sound(sys) && P.Next(sys, e).sched.armed <= U32_SIZE
    ensures Sound(P.Next(sys, e)) && P.Next(sys, e).timers.Keys == sys.timers.Keys
    ensures sys.lastArm.Keys <= P.Next(sys, e).lastArm.Keys
  {
    P.NextHeld(sys, e);
    NextOwned(sys, e);
  }

  /** What processing a message means for the timer. */
  function TimerEvent(b: State, h: P.Handle, input: Input, now: Ticks): Option<P.Event>
    requires NoPanic(b, Fresh(now, 0, 0), input)
  {
    match input
    case Start(_) =>
      if b.phase.Stopped? then Some(P.ArmTimer(h, Add(Finite(now), BROADCAST_PERIOD), now)) else None
    case Stop => if b.phase.Stopped? then None else Some(P.CancelTimer(h))
    case TimedOut(id) =>
      if id == b.timer.id then Some(P.ArmTimer(h, Add(Finite(now), BROADCAST_PERIOD), now)) else None
    case _ => None
  }

  lemma ReactsByEvent(b: State, sys: P.System, h: P.Handle, input: Input, now: Ticks, requestId: U32)
    requires NoPanic(b, Fresh(now, sys.sched.nextId, requestId), input)
    ensures var r := Reacts(b, sys, h, input, now, requestId); var e := TimerEvent(b, h, input, now);
            && r.sys == (if e.Some? then P.Next(sys, e.value) else sys)
            && r.b.timer == (if e.None? then b.timer
                             else if input.Stop? then b.timer.(deadline := Infinity)
                             else Timer(sys.sched.nextId, Add(Finite(now), BROADCAST_PERIOD)))
  {
    hide P.Next;
    var (_, out) := Handle(b, Fresh(now, sys.sched.nextId, requestId), input);
    assert |out| <= 2;
    if |out| == 1 {
      FollowOne(sys, h, out[0], now);
      assert out == [out[0]];
    } else if |out| == 2 {
      FollowTwo(sys, h, out[0], out[1], now);
      assert out == [out[0], out[1]];
    }
  }

  lemma FollowOne(sys: P.System, h: P.Handle, o: Output, now: Ticks)
    ensures FollowAll(sys, h, [o], now) == Follow(sys, h, o, now)
  {
    assert [o][1..] == [];
  }

  lemma FollowTwo(sys: P.System, h: P.Handle, first: Output, second: Output, now: Ticks)
    ensures FollowAll(sys, h, [first, second], now) == Follow(Follow(sys, h, first, now), h, second, now)
  {
    assert [first, second][1..] == [second];
    FollowOne(Follow(sys, h, first, now), h, second, now);
  }

  lemma ArmsGrow(sys: P.System, e: P.Event)
    ensures sys.sched.armed <= P.Next(sys, e).sched.armed
  {
    P.NextPlaces(sys, e, 0);
  }

  lemma ReactsKeepsLink(b: State, sys: P.System, h: P.Handle, input: Input, now: Ticks, requestId: U32)
    requires NoPanic(b, Fresh(now, sys.sched.nextId, requestId), input)
    requires Sound(sys) && h in sys.timers && (!b.phase.Stopped? ==> h in sys.lastArm)
    requires sys.timers[h] == b.timer || (input.TimedOut? && input.timeoutId == b.timer.id)
    requires Reacts(b, sys, h, input, now, requestId).sys.sched.armed <= U32_SIZE
    ensures Linked(Reacts(b, sys, h, input, now, requestId), h)
    ensures sys.sched.armed <= Reacts(b, sys, h, input, now, requestId).sys.sched.armed
  {
    hide Reacts, Sound;
    ReactsByEvent(b, sys, h, input, now, requestId);
    PhaseAfter(b, sys, h, input, now, requestId);
    var e := TimerEvent(b, h, input, now);
    if e.Some? {
      NextSound(sys, e.value);
      ArmsGrow(sys, e.value);
      TimerAfter(sys, h, e.value);
    }
  }

  lemma PhaseAfter(b: State, sys: P.System, h: P.Handle, input: Input, now: Ticks, requestId: U32)
    requires NoPanic(b, Fresh(now, sys.sched.nextId, requestId), input)
    ensures !Reacts(b, sys, h, input, now, requestId).b.phase.Stopped? ==> !b.phase.Stopped? || input.Start?
    ensures b.phase.Stopped? && input.Start? ==> TimerEvent(b, h, input, now).Some?
    ensures input.Stop? ==> Reacts(b, sys, h, input, now, requestId).b.phase.Stopped?
  {
  }

  lemma TimerAfter(sys: P.System, h: P.Handle, e: P.Event)
    requires Sound(sys) && h in sys.timers && (e.ArmTimer? || e.CancelTimer?) && e.h == h
    ensures h in P.Next(sys, e).timers
    ensures P.Next(sys, e).timers[h]
         == if e.ArmTimer? then Timer(sys.sched.nextId, e.instant) else sys.timers[h].(deadline := Infinity)
    ensures e.ArmTimer? ==> h in P.Next(sys, e).lastArm && P.Next(sys, e).lastArm[h] == sys.sched.armed
  {
  }

  lemma OthersKeepTimer(sys: P.System, h: P.Handle, e: P.Event)
    requires Sound(sys) && h in sys.timers && (e.Receive? ==> h !in e.tested)
             && (e.ArmTimer? || e.CancelTimer? ==> e.h != h)
    ensures h in P.Next(sys, e).timers && P.Next(sys, e).timers[h] == sys.timers[h]
  {
    if e.Receive? && sys.queue != [] {
      NotTested(sys.timers, e.tested, sys.queue[0].key.id, h);
    }
  }

  lemma {:induction false} NotTested(timers: map<P.Handle, Timer>, tested: seq<P.Handle>, id: U32, h: P.Handle)
    requires h in timers && h !in tested
    ensures P.TestAll(timers, tested, id)[h] == timers[h]
    decreases |tested|
  {
    if tested != [] {
      var rest := if tested[0] in timers then timers[tested[0] := IsScheduling(timers[tested[0]], id).0] else timers;
      NotTested(rest, tested[1..], id, h);
    }
  }

  lemma OwnTest(sys: P.System, h: P.Handle)
    requires sys.queue != [] && h in sys.timers
    ensures var r := P.Next(sys, P.Receive([h]));
            && r.timers[h] == IsScheduling(sys.timers[h], sys.queue[0].key.id).0 && r.sched == sys.sched
            && r.queue == sys.queue[1..] && r.lastArm == sys.lastArm
  {
    assert [h][1..] == [];
  }

  lemma {:induction false} StepKeepsLink(x: Scene, h: P.Handle, e: Happening)
    requires Linked(x, h) && Step(x, h, e).sys.sched.armed <= U32_SIZE
    ensures Linked(Step(x, h, e), h) && x.sys.sched.armed <= Step(x, h, e).sys.sched.armed
  {
    StepArms(x, h, e);
    hide P.Next, Reacts, Sound;
    if Step(x, h, e) != x {
      match e
      case Arrives(input, now, requestId) =>
        ReactsKeepsLink(x.b, x.sys, h, input, now, requestId);
      case Delivered(now, requestId, tested) =>
        var own := x.sys.queue[0].dst == x.sys.owner[h];
        var receive := P.Receive(if own then [h] else tested);
        ArmsGrow(x.sys, receive);
        SameArms(x.sys, receive);
        NextSound(x.sys, receive);
        if own {
          OwnTest(x.sys, h);
          ReactsKeepsLink(x.b, P.Next(x.sys, receive), h, TimedOut(x.sys.queue[0].key.id), now, requestId);
        } else {
          OthersKeepTimer(x.sys, h, receive);
        }
      case Elsewhere(event) =>
        ArmsGrow(x.sys, event);
        NextSound(x.sys, event);
        OthersKeepTimer(x.sys, h, event);
    }
  }

  lemma SameArms(sys: P.System, e: P.Event)
    requires e.Receive?
    ensures P.Next(sys, e).sched == sys.sched
  {
  }

  lemma {:induction false} StepAllKeepsLink(x: Scene, h: P.Handle, es: seq<Happening>)
    requires Linked(x, h) && StepAll(x, h, es).sys.sched.armed <= U32_SIZE
    ensures Linked(StepAll(x, h, es), h) && x.sys.sched.armed <= StepAll(x, h, es).sys.sched.armed
    decreases |es|
  {
    hide Step, Linked;
    if es != [] {
      StepAllArms(x, h, es);
      StepKeepsLink(x, h, es[0]);
      StepAllKeepsLink(Step(x, h, es[0]), h, es[1..]);
    }
  }

  lemma {:induction false} StepArms(x: Scene, h: P.Handle, e: Happening)
    ensures x.sys.sched.armed <= Step(x, h, e).sys.sched.armed
  {
    hide P.Next, Reacts;
    match e
    case Arrives(input, now, requestId) =>
      if Step(x, h, e) != x {
        ReactsArms(x.b, x.sys, h, input, now, requestId);
      }
    case Delivered(now, requestId, tested) =>
      if Step(x, h, e) != x {
        SameArms(x.sys, P.Receive([h]));
        SameArms(x.sys, P.Receive(tested));
        if x.sys.queue[0].dst == x.sys.owner[h] {
          ReactsArms(x.b, P.Next(x.sys, P.Receive([h])), h, TimedOut(x.sys.queue[0].key.id), now, requestId);
        }
      }
    case Elsewhere(event) => ArmsGrow(x.sys, event);
  }

  lemma ReactsArms(b: State, sys: P.System, h: P.Handle, input: Input, now: Ticks, requestId: U32)
    requires NoPanic(b, Fresh(now, sys.sched.nextId, requestId), input)
    ensures sys.sched.armed <= Reacts(b, sys, h, input, now, requestId).sys.sched.armed
  {
    hide Reacts;
    ReactsByEvent(b, sys, h, input, now, requestId);
    if TimerEvent(b, h, input, now).Some? {
      ArmsGrow(sys, TimerEvent(b, h, input, now).value);
    }
  }

  lemma {:induction false} StepAllArms(x: Scene, h: P.Handle, es: seq<Happening>)
    ensures x.sys.sched.armed <= StepAll(x, h, es).sys.sched.armed
    ensures es != [] ==> Step(x, h, es[0]).sys.sched.armed <= StepAll(x, h, es).sys.sched.armed
    decreases |es|
  {
    hide Step;
    if es != [] {
      StepArms(x, h, es[0]);
      StepAllArms(Step(x, h, es[0]), h, es[1..]);
    }
  }

  lemma {:induction false} BeginsLinked(x: Scene, h: P.Handle)
    requires Begins(x, h)
    ensures Linked(x, h)
  {
    P.ReachableIsHeld(x.sys, []);
  }

  // ---------- quiet ----------

  /** Stopped, and no timeout of the latest arm is pending or queued. */
  ghost predicate Quiet(x: Scene, h: P.Handle) {
    && Linked(x, h) && x.b.phase.Stopped? && h in x.sys.lastArm && P.Silenced(x.sys, h)
    && forall v :: v in x.sys.queue ==> v.arm.serial != x.sys.lastArm[h]
  }

  /** While it is stopped only a timeout of its latest arm makes the broadcaster touch its timer. */
  lemma {:induction false} StoppedReacts(x: Scene, h: P.Handle, e: Happening)
    requires Linked(x, h) && x.b.phase.Stopped? && h in x.sys.lastArm && !(e.Arrives? && e.input.Start?)
    requires !(e.Delivered? && x.sys.queue != [] && x.sys.queue[0].arm.serial == x.sys.lastArm[h])
    ensures Step(x, h, e).b.phase.Stopped?
    ensures Step(x, h, e).sys == x.sys
         || (e.Delivered? && exists tested :: Step(x, h, e).sys == P.Next(x.sys, P.Receive(tested)))
         || (e.Elsewhere? && !Concerns(e.event, h) && Step(x, h, e).sys == P.Next(x.sys, e.event))
  {
    hide P.Next;
    if e.Delivered? && Step(x, h, e) != x {
      P.MatchesLast(x.sys, h, x.sys.queue[0]);
      if x.sys.queue[0].dst == x.sys.owner[h] {
        ReactsByEvent(x.b, P.Next(x.sys, P.Receive([h])), h, TimedOut(x.sys.queue[0].key.id), e.now, e.requestId);
        SameArms(x.sys, P.Receive([h]));
        assert Step(x, h, e).sys == P.Next(x.sys, P.Receive([h]));
      } else {
        assert Step(x, h, e).sys == P.Next(x.sys, P.Receive(e.tested));
      }
    }
  }

  lemma {:induction false} StepKeepsQuiet(x: Scene, h: P.Handle, e: Happening)
    requires Quiet(x, h) && !(e.Arrives? && e.input.Start?) && Step(x, h, e).sys.sched.armed <= U32_SIZE
    ensures Quiet(Step(x, h, e), h) && Step(x, h, e).sys.lastArm[h] == x.sys.lastArm[h]
  {
    hide Step, P.Next, Owned;
    StepKeepsLink(x, h, e);
    StoppedReacts(x, h, e);
    if e.Delivered? && Step(x, h, e).sys != x.sys {
      var tested :| Step(x, h, e).sys == P.Next(x.sys, P.Receive(tested));
      P.NextSilenced(x.sys, P.Receive(tested), h);
    } else if Step(x, h, e).sys != x.sys {
      P.NextSilenced(x.sys, e.event, h);
    }
  }

  lemma {:induction false} StaysQuietFrom(x: Scene, h: P.Handle, es: seq<Happening>)
    requires Quiet(x, h) && NoStarts(es) && StepAll(x, h, es).sys.sched.armed <= U32_SIZE
    ensures Quiet(StepAll(x, h, es), h) && StepAll(x, h, es).sys.lastArm[h] == x.sys.lastArm[h]
    decreases |es|
  {
    hide Step, Linked;
    if es != [] {
      StepAllArms(x, h, es);
      StepKeepsQuiet(x, h, es[0]);
      StaysQuietFrom(Step(x, h, es[0]), h, es[1..]);
    }
  }

  // ---------- not quiet ----------

  /** The timeout of the latest arm is in the queue: processing the queue up to it arms the timer again. */
  lemma {:induction false} ArmsAgain(x: Scene, h: P.Handle, i: nat) returns (es: seq<Happening>)
    requires Linked(x, h) && x.b.phase.Stopped? && h in x.sys.lastArm && x.sys.sched.armed < U32_SIZE
    requires i < |x.sys.queue| && x.sys.queue[i].arm.serial == x.sys.lastArm[h]
    ensures NoStarts(es) && StepAll(x, h, es).sys.sched.armed <= U32_SIZE
    ensures h in StepAll(x, h, es).sys.lastArm && StepAll(x, h, es).sys.lastArm[h] != x.sys.lastArm[h]
    decreases i
  {
    hide Step, Linked;
    var e := Delivered(0, 0, []);
    var r := Step(x, h, e);
    if x.sys.queue[0].arm.serial == x.sys.lastArm[h] {
      OwnTimeoutArms(x, h, e);
      es := [e];
      assert [e][1..] == [];
      assert StepAll(x, h, [e]) == StepAll(r, h, []);
    } else {
      ForeignTimeoutPasses(x, h, e);
      StepKeepsLink(x, h, e);
      var rest := ArmsAgain(r, h, i - 1);
      es := [e] + rest;
      assert es[1..] == rest;
    }
  }

  lemma {:induction false} OwnTimeoutArms(x: Scene, h: P.Handle, e: Happening)
    requires Linked(x, h) && x.b.phase.Stopped? && h in x.sys.lastArm && x.sys.queue != []
             && x.sys.queue[0].arm.serial == x.sys.lastArm[h]
    requires e == Delivered(0, 0, [])
    ensures var r := Step(x, h, e);
            h in r.sys.lastArm && r.sys.lastArm[h] == x.sys.sched.armed > x.sys.lastArm[h]
            && r.sys.sched.armed == x.sys.sched.armed + 1
  {
    var v := x.sys.queue[0];
    P.MatchesLast(x.sys, h, v);
    assert v in x.sys.sched.list + x.sys.queue;
    assert Owned(x.sys, v);
    var received := P.Next(x.sys, P.Receive([h]));
    OwnTest(x.sys, h);
    ReactsByEvent(x.b, received, h, TimedOut(v.key.id), 0, 0);
  }

  lemma {:induction false} ForeignTimeoutPasses(x: Scene, h: P.Handle, e: Happening)
    requires Linked(x, h) && x.b.phase.Stopped? && h in x.sys.lastArm
    requires x.sys.queue != [] && x.sys.queue[0].arm.serial != x.sys.lastArm[h] && e == Delivered(0, 0, [])
    ensures var r := Step(x, h, e);
            && r.b.phase.Stopped? && r.sys.queue == x.sys.queue[1..] && r.sys.lastArm == x.sys.lastArm
            && r.sys.sched == x.sys.sched
  {
    P.MatchesLast(x.sys, h, x.sys.queue[0]);
    OwnTest(x.sys, h);
    ReactsByEvent(x.b, P.Next(x.sys, P.Receive([h])), h, TimedOut(x.sys.queue[0].key.id), 0, 0);
  }

  // ---------- the exact condition ----------

  /** Whatever happens, short of a start, the timer is not armed again. */
  ghost predicate StaysQuiet(x: Scene, h: P.Handle) {
    h in x.sys.lastArm &&
    forall es: seq<Happening> :: NoStarts(es) && StepAll(x, h, es).sys.sched.armed <= U32_SIZE ==>
      h in StepAll(x, h, es).sys.lastArm && StepAll(x, h, es).sys.lastArm[h] == x.sys.lastArm[h]
  }

  /** In any run, with fewer than 2^32 arms: a broadcaster that is stopped stays quiet until the next start if and
      only if the timeout of the latest arm of its timer was not in the queue when the stop was processed. */
  lemma {:induction false} StoppedStaysQuietExactly(x: Scene, h: P.Handle, before: seq<Happening>, now: Ticks,
                                                    requestId: U32)
    requires Begins(x, h) && !StepAll(x, h, before).b.phase.Stopped?
    requires StepAll(x, h, before).sys.sched.armed < U32_SIZE
    ensures var s := StepAll(x, h, before); var c := Step(s, h, Arrives(Stop, now, requestId));
            && c.b.phase.Stopped? && c.sys.queue == s.sys.queue && h in c.sys.lastArm
            && (StaysQuiet(c, h) <==> forall v :: v in s.sys.queue ==> v.arm.serial != c.sys.lastArm[h])
  {
    var s := StepAll(x, h, before);
    BeginsLinked(x, h);
    StepAllKeepsLink(x, h, before);
    StopCancels(s, h, now, requestId);
    var c := Step(s, h, Arrives(Stop, now, requestId));
    hide Step, Linked, StepAll;
    if i :| 0 <= i < |c.sys.queue| && c.sys.queue[i].arm.serial == c.sys.lastArm[h] {
      var es := ArmsAgain(c, h, i);
      assert !StaysQuiet(c, h);
    } else {
      assert Quiet(c, h);
      forall es: seq<Happening> | NoStarts(es) && StepAll(c, h, es).sys.sched.armed <= U32_SIZE
        ensures h in StepAll(c, h, es).sys.lastArm && StepAll(c, h, es).sys.lastArm[h] == c.sys.lastArm[h]
      {
        StaysQuietFrom(c, h, es);
      }
    }
  }

  lemma {:induction false} StopCancels(s: Scene, h: P.Handle, now: Ticks, requestId: U32)
    requires Linked(s, h) && !s.b.phase.Stopped?
    ensures var c := Step(s, h, Arrives(Stop, now, requestId));
            && c.b.phase.Stopped? && Linked(c, h) && h in c.sys.lastArm && P.Silenced(c.sys, h)
            && c.sys.queue == s.sys.queue && c.sys.sched.armed == s.sys.sched.armed
  {
    var e := Arrives(Stop, now, requestId);
    ReactsByEvent(s.b, s.sys, h, Stop, now, requestId);
    assert Step(s, h, e).sys == P.DoCancel(s.sys, h);
    P.CancelSilences(s.sys, h);
    StepKeepsLink(s, h, e);
  }
}
