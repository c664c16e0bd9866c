/** Both loops as sequences of acts: what holds over every sequence of acts holds over the runs of the simulator and
    over those of the threaded loop. */
module Runs {
  import opened Instants
  import opened Timers
  import opened Engines
  import opened Ledger
  import opened Ordering
  import opened Firing
  import opened Simulation
  import opened Timing
  import opened Threaded

  lemma {:induction false} Joined(p: Program, d: Engine, acts: seq<Act>, more: seq<Act>)
    requires PerformAll(p, d, acts).Some?
    ensures PerformAll(p, d, acts + more) == PerformAll(p, PerformAll(p, d, acts).value, more)
    ensures KeepsGoing(p, d, acts) && KeepsGoing(p, PerformAll(p, d, acts).value, more) ==>
            KeepsGoing(p, d, acts + more)
    decreases |acts|
  {
    if acts == [] {
      assert acts + more == more;
    } else {
      assert (acts + more)[1..] == acts[1..] + more;
      Joined(p, Perform(p, d, acts[0]).value, acts[1..], more);
    }
  }

  lemma {:induction false} OneAct(p: Program, d: Engine, act: Act)
    ensures PerformAll(p, d, [act]) == Perform(p, d, act)
    ensures Perform(p, d, act).Some? && !act.DropDispatcher? && (act.ProcessOne? ==> Process(p, d).Going?) ==>
            KeepsGoing(p, d, [act])
  {
    assert [act][1..] == [];
    if Perform(p, d, act).Some? {
      assert KeepsGoing(p, Perform(p, d, act).value, []);
    }
  }

  // ---------- the simulator ----------

  function EndOf<S>(t: TickResult<S>): Engine
    requires !t.Crash?
  {
    match t case Again(d, _) => d case Halt(out) => out.d
  }

  predicate Stops<S>(t: TickResult<S>) {
    t.Halt? && t.out.why == StopHandled
  }

  lemma {:induction false} FireOrAdvanceIsActs(p: Program, target: Instant, d: Engine) returns (acts: seq<Act>)
    requires d.open
    ensures PerformAll(p, d, acts) == Some(FireOrAdvance(d, target)) && KeepsGoing(p, d, acts)
  {
    var act := if TrySendNextTimeout(d).1.None? then SendTimeout else Clock(FireOrAdvance(d, target).now);
    acts := [act];
    OneAct(p, d, act);
  }

  /** The first half of a tick: process a message if there is one, and ask the break function. */
  lemma {:induction false} PollIsActs<S>(p: Program, poll: Poll<S>, d: Engine, v: Verdict) returns (acts: seq<Act>)
    requires d.open && v == (if d.queue != [] then Process(p, d) else Going(d)) && !v.Panicking?
    ensures PerformAll(p, d, acts) == Some(v.d.(mailboxes := poll.ask(poll.memo, v.d.mailboxes).1))
    ensures v.Going? ==> KeepsGoing(p, d, acts)
  {
    var boxes := ChangeMailboxes(poll.ask(poll.memo, v.d.mailboxes).1);
    OneAct(p, v.d, boxes);
    acts := [boxes];
    if d.queue != [] {
      OneAct(p, d, ProcessOne);
      Joined(p, d, [ProcessOne], acts);
      acts := [ProcessOne] + acts;
    }
  }

  lemma {:induction false} TickIsActs<S>(p: Program, poll: Poll<S>, target: Instant, d: Engine) returns (acts: seq<Act>)
    requires d.open && !Tick(p, poll, target, d).Crash?
    ensures var t := Tick(p, poll, target, d);
            && PerformAll(p, d, acts) == Some(EndOf(t)) && (!Stops(t) ==> KeepsGoing(p, d, acts)) && EndOf(t).open
  {
    hide KeepsGoing, PerformAll, FireOrAdvance;
    var v := if d.queue != [] then Process(p, d) else Going(d);
    acts := PollIsActs(p, poll, d, v);
    var t := Tick(p, poll, target, d);
    if t.Again? && d.queue == [] {
      var d1 := v.d.(mailboxes := poll.ask(poll.memo, v.d.mailboxes).1);
      var more := FireOrAdvanceIsActs(p, target, d1);
      Joined(p, d, acts, more);
      acts := acts + more;
      FireOrAdvanceKeepsOpen(d1, target);
    }
  }

  lemma FireOrAdvanceKeepsOpen(d: Engine, target: Instant)
    ensures FireOrAdvance(d, target).open == d.open
  {
  }

  lemma {:induction false} RunIsActs<S>(p: Program, poll: Poll<S>, target: Instant, d: Engine, out: Halted<S>, n: nat)
    returns (acts: seq<Act>)
    requires d.open && Run(p, poll, target, d, n) == Some(out)
    ensures PerformAll(p, d, acts) == Some(out.d) && (out.why != StopHandled ==> KeepsGoing(p, d, acts))
    decreases n
  {
    hide Tick, KeepsGoing, PerformAll;
    acts := TickIsActs(p, poll, target, d);
    var t := Tick(p, poll, target, d);
    if t.Again? {
      var more := RunIsActs(p, t.poll, target, t.d, out, n - 1);
      Joined(p, d, acts, more);
      acts := acts + more;
    }
  }

  // ---------- the threaded loop ----------

  lemma {:induction false} ArrivalsAreActs(p: Program, d: Engine, arrivals: seq<Arrival>) returns (acts: seq<Act>)
    ensures PerformAll(p, d, acts) == Some(ArriveAll(d, arrivals)) && KeepsGoing(p, d, acts)
    decreases |arrivals|
  {
    acts := [];
    if arrivals != [] {
      var act := match arrivals[0]
        case Notified(to, payload) => Notify(to, payload)
        case Asked(to, src, id, payload) => SendRequestTo(to, src, id, payload)
        case Answered(to, id, payload) => AnswerTo(to, id, payload)
        case Taken(_) => ChangeMailboxes(Arrive(d, arrivals[0]).mailboxes);
      OneAct(p, d, act);
      var more := ArrivalsAreActs(p, Arrive(d, arrivals[0]), arrivals[1..]);
      Joined(p, d, [act], more);
      acts := [act] + more;
    }
  }

  lemma {:induction false} PassIsActs(p: Program, d: Engine, m: Moment) returns (acts: seq<Act>)
    ensures PerformAll(p, d, acts) == Some(Pass(d, m)) && KeepsGoing(p, d, acts)
  {
    var d1 := ArriveAll(d, m.arrivals);
    acts := ArrivalsAreActs(p, d, m.arrivals);
    OneAct(p, d1, Clock(Later(d, m.reading)));
    Joined(p, d, acts, [Clock(Later(d, m.reading))]);
    acts := acts + [Clock(Later(d, m.reading))];
  }

  lemma {:induction false} StepIsActs(p: Program, s: Loop, m: Moment) returns (acts: seq<Act>)
    requires s.d.open && !Out(s)
    ensures var r := Step(p, s, m);
            && PerformAll(p, s.d, acts) == Some(r.d) && (!r.pc.Stopped? ==> KeepsGoing(p, s.d, acts)) && r.d.open
  {
    hide PerformAll, KeepsGoing, Pass;
    var d := Pass(s.d, m);
    PassKeepsOpen(s.d, m);
    acts := PassIsActs(p, s.d, m);
    var act := if s.pc.Firing? then SendTimeout else ProcessOne;
    if s.pc.Firing? || (d.queue != [] && !Process(p, d).Panicking?) {
      OneAct(p, d, act);
      Joined(p, s.d, acts, [act]);
      acts := acts + [act];
    }
  }

  lemma PassKeepsOpen(d: Engine, m: Moment)
    ensures Pass(d, m).open == d.open
  {
  }

  lemma {:induction false} StepsAreActs(p: Program, s: Loop, env: seq<Moment>) returns (acts: seq<Act>)
    requires s.d.open && !s.pc.Stopped?
    ensures PerformAll(p, s.d, acts) == Some(Steps(p, s, env).d)
    ensures !Steps(p, s, env).pc.Stopped? ==> KeepsGoing(p, s.d, acts)
    decreases |env|
  {
    acts := [];
    if env != [] && !Out(s) {
      hide Step, KeepsGoing, PerformAll;
      acts := StepIsActs(p, s, env[0]);
      var s1 := Step(p, s, env[0]);
      if !s1.pc.Stopped? {
        var more := StepsAreActs(p, s1, env[1..]);
        Joined(p, s.d, acts, more);
        acts := acts + more;
      }
    }
  }

  // ---------- what follows for both ----------

  /** Over any run of the simulator the account of every request is kept, messages are processed in the order in
      which they were queued unless the dispatcher was stopped, and every arm stays in exactly one place. */
  lemma {:induction false} SimulatorKeeps<S>(p: Program, poll: Poll<S>, target: Instant, d: Engine, out: Halted<S>,
                                             n: nat, a: Ask, serial: nat)
    requires d.open && Run(p, poll, target, d, n) == Some(out)
    ensures Balance(out.d, a) == Balance(d, a)
    ensures out.why != StopHandled && |d.queue| <= d.capacity ==>
            Queued(d) <= Queued(out.d) && |out.d.queue| <= out.d.capacity
    ensures InOnePlace(d, serial) ==> InOnePlace(out.d, serial)
  {
    hide Run, KeepsGoing, PerformAll, Balance, InOnePlace, Queued;
    var acts := RunIsActs(p, poll, target, d, out, n);
    RunBalance(p, d, acts, a);
    if out.why != StopHandled && |d.queue| <= d.capacity {
      ProcessedInOrder(p, d, acts);
    }
    if InOnePlace(d, serial) {
      PerformAllOnce(p, d, acts, serial);
    }
  }

  /** The same over any run of the threaded loop, in every environment. */
  lemma {:induction false} LoopKeeps(p: Program, s: Loop, env: seq<Moment>, a: Ask, serial: nat)
    requires s.d.open && !s.pc.Stopped?
    ensures var r := Steps(p, s, env);
            && Balance(r.d, a) == Balance(s.d, a)
            && (!r.pc.Stopped? && |s.d.queue| <= s.d.capacity ==>
                Queued(s.d) <= Queued(r.d) && |r.d.queue| <= r.d.capacity)
            && (InOnePlace(s.d, serial) ==> InOnePlace(r.d, serial))
  {
    hide Steps, KeepsGoing, PerformAll, Balance, InOnePlace, Queued;
    var acts := StepsAreActs(p, s, env);
    RunBalance(p, s.d, acts, a);
    if !Steps(p, s, env).pc.Stopped? && |s.d.queue| <= s.d.capacity {
      ProcessedInOrder(p, s.d, acts);
    }
    if InOnePlace(s.d, serial) {
      PerformAllOnce(p, s.d, acts, serial);
    }
  }

  // ---------- runs of the simulator with what happens between them ----------

  /** A call of the simulator that returns, or something done from outside between two calls. */
  datatype Turn<!S> = Outside(act: Act) | Simulated(poll: Poll<S>, target: Instant, n: nat)

  predicate FromOutside(act: Act) {
    act.Notify? || act.AnswerTo? || act.SendRequestTo? || act.Apply? || act.ChangeMailboxes?
  }

  function Session<S>(p: Program, d: Engine, turns: seq<Turn<S>>): Option<Engine>
    decreases |turns|
  {
    if turns == [] then Some(d)
    else
      match turns[0]
      case Outside(act) =>
        if FromOutside(act) && Perform(p, d, act).Some? then Session(p, Perform(p, d, act).value, turns[1..]) else None
      case Simulated(poll, target, n) =>
        match Run(p, poll, target, d, n)
        case None => None
        case Some(out) => Session(p, out.d, turns[1..])
  }

  lemma {:induction false} OutsideActTimely(p: Program, d: Engine, act: Act)
    requires Timely(d) && FromOutside(act) && Perform(p, d, act).Some?
    ensures Timely(Perform(p, d, act).value) && Perform(p, d, act).value.now == d.now
  {
    match act
    case Notify(to, payload) =>
      PostEffect(d, to, Notification(payload));
      EffectKeepsTimely(d, Perform(p, d, act).value);
    case AnswerTo(to, id, payload) =>
      PostEffect(d, to, Response(id, Ok(payload)));
      EffectKeepsTimely(d, Perform(p, d, act).value);
    case SendRequestTo(to, src, id, payload) =>
      ReceiveRequestEffect(d, to, src, id, payload);
      EffectKeepsTimely(d, Perform(p, d, act).value);
    case Apply(op) => EffectKeepsTimely(d, Perform(p, d, act).value);
    case ChangeMailboxes(boxes) => MailboxesDoNotMatter(d, boxes);
  }

  /** A whole session with the simulator: through any calls and anything sent, answered, registered and taken out
      of mailboxes between them, the clock never goes back, no deadline is jumped over, and every timeout in the log was
      processed exactly when it was due. */
  lemma {:induction false} SessionKeepsTimely<S>(p: Program, d: Engine, turns: seq<Turn<S>>)
    requires Timely(d) && Session(p, d, turns).Some?
    ensures Timely(Session(p, d, turns).value) && d.now <= Session(p, d, turns).value.now
    decreases |turns|
  {
    hide Timely, Run, Perform;
    if turns != [] {
      match turns[0]
      case Outside(act) =>
        OutsideActTimely(p, d, act);
        SessionKeepsTimely(p, Perform(p, d, act).value, turns[1..]);
      case Simulated(poll, target, n) =>
        var out := Run(p, poll, target, d, n).value;
        RunKeepsTimely(p, poll, target, d, out, n);
        SessionKeepsTimely(p, out.d, turns[1..]);
    }
  }

  /** So it is in every session that starts with a new simulator. */
  lemma {:induction false} NewSessionIsTimely<S>(p: Program, d: Engine, turns: seq<Turn<S>>)
    requires Fresh(d) && d.sched == NEW_SCHEDULER && Session(p, d, turns).Some?
    ensures Timely(Session(p, d, turns).value) && d.now <= Session(p, d, turns).value.now
  {
    SessionKeepsTimely(p, d, turns);
  }
}
