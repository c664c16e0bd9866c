/** The simulated clock: it never goes back, it never jumps over a pending deadline, and every timeout is
    queued and processed at exactly the later of its deadline and the instant that armed it. */
module Timing {
  import opened Instants
  import opened Timers
  import opened Engines
  import opened Simulation

  /** When the timeout of an entry is due. */
  function Due(e: Entry): Ticks
    requires e.key.deadline.Finite?
  {
    if e.key.deadline.ticks < e.arm.at then e.arm.at else e.key.deadline.ticks
  }

  /** Timeouts in the queue are those of entries, addressed to the owner and carrying the identifier. */
  predicate Genuine(v: Envelope) {
    match v.origin
    case Posted => !v.msg.Timeout?
    case Fired(e) => e.key.deadline.Finite? && v.dst == e.dst && v.msg == Timeout(e.key.id)
  }

  predicate OnTime(v: Envelope, at: Ticks) {
    Genuine(v) && (v.origin.Fired? ==> Due(v.origin.entry) == at)
  }

  /** Not jumped over: due now or later, or armed at this very instant. */
  predicate StillAhead(e: Entry, now: Ticks) {
    e.arm.at <= now && (AtMost(Finite(now), e.key.deadline) || e.arm.at == now)
  }

  ghost predicate Timely(d: Engine) {
    && Sorted(d.sched.list)
    && (forall i :: 0 <= i < |d.sched.list| ==> StillAhead(d.sched.list[i], d.now))
    && (forall i :: 0 <= i < |d.queue| ==> OnTime(d.queue[i], d.now))
    && (forall i :: 0 <= i < |d.log| ==> OnTime(d.log[i].envelope, d.log[i].at) && d.log[i].at <= d.now)
    && (forall i, j :: 0 <= i < j < |d.log| ==> d.log[i].at <= d.log[j].at)
  }

  /** Mailboxes only receive: their owner alone takes messages out. */
  ghost predicate OnlyReceives(before: Mailboxes, after: Mailboxes) {
    && before.Keys == after.Keys
    && forall id :: id in before ==>
         after[id].taken == before[id].taken && after[id].aside == before[id].aside && before[id].rx <= after[id].rx
  }

  /** What a send, a command or a registration may do to mailboxes, to the queue and to the timers. */
  ghost predicate Effect(d: Engine, r: Engine) {
    && SameFrame(d, r)
    && OnlyReceives(d.mailboxes, r.mailboxes)
    && (forall v :: v in r.queue ==> v in d.queue || (v.origin.Posted? && !v.msg.Timeout?))
    && (Sorted(d.sched.list) ==> Sorted(r.sched.list)
                                 && forall e :: e in r.sched.list ==> e in d.sched.list || e.arm.at == d.now)
  }

  lemma {:induction false} EffectKeepsTimely(d: Engine, r: Engine)
    requires Timely(d) && Effect(d, r)
    ensures Timely(r)
  {
    forall i | 0 <= i < |r.queue| ensures OnTime(r.queue[i], r.now) {
      assert r.queue[i] in r.queue;
    }
    forall i | 0 <= i < |r.sched.list| ensures StillAhead(r.sched.list[i], r.now) {
      assert r.sched.list[i] in r.sched.list;
    }
  }

  lemma EffectTransitive(d: Engine, e: Engine, r: Engine)
    requires Effect(d, e) && Effect(e, r)
    ensures Effect(d, r)
  {
  }

  lemma PostEffect(d: Engine, to: Addr, msg: Message)
    requires !msg.Timeout?
    ensures Effect(d, Post(d, to, msg).0)
  {
  }

  lemma {:induction false} RefuseEffect(d: Engine, ask: Ask, error: Error, returned: Returned)
    ensures Effect(d, Refuse(d, ask, error, returned))
  {
    PostEffect(d, ask.src, Response(ask.id, Err(error, returned)));
  }

  lemma {:induction false} ReceiveRequestEffect(d: Engine, to: Addr, src: Addr, id: U32, payload: Payload)
    ensures Effect(d, ReceiveRequest(d, to, src, id, payload))
  {
    var ask := Ask(to, src, id, payload);
    var d0 := d.(issued := d.issued + [ask]);
    var d1 := Post(d0, to, Request(src, id, payload)).0;
    PostEffect(d0, to, Request(src, id, payload));
    forall error, returned ensures Effect(d1, Refuse(d1, ask, error, returned)) {
      RefuseEffect(d1, ask, error, returned);
    }
    EffectTransitive(d0, d1, ReceiveRequest(d, to, src, id, payload));
  }

  lemma {:induction false} ScheduleEffect(d: Engine, own: ActorId, timer: Timer, instant: Instant)
    ensures Effect(d, d.(sched := ScheduleUntil(d.sched, timer, instant, own, d.now).0))
    ensures Effect(d, d.(sched := Unschedule(d.sched, timer, own).0))
  {
    if Sorted(d.sched.list) {
      RemoveIsMapRemoval(d.sched.list, timer, own);
      var s1 := Unschedule(d.sched, timer, own).0;
      InsertIsMapUpdate(s1.list, Entry(Timer(s1.nextId, instant), own, Arm(s1.armed, d.now)));
    }
  }

  lemma {:induction false} ExecuteEffect(d: Engine, own: ActorId, c: Command)
    ensures Effect(d, Execute(d, own, c).0)
  {
    match c
    case SendNotification(to, payload) => PostEffect(d, to, Notification(payload));
    case SendRequest(to, payload) =>
      var id := WrappingIncrement(d.requestCounter);
      ReceiveRequestEffect(d.(requestCounter := id), to, Reactive(own), id, payload);
    case SendResponse(to, id, payload) => PostEffect(d, to, Response(id, Ok(payload)));
    case Schedule(timer, instant) => ScheduleEffect(d, own, timer, instant);
    case Cancel(timer) => ScheduleEffect(d, own, timer, Infinity);
  }

  lemma {:induction false} RunCommandsEffect(p: Program, d: Engine, b: Behavior, c: Context, msg: Message,
                                             replies: seq<Reply>, left: nat)
    ensures Effect(d, RunCommands(p, d, b, c, msg, replies, left))
    decreases left
  {
    var command := p.next(b, c, msg, replies);
    if left != 0 && command.Some? {
      var (d1, reply) := Execute(d, c.own, command.value);
      ExecuteEffect(d, c.own, command.value);
      RunCommandsEffect(p, d1, b, c, msg, replies + [reply], left - 1);
      EffectTransitive(d, d1, RunCommands(p, d, b, c, msg, replies, left));
    }
  }

  lemma {:induction false} DrainEffect(d: Engine)
    ensures Effect(d, Drain(d))
    decreases DrainMeasure(d.queue)
  {
    if d.queue != [] {
      var e, d1 := d.queue[0], d.(queue := d.queue[1..], dropped := d.dropped + [d.queue[0]]);
      if e.msg.Request? {
        RefuseEffect(d1, AskOf(e), ActorDisappeared, TheBox(e.msg.payload));
      }
      assert Effect(d, DrainOne(d));
      DrainEffect(DrainOne(d));
      EffectTransitive(d, DrainOne(d), Drain(d));
    }
  }

  lemma {:induction false} ApplyOpsEffect(d: Engine, ops: seq<RegistryOp>)
    ensures Effect(d, ApplyOps(d, ops).0)
    decreases |ops|
  {
    if ops != [] {
      assert Effect(d, ApplyOp(d, ops[0]).0);
      ApplyOpsEffect(ApplyOp(d, ops[0]).0, ops[1..]);
      EffectTransitive(d, ApplyOp(d, ops[0]).0, ApplyOps(d, ops).0);
    }
  }

  lemma {:induction false} ServeEffect(d: Engine, payload: Payload)
    ensures Serve(d, payload).Some? ==> Effect(d, Serve(d, payload).value.0)
  {
    DrainEffect(d);
    if payload.ExecuteFn? {
      ApplyOpsEffect(d, payload.ops);
    }
  }

  lemma {:induction false} ProcessDispatcherMessageEffect(d: Engine, msg: Message)
    ensures !ProcessDispatcherMessage(d, msg).Panicking? ==> Effect(d, ProcessDispatcherMessage(d, msg).d)
  {
    if msg.Request? && Serve(d, msg.payload).Some? {
      ServeEffect(d, msg.payload);
      var (d1, answer) := Serve(d, msg.payload).value;
      if answer.Some? {
        PostEffect(d1, msg.src, Response(msg.id, Ok(answer.value)));
        EffectTransitive(d, d1, ProcessDispatcherMessage(d, msg).d);
      }
    }
  }

  lemma {:induction false} ProcessEffect(p: Program, d: Engine)
    requires d.queue != []
    ensures !Process(p, d).Panicking? ==> Effect(Take(d), Process(p, d).d)
  {
    var e, d1 := d.queue[0], Take(d);
    match FateOf(d, e)
    case ByDispatcher =>
      ProcessDispatcherMessageEffect(d1, e.msg);
    case ByBehavior =>
      var b, c := d1.reactives[e.dst], Context(e.dst, d1.now);
      RunCommandsEffect(p, d1, b, c, e.msg, [], p.bound(b, c, e.msg));
    case NoActor =>
      if e.msg.Request? {
        RefuseEffect(d1, AskOf(e), ActorDisappeared, TheBox(e.msg.payload));
      }
  }

  lemma {:induction false} ProcessKeepsTimely(p: Program, d: Engine)
    requires d.queue != [] && Timely(d)
    ensures !Process(p, d).Panicking? ==>
            && Timely(Process(p, d).d)
            && forall v :: v in Process(p, d).d.queue ==> v in d.queue[1..] || (v.origin.Posted? && !v.msg.Timeout?)
  {
    if !Process(p, d).Panicking? {
      assert Timely(Take(d));
      ProcessEffect(p, d);
      EffectKeepsTimely(Take(d), Process(p, d).d);
    }
  }

  lemma {:induction false} FireOrAdvanceKeepsTimely(target: Instant, d: Engine)
    requires Timely(d) && d.queue == [] && Less(Finite(d.now), target)
    ensures Timely(FireOrAdvance(d, target)) && d.now <= FireOrAdvance(d, target).now
  {
    if d.sched.list != [] {
      var first := d.sched.list[0];
      forall i | 0 <= i < |d.sched.list| ensures AtMost(first.key.deadline, d.sched.list[i].key.deadline) {
        assert i > 0 ==> KeyLess(first.key, d.sched.list[i].key);
      }
      assert StillAhead(first, d.now);
    }
  }

  lemma MailboxesDoNotMatter(d: Engine, boxes: Mailboxes)
    requires Timely(d)
    ensures Timely(d.(mailboxes := boxes))
  {
  }

  /** One tick, for every break function and every target. */
  lemma {:induction false} TickKeepsTimely<S>(p: Program, poll: Poll<S>, target: Instant, d: Engine)
    requires Timely(d)
    ensures match Tick(p, poll, target, d)
            case Again(r, _) => Timely(r) && d.now <= r.now
            case Halt(out) => Timely(out.d) && d.now <= out.d.now
            case Crash => true
  {
    if d.queue != [] {
      ProcessKeepsTimely(p, d);
    }
    var v := if d.queue != [] then Process(p, d) else Going(d);
    if !v.Panicking? {
      var d1 := v.d.(mailboxes := poll.ask(poll.memo, v.d.mailboxes).1);
      MailboxesDoNotMatter(v.d, d1.mailboxes);
      if d.queue == [] && !AtTarget(d1, target, false) {
        FireOrAdvanceKeepsTimely(target, d1);
      }
    }
  }

  /** Whole runs: the clock never goes back, no pending deadline is jumped over, and in the whole dispatch log
      every timeout was processed at exactly the later of its deadline and its arming. */
  lemma {:induction false} RunKeepsTimely<S>(p: Program, poll: Poll<S>, target: Instant, d: Engine, out: Halted<S>,
                                             n: nat)
    requires Timely(d) && Run(p, poll, target, d, n) == Some(out)
    ensures Timely(out.d) && d.now <= out.d.now
    decreases n
  {
    hide Tick, Timely;
    TickKeepsTimely(p, poll, target, d);
    match Tick(p, poll, target, d)
    case Again(d1, poll1) => RunKeepsTimely(p, poll1, target, d1, out, n - 1);
    case _ =>
  }

  /** Outside a run, notifications, responses, requests and registrations keep it too. */
  lemma {:induction false} OutsideKeepsTimely(d: Engine, to: Addr, src: Addr, id: U32, payload: Payload, op: RegistryOp)
    requires Timely(d)
    ensures Timely(Post(d, to, Notification(payload)).0)
    ensures Timely(Post(d, to, Response(id, Ok(payload))).0)
    ensures Timely(ReceiveRequest(d, to, src, id, payload))
    ensures Timely(ApplyOp(d, op).0)
  {
    hide Post, ReceiveRequest, Effect;
    PostEffect(d, to, Notification(payload));
    EffectKeepsTimely(d, Post(d, to, Notification(payload)).0);
    PostEffect(d, to, Response(id, Ok(payload)));
    EffectKeepsTimely(d, Post(d, to, Response(id, Ok(payload))).0);
    ReceiveRequestEffect(d, to, src, id, payload);
    EffectKeepsTimely(d, ReceiveRequest(d, to, src, id, payload));
    EffectKeepsTimely(d, ApplyOp(d, op).0);
  }
}
