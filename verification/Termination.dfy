/** When a simulated run comes to an end: behaviours that arm timers strictly in the future and whose
    sends are paid for by the message being processed cannot keep the simulator busy for ever. */
module Termination {
  import opened Instants
  import opened Timers
  import opened Engines
  import opened Simulation

  /** A weight for every message, by the actor it is queued for. */
  type Weight = (ActorId, Message) -> nat

  /** What a call may still spend, after the given replies. */
  type Credit = (Behavior, Context, Message, seq<Reply>) -> nat

  function QueueWeight(w: Weight, q: seq<Envelope>): nat {
    if q == [] then 0 else w(q[0].dst, q[0].msg) + QueueWeight(w, q[1..])
  }

  /** Pending entries that are mature. */
  function DueCount(list: seq<Entry>, now: Ticks): nat {
    if list == [] then 0
    else (if AtMost(list[0].key.deadline, Finite(now)) then 1 else 0) + DueCount(list[1..], now)
  }

  function WeightAt(w: Weight, to: Addr, msg: Message): nat {
    if to.Reactive? then w(to.id, msg) else 0
  }

  /** The command arms no mature timer, and adds at most `cost` to the weight of the queue. */
  ghost predicate Affordable(w: Weight, c: Context, command: Command, cost: nat) {
    match command
    case SendNotification(to, payload) => WeightAt(w, to, Notification(payload)) <= cost
    case SendRequest(to, payload) =>
      && (forall id: U32 :: WeightAt(w, to, Request(Reactive(c.own), id, payload)) <= cost)
      && (to.Reactive? || forall id: U32, error, returned :: w(c.own, Response(id, Err(error, returned))) <= cost)
    case SendResponse(to, id, payload) => WeightAt(w, to, Response(id, Ok(payload))) <= cost
    case Schedule(_, instant) => Less(Finite(c.now), instant)
    case Cancel(_) => true
  }

  /** Each call spends less than the weight of its message. */
  ghost predicate Thrifty(p: Program, w: Weight, credit: Credit) {
    && (forall b, c, msg :: credit(b, c, msg, []) < w(c.own, msg))
    && (forall b, c, msg, replies, reply ::
          p.next(b, c, msg, replies).Some? ==>
            && credit(b, c, msg, replies + [reply]) <= credit(b, c, msg, replies)
            && Affordable(w, c, p.next(b, c, msg, replies).value,
                          credit(b, c, msg, replies) - credit(b, c, msg, replies + [reply])))
  }

  /** A request weighs more than any response the framework itself can make of it, and nothing is free. */
  ghost predicate RequestsOutweighAnswers(w: Weight) {
    && (forall dst, msg :: w(dst, msg) > 0)
    && (forall dst, to: ActorId, id: U32, payload, outcome: Outcome ::
          (outcome.Ok? ==> !outcome.payload.User?) ==>
            w(to, Response(id, outcome)) < w(dst, Request(Reactive(to), id, payload)))
  }

  lemma {:induction false} QueueWeightAppend(w: Weight, q: seq<Envelope>, e: Envelope)
    ensures QueueWeight(w, q + [e]) == QueueWeight(w, q) + w(e.dst, e.msg)
  {
    if q == [] {
      assert q + [e] == [e];
    } else {
      QueueWeightAppend(w, q[1..], e);
      assert (q + [e])[1..] == q[1..] + [e];
    }
  }

  lemma {:induction false} InsertNotDue(list: seq<Entry>, e: Entry, now: Ticks)
    requires Less(Finite(now), e.key.deadline)
    ensures DueCount(Insert(list, e), now) <= DueCount(list, now)
  {
    if list == [] {
      assert Insert(list, e)[1..] == [];
    } else if list[0].key != e.key && !KeyLess(e.key, list[0].key) {
      InsertNotDue(list[1..], e, now);
    } else {
      assert Insert(list, e)[1..] == if list[0].key == e.key then list[1..] else list;
    }
  }

  lemma {:induction false} RemoveNotDue(list: seq<Entry>, key: Timer, dst: ActorId, now: Ticks)
    ensures DueCount(RemoveOwned(list, key, dst), now) <= DueCount(list, now)
  {
    if list != [] && list[0].key != key {
      RemoveNotDue(list[1..], key, dst, now);
    }
  }

  lemma {:induction false} PostWeight(w: Weight, d: Engine, to: Addr, msg: Message)
    ensures QueueWeight(w, Post(d, to, msg).0.queue) <= QueueWeight(w, d.queue) + WeightAt(w, to, msg)
  {
    if to.Reactive? {
      QueueWeightAppend(w, d.queue, Envelope(to.id, msg, Posted));
    }
  }

  /** No more mature timers than before, and at most `cost` more weight in the queue. */
  ghost predicate Costs(w: Weight, d: Engine, r: Engine, cost: int) {
    && SameFrame(d, r)
    && DueCount(r.sched.list, d.now) <= DueCount(d.sched.list, d.now)
    && QueueWeight(w, r.queue) <= QueueWeight(w, d.queue) + cost
  }

  lemma {:induction false} ExecuteCosts(w: Weight, d: Engine, c: Context, command: Command, cost: nat)
    requires c.now == d.now && Affordable(w, c, command, cost)
    ensures Costs(w, d, Execute(d, c.own, command).0, cost)
  {
    match command
    case SendNotification(to, payload) => PostWeight(w, d, to, Notification(payload));
    case SendResponse(to, id, payload) => PostWeight(w, d, to, Response(id, Ok(payload)));
    case SendRequest(to, payload) => RequestCosts(w, d, c, to, payload, cost);
    case Schedule(timer, instant) =>
      RemoveNotDue(d.sched.list, timer, c.own, d.now);
      var s1 := Unschedule(d.sched, timer, c.own).0;
      InsertNotDue(s1.list, Entry(Timer(s1.nextId, instant), c.own, Arm(s1.armed, d.now)), d.now);
    case Cancel(timer) =>
      RemoveNotDue(d.sched.list, timer, c.own, d.now);
  }

  lemma {:induction false} RequestCosts(w: Weight, d: Engine, c: Context, to: Addr, payload: Payload, cost: nat)
    requires Affordable(w, c, SendRequest(to, payload), cost)
    ensures Costs(w, d, Execute(d, c.own, SendRequest(to, payload)).0, cost)
  {
    var id, src := WrappingIncrement(d.requestCounter), Reactive(c.own);
    var d0 := d.(requestCounter := id).(issued := d.issued + [Ask(to, src, id, payload)]);
    var r := Post(d0, to, Request(src, id, payload));
    PostWeight(w, d0, to, Request(src, id, payload));
    if r.1.Some? {
      var returned := match to
        case Invalid => TheValue(payload)
        case Reactive(_) => TheMessage(Request(src, id, payload))
        case Active(_) => TheBox(payload);
      PostWeight(w, d0, src, Response(id, Err(r.1.value, returned)));
      assert to.Reactive? || w(c.own, Response(id, Err(r.1.value, returned))) <= cost;
    }
  }

  lemma {:induction false} RunCommandsCosts(p: Program, w: Weight, credit: Credit, d: Engine, b: Behavior, c: Context,
                                            msg: Message, replies: seq<Reply>, left: nat)
    requires Thrifty(p, w, credit) && c.now == d.now
    ensures Costs(w, d, RunCommands(p, d, b, c, msg, replies, left), credit(b, c, msg, replies))
    decreases left
  {
    var command := p.next(b, c, msg, replies);
    if left != 0 && command.Some? {
      var (d1, reply) := Execute(d, c.own, command.value);
      ExecuteCosts(w, d, c, command.value, credit(b, c, msg, replies) - credit(b, c, msg, replies + [reply]));
      RunCommandsCosts(p, w, credit, d1, b, c, msg, replies + [reply], left - 1);
    }
  }

  lemma {:induction false} ApplyOpsKeepsQueue(d: Engine, ops: seq<RegistryOp>)
    ensures ApplyOps(d, ops).0.queue == d.queue && ApplyOps(d, ops).0.sched == d.sched
    decreases |ops|
  {
    if ops != [] {
      ApplyOpsKeepsQueue(ApplyOp(d, ops[0]).0, ops[1..]);
    }
  }

  /** Processing a message takes more weight out of the queue than it puts in. */
  lemma {:induction false} ProcessCosts(p: Program, w: Weight, credit: Credit, d: Engine)
    requires d.queue != [] && Thrifty(p, w, credit) && RequestsOutweighAnswers(w)
    ensures Process(p, d).Going? ==> Costs(w, Take(d), Process(p, d).d, w(d.queue[0].dst, d.queue[0].msg) - 1)
  {
    var e, d1 := d.queue[0], Take(d);
    match FateOf(d, e)
    case ByDispatcher =>
      DispatcherCosts(w, d1, e);
    case ByBehavior =>
      var b, c := d1.reactives[e.dst], Context(e.dst, d1.now);
      RunCommandsCosts(p, w, credit, d1, b, c, e.msg, [], p.bound(b, c, e.msg));
    case NoActor =>
      if e.msg.Request? {
        PostWeight(w, d1, e.msg.src, Response(e.msg.id, Err(ActorDisappeared, TheBox(e.msg.payload))));
      }
  }

  lemma {:induction false} DispatcherCosts(w: Weight, d: Engine, e: Envelope)
    requires RequestsOutweighAnswers(w)
    ensures ProcessDispatcherMessage(d, e.msg).Going? ==>
            Costs(w, d, ProcessDispatcherMessage(d, e.msg).d, w(e.dst, e.msg) - 1)
  {
    if ProcessDispatcherMessage(d, e.msg).Going? {
      var Request(src, id, payload) := e.msg;
      var (d1, answer) := Serve(d, payload).value;
      if payload.ExecuteFn? {
        ApplyOpsKeepsQueue(d, payload.ops);
      }
      assert d1.queue == d.queue && d1.sched == d.sched;
      if answer.Some? {
        PostWeight(w, d1, src, Response(id, Ok(answer.value)));
      }
    }
  }

  /** The run comes to an end within n ticks: it halts, or the program panics. */
  predicate Over<S>(p: Program, poll: Poll<S>, target: Instant, d: Engine, n: nat)
    decreases n
  {
    n > 0 && match Tick(p, poll, target, d)
             case Again(d1, poll1) => Over(p, poll1, target, d1, n - 1)
             case _ => true
  }

  /** For every finite target and every break function, the run of a thrifty program comes to an end. */
  lemma {:induction false} ThriftyRunsEnd<S>(p: Program, w: Weight, credit: Credit, poll: Poll<S>, target: Instant,
                                             d: Engine)
    returns (n: nat)
    requires Thrifty(p, w, credit) && RequestsOutweighAnswers(w)
    requires target.Finite? && d.capacity > 0
    ensures Over(p, poll, target, d, n)
    decreases if AtMost(Finite(d.now), target) then target.ticks - d.now else 0,
              DueCount(d.sched.list, d.now), QueueWeight(w, d.queue)
  {
    if d.queue != [] {
      ProcessCosts(p, w, credit, d);
    }
    match Tick(p, poll, target, d) {
      case Again(d1, poll1) =>
        n := ThriftyRunsEnd(p, w, credit, poll1, target, d1);
        n := n + 1;
      case _ =>
        n := 1;
    }
  }

  /** Behaviours that send nothing and arm timers only strictly in the future. */
  ghost predicate OnlyFutureTimers(p: Program) {
    forall b, c, msg, replies :: p.next(b, c, msg, replies).Some? ==>
      match p.next(b, c, msg, replies).value
      case Schedule(_, instant) => Less(Finite(c.now), instant)
      case Cancel(_) => true
      case _ => false
  }

  lemma {:induction false} FutureTimersRunsEnd<S>(p: Program, poll: Poll<S>, target: Instant, d: Engine)
    returns (n: nat)
    requires OnlyFutureTimers(p) && target.Finite? && d.capacity > 0
    ensures Over(p, poll, target, d, n)
  {
    var w: Weight := (_, msg: Message) => if msg.Request? then 2 else 1;
    var credit: Credit := (_, _, _, _) => 0;
    n := ThriftyRunsEnd(p, w, credit, poll, target, d);
  }

  /** Clients and servers: a timeout may be followed by one request and a request by one response, to any address;
      all else is arming timers strictly in the future and cancelling them. */
  ghost predicate AsksAndAnswers(p: Program) {
    forall b, c, msg, replies :: p.next(b, c, msg, replies).Some? ==>
      match p.next(b, c, msg, replies).value
      case Schedule(_, instant) => Less(Finite(c.now), instant)
      case Cancel(_) => true
      case SendRequest(_, _) => msg.Timeout? && replies == []
      case SendResponse(_, _, _) => msg.Request? && replies == []
      case SendNotification(_, _) => false
  }

  /** However many timers they use, and even if their queue is full or the other side is gone. */
  lemma {:induction false} AskingRunsEnd<S>(p: Program, poll: Poll<S>, target: Instant, d: Engine) returns (n: nat)
    requires AsksAndAnswers(p) && target.Finite? && d.capacity > 0
    ensures Over(p, poll, target, d, n)
  {
    var w: Weight := (_, msg: Message) => if msg.Timeout? then 3 else if msg.Request? then 2 else 1;
    var credit: Credit := (_, _, msg: Message, replies: seq<Reply>) =>
      if replies != [] then 0 else if msg.Timeout? then 2 else if msg.Request? then 1 else 0;
    n := ThriftyRunsEnd(p, w, credit, poll, target, d);
  }

  // ---------- no room at all ----------

  ghost predicate EventuallyOver(p: Program, target: Instant, d: Engine) {
    exists n: nat :: Over(p, NEVER_BREAK, target, d, n)
  }

  /** With no room, a mature timeout keeps the simulator busy for ever. */
  lemma {:induction false} MatureNeverEnds(p: Program, target: Instant, d: Engine, n: nat)
    requires d.capacity == 0 && d.queue == [] && Less(Finite(d.now), target)
    requires d.sched.list != [] && AtMost(d.sched.list[0].key.deadline, Finite(d.now))
    ensures !Over(p, NEVER_BREAK, target, d, n)
  {
    if n > 0 {
      assert Tick(p, NEVER_BREAK, target, d) == Again(d, NEVER_BREAK);
      MatureNeverEnds(p, target, d, n - 1);
    }
  }

  /** And so does one that becomes mature before the target: the clock stops at its deadline. */
  lemma {:induction false} NoRoomNeverEnds(p: Program, target: Instant, d: Engine, n: nat)
    requires d.capacity == 0 && d.queue == [] && Less(Finite(d.now), target)
    requires d.sched.list != [] && Less(d.sched.list[0].key.deadline, target)
    ensures !Over(p, NEVER_BREAK, target, d, n)
  {
    var deadline := d.sched.list[0].key.deadline;
    if AtMost(deadline, Finite(d.now)) {
      MatureNeverEnds(p, target, d, n);
    } else if n > 0 {
      var d1 := d.(now := deadline.ticks);
      assert Tick(p, NEVER_BREAK, target, d) == Again(d1, NEVER_BREAK);
      MatureNeverEnds(p, target, d1, n - 1);
    }
  }

  /** With an infinite target and no timeout at all neither. */
  lemma {:induction false} IdleNeverEnds(p: Program, d: Engine, n: nat)
    requires d.queue == [] && (d.sched.list == [] || d.sched.list[0].key.deadline.Infinity?)
    ensures !Over(p, NEVER_BREAK, Infinity, d, n)
  {
    if n > 0 {
      assert Tick(p, NEVER_BREAK, Infinity, d) == Again(d, NEVER_BREAK);
      IdleNeverEnds(p, d, n - 1);
    }
  }

  /** With no room in the queue, a run comes to an end if and only if its target is finite, and it starts at the
      target or past it or no timeout is due before the target. */
  lemma {:induction false} NoRoomEndsExactly(p: Program, target: Instant, d: Engine)
    requires d.capacity == 0 && d.queue == []
    ensures EventuallyOver(p, target, d) <==>
            && target.Finite?
            && (!Less(Finite(d.now), target) || d.sched.list == [] || !Less(d.sched.list[0].key.deadline, target))
  {
    if target.Infinity? && (d.sched.list == [] || d.sched.list[0].key.deadline.Infinity?) {
      forall n: nat ensures !Over(p, NEVER_BREAK, target, d, n) {
        IdleNeverEnds(p, d, n);
      }
    } else if !Less(Finite(d.now), target) {
      assert Over(p, NEVER_BREAK, target, d, 1);
    } else if d.sched.list == [] || !Less(d.sched.list[0].key.deadline, target) {
      var d1 := d.(now := target.ticks);
      assert Tick(p, NEVER_BREAK, target, d) == Again(d1, NEVER_BREAK);
      assert Over(p, NEVER_BREAK, target, d1, 1);
      assert Over(p, NEVER_BREAK, target, d, 2);
    } else {
      forall n: nat ensures !Over(p, NEVER_BREAK, target, d, n) {
        NoRoomNeverEnds(p, target, d, n);
      }
    }
  }
}
