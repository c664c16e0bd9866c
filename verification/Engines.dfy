/** The dispatch engine as a value: one dispatcher with its bounded queue, the reactive actors it owns,
    its timeout scheduler, and the mailboxes of the active actors around it. */
module Engines {
  import opened Instants
  import opened Timers

  datatype Option<+T> = None | Some(value: T)

  /** A boxed reactive behaviour (code and state), and the data of user messages. */
  type Behavior(==,!new)
  type Data(==,!new)

  datatype Addr = Invalid | Reactive(id: ActorId) | Active(id: ActorId)

  datatype Error = AddrUnreachable | QueueFull | ActorDisappeared

  datatype RegistryOp =
    | Register(behavior: Behavior)
    | Replace(addr: Addr, behavior: Behavior)
    | Unregister(addr: Addr)

  datatype RegistryResult =
    | NewAddr(addr: Addr)
    | ReplaceOk(previous: Behavior)
    | ReplaceErr(rejected: Behavior)
    | Unregistered(removed: Option<Behavior>)

  datatype Payload =
    | User(data: Data)
    | RegisterReactive(behavior: Option<Behavior>)
    | ExecuteFn(ops: seq<RegistryOp>)
    | StopReactive(addr: Addr)
    | StopDispatcher
    | RegisteredAt(addr: Addr)
    | Executed(results: seq<RegistryResult>)
    | DispatcherStopped

  /** What an error response gives back: the whole message, the boxed data boxed once more, or the data. */
  datatype Returned = TheMessage(message: Message) | TheBox(boxed: Payload) | TheValue(plain: Payload)

  datatype Outcome = Ok(payload: Payload) | Err(error: Error, returned: Returned)

  /** `Timeout` is the notification whose data only the framework can build. */
  datatype Message =
    | Request(src: Addr, id: U32, payload: Payload)
    | Response(requestId: U32, outcome: Outcome)
    | Notification(payload: Payload)
    | Timeout(timeoutId: U32)

  /** History: whether a queued message was posted by an actor or is the timeout of a pending entry. */
  datatype Origin = Posted | Fired(entry: Entry)

  datatype Envelope = Envelope(dst: ActorId, msg: Message, origin: Origin)

  /** The queue of an active actor: the bounded channel, the messages set aside by selective receive,
      and as history the messages already handed to the actor. */
  datatype Mailbox = Mailbox(capacity: nat, rx: seq<Message>, aside: seq<Message>, taken: seq<Message>)

  /** A request as it was aimed, for the ledger. */
  datatype Ask = Ask(dst: Addr, src: Addr, id: U32, payload: Payload)

  /** An error response attempted for a request, and what came of the attempt. */
  datatype Answer = Answer(ask: Ask, error: Error, failed: Option<Error>)

  datatype Fate = ByBehavior | ByDispatcher | NoActor

  /** One message taken from the queue: when, which, and who processed it. */
  datatype Dispatched = Dispatched(at: Ticks, envelope: Envelope, fate: Fate)

  /** The last five fields are history. */
  datatype Engine = Engine(
    dispId: ActorId,
    open: bool,
    capacity: nat,
    queue: seq<Envelope>,
    reactives: map<ActorId, Behavior>,
    sched: Scheduler,
    requestCounter: U32,
    mailboxes: map<ActorId, Mailbox>,
    now: Ticks,
    nextActorId: ActorId,
    issued: seq<Ask>,
    mailed: seq<Ask>,
    answers: seq<Answer>,
    dropped: seq<Envelope>,
    log: seq<Dispatched>)

  // ---------- behaviours ----------

  /** What a behaviour may ask of its `ProcessContext`. */
  datatype Command =
    | SendNotification(to: Addr, payload: Payload)
    | SendRequest(to: Addr, payload: Payload)
    | SendResponse(to: Addr, requestId: U32, payload: Payload)
    | Schedule(timer: Timer, instant: Instant)
    | Cancel(timer: Timer)

  datatype Reply = Sent(failed: Option<Error>) | Requested(id: U32) | TimerNow(timer: Timer) | NoReply

  datatype Context = Context(own: ActorId, now: Ticks)

  /** Deterministic behaviours: `next` is the next command given the replies to the former ones, `after`
      the new behaviour, and `bound` a limit on the commands of one call, since every call returns. */
  datatype Program = Program(
    next: (Behavior, Context, Message, seq<Reply>) -> Option<Command>,
    bound: (Behavior, Context, Message) -> nat,
    after: (Behavior, Context, Message, seq<Reply>) -> Behavior)

  /** What no send, no command and no registration ever touches. */
  predicate SameFrame(d: Engine, r: Engine) {
    r.dispId == d.dispId && r.open == d.open && r.capacity == d.capacity && r.now == d.now && r.log == d.log
  }

  // ---------- sending ----------

  /** Any message to any address: a `try_send` on the bounded queue behind it. */
  function Post(d: Engine, to: Addr, msg: Message): (r: (Engine, Option<Error>))
    ensures SameFrame(d, r.0)
  {
    match to
    case Invalid => (d, Some(AddrUnreachable))
    case Reactive(id) =>
      if !d.open then (d, Some(AddrUnreachable))
      else if |d.queue| < d.capacity then (d.(queue := d.queue + [Envelope(id, msg, Posted)]), None)
      else (d, Some(QueueFull))
    case Active(id) =>
      if id !in d.mailboxes then (d, Some(AddrUnreachable))
      else
        var m := d.mailboxes[id];
        if |m.rx| < m.capacity then (d.(mailboxes := d.mailboxes[id := m.(rx := m.rx + [msg])]), None)
        else (d, Some(QueueFull))
  }

  /** Attempt the error response of a request that nobody will process. */
  function Refuse(d: Engine, ask: Ask, error: Error, returned: Returned): (r: Engine)
    ensures SameFrame(d, r) && r == d.(queue := r.queue, mailboxes := r.mailboxes, answers := r.answers)
  {
    var (d1, failed) := Post(d, ask.src, Response(ask.id, Err(error, returned)));
    d1.(answers := d1.answers + [Answer(ask, error, failed)])
  }

  function ReceiveRequest(d: Engine, to: Addr, src: Addr, id: U32, payload: Payload): (r: Engine)
    ensures SameFrame(d, r)
    ensures r == d.(queue := r.queue, mailboxes := r.mailboxes, answers := r.answers,
                    issued := r.issued, mailed := r.mailed)
  {
    var ask := Ask(to, src, id, payload);
    var (d1, failed) := Post(d.(issued := d.issued + [ask]), to, Request(src, id, payload));
    match failed
    case Some(error) =>
      Refuse(d1, ask, error,
             match to
             case Invalid => TheValue(payload)
             case Reactive(_) => TheMessage(Request(src, id, payload))
             case Active(_) => TheBox(payload))
    case None => if to.Active? then d1.(mailed := d1.mailed + [ask]) else d1
  }

  // ---------- running a behaviour ----------

  function Execute(d: Engine, own: ActorId, c: Command): (r: (Engine, Reply))
    ensures SameFrame(d, r.0)
  {
    match c
    case SendNotification(to, payload) =>
      var (d1, failed) := Post(d, to, Notification(payload)); (d1, Sent(failed))
    case SendRequest(to, payload) =>
      var id := WrappingIncrement(d.requestCounter);
      (ReceiveRequest(d.(requestCounter := id), to, Reactive(own), id, payload), Requested(id))
    case SendResponse(to, id, payload) =>
      (Post(d, to, Response(id, Ok(payload))).0, NoReply)
    case Schedule(timer, instant) =>
      var (s, t) := ScheduleUntil(d.sched, timer, instant, own, d.now); (d.(sched := s), TimerNow(t))
    case Cancel(timer) =>
      var (s, t) := Unschedule(d.sched, timer, own); (d.(sched := s), TimerNow(t))
  }

  function RunCommands(p: Program, d: Engine, b: Behavior, c: Context, msg: Message, replies: seq<Reply>,
                       left: nat): (r: Engine)
    ensures SameFrame(d, r)
    decreases left
  {
    var command := p.next(b, c, msg, replies);
    if left == 0 || command.None? then d.(reactives := d.reactives[c.own := p.after(b, c, msg, replies)])
    else
      var (d1, reply) := Execute(d, c.own, command.value);
      RunCommands(p, d1, b, c, msg, replies + [reply], left - 1)
  }

  // ---------- the dispatcher ----------

  function AskOf(e: Envelope): Ask
    requires e.msg.Request?
  {
    Ask(Reactive(e.dst), e.msg.src, e.msg.id, e.msg.payload)
  }

  /** Termination measure of the drain: an answer may land in the very queue being drained. */
  function DrainMeasure(q: seq<Envelope>): nat {
    if q == [] then 0 else (if q[0].msg.Request? then 2 else 1) + DrainMeasure(q[1..])
  }

  lemma {:induction false} DrainMeasureAppend(q: seq<Envelope>, e: Envelope)
    ensures DrainMeasure(q + [e]) == DrainMeasure(q) + DrainMeasure([e])
  {
    if q == [] {
      assert q + [e] == [e];
    } else {
      DrainMeasureAppend(q[1..], e);
      assert (q + [e])[1..] == q[1..] + [e];
    }
  }

  /** One round of the drain: take a message, and answer it if it is a request. */
  function DrainOne(d: Engine): (r: Engine)
    requires d.queue != []
    ensures DrainMeasure(r.queue) < DrainMeasure(d.queue)
    ensures SameFrame(d, r)
            && r == d.(queue := r.queue, mailboxes := r.mailboxes, answers := r.answers, dropped := r.dropped)
  {
    var e := d.queue[0];
    var d1 := d.(queue := d.queue[1..], dropped := d.dropped + [e]);
    if e.msg.Request? then
      var r := Refuse(d1, AskOf(e), ActorDisappeared, TheBox(e.msg.payload));
      assert DrainMeasure(r.queue) < DrainMeasure(d.queue) by {
        if r.queue != d1.queue {
          DrainMeasureAppend(d1.queue, r.queue[|r.queue| - 1]);
        }
      }
      r
    else d1
  }

  function Drain(d: Engine): (r: Engine)
    ensures r.queue == []
    ensures SameFrame(d, r)
            && r == d.(queue := r.queue, mailboxes := r.mailboxes, answers := r.answers, dropped := r.dropped)
    decreases DrainMeasure(d.queue)
  {
    if d.queue == [] then d else Drain(DrainOne(d))
  }

  function ApplyOp(d: Engine, op: RegistryOp): (r: (Engine, RegistryResult))
    ensures SameFrame(d, r.0)
  {
    match op
    case Register(b) =>
      (d.(reactives := d.reactives[d.nextActorId := b], nextActorId := d.nextActorId + 1),
       NewAddr(Reactive(d.nextActorId)))
    case Replace(addr, b) =>
      if addr.Reactive? && addr.id in d.reactives
      then (d.(reactives := d.reactives[addr.id := b]), ReplaceOk(d.reactives[addr.id]))
      else (d, ReplaceErr(b))
    case Unregister(addr) =>
      if addr.Reactive? && addr.id in d.reactives
      then (d.(reactives := d.reactives - {addr.id}), Unregistered(Some(d.reactives[addr.id])))
      else (d, Unregistered(None))
  }

  function ApplyOps(d: Engine, ops: seq<RegistryOp>): (r: (Engine, seq<RegistryResult>))
    ensures SameFrame(d, r.0) && r.0 == d.(reactives := r.0.reactives, nextActorId := r.0.nextActorId)
    decreases |ops|
  {
    if ops == [] then (d, [])
    else
      var (d1, r) := ApplyOp(d, ops[0]);
      var (d2, rs) := ApplyOps(d1, ops[1..]);
      (d2, [r] + rs)
  }

  /** What processing one message leads to; the program panics on a malformed dispatcher message. */
  datatype Verdict = Going(d: Engine) | Stopping(d: Engine) | Panicking

  /** The work of a dispatcher request, and the data of its response if it gets one; None if it is malformed. */
  function Serve(d: Engine, payload: Payload): (r: Option<(Engine, Option<Payload>)>)
    ensures r.Some? ==> SameFrame(d, r.value.0)
  {
    match payload
    case RegisterReactive(None) => Some((d, Some(RegisteredAt(Invalid))))
    case RegisterReactive(Some(b)) =>
      var (d1, result) := ApplyOp(d, Register(b));
      Some((d1, Some(RegisteredAt(result.addr))))
    case ExecuteFn(ops) =>
      var (d1, results) := ApplyOps(d, ops);
      Some((d1, Some(Executed(results))))
    case StopReactive(_) => Some((d, None))
    case StopDispatcher => Some((Drain(d).(reactives := map[]), Some(DispatcherStopped)))
    case _ => None
  }

  function Respond(d: Engine, to: Addr, id: U32, answer: Option<Payload>): (r: Engine)
    ensures SameFrame(d, r)
  {
    match answer case None => d case Some(payload) => Post(d, to, Response(id, Ok(payload))).0
  }

  function ProcessDispatcherMessage(d: Engine, msg: Message): (v: Verdict)
    ensures !v.Panicking? ==> SameFrame(d, v.d)
  {
    if !msg.Request? || Serve(d, msg.payload).None? then Panicking
    else
      var (d1, answer) := Serve(d, msg.payload).value;
      var d2 := Respond(d1, msg.src, msg.id, answer);
      if msg.payload.StopDispatcher? then Stopping(d2) else Going(d2)
  }

  function FateOf(d: Engine, e: Envelope): Fate {
    if e.dst == d.dispId then ByDispatcher else if e.dst in d.reactives then ByBehavior else NoActor
  }

  /** The oldest message leaves the queue, and the log records who processes it. */
  function Take(d: Engine): Engine
    requires d.queue != []
  {
    d.(queue := d.queue[1..], log := d.log + [Dispatched(d.now, d.queue[0], FateOf(d, d.queue[0]))])
  }

  /** Take the oldest message of the queue and process it. */
  function Process(p: Program, d: Engine): (v: Verdict)
    requires d.queue != []
    ensures !v.Panicking? ==> SameFrame(Take(d), v.d)
  {
    var e := d.queue[0];
    var d1 := Take(d);
    match FateOf(d, e)
    case ByDispatcher => ProcessDispatcherMessage(d1, e.msg)
    case ByBehavior =>
      var b := d1.reactives[e.dst];
      var c := Context(e.dst, d1.now);
      Going(RunCommands(p, d1, b, c, e.msg, [], p.bound(b, c, e.msg)))
    case NoActor =>
      if e.msg.Request? then Going(Refuse(d1, AskOf(e), ActorDisappeared, TheBox(e.msg.payload))) else Going(d1)
  }

  /** Dropping the dispatcher: the queue is drained and closed, taken as one step. */
  function Drop(d: Engine): Engine {
    Drain(d).(open := false)
  }

  // ---------- mailboxes ----------

  /** `try_get_message`: the message set aside last, or else the oldest of the channel. */
  function TryGetMessage(box: Mailbox): (Mailbox, Option<Message>) {
    if box.aside != [] then
      var m := box.aside[|box.aside| - 1];
      (box.(aside := box.aside[..|box.aside| - 1], taken := box.taken + [m]), Some(m))
    else if box.rx != [] then
      (box.(rx := box.rx[1..], taken := box.taken + [box.rx[0]]), Some(box.rx[0]))
    else (box, None)
  }

  // ---------- timeouts ----------

  /** The notification for the owner of a pending entry, with its identifier. */
  function TimeoutOf(e: Entry): Envelope {
    Envelope(e.dst, Timeout(e.key.id), Fired(e))
  }

  /** Queue the first pending timeout if it is mature. The second result is the time to wait, or None
      if the messages are to be processed again (also when the queue had no room). */
  function TrySendNextTimeout(d: Engine): (r: (Engine, Option<Duration>))
    ensures r.1.Some? ==> r.0 == d
    ensures r.1.Some? && r.1.value != DURATION_MAX ==> d.now + r.1.value < DURATION_MAX
  {
    if d.sched.list == [] then (d, Some(DURATION_MAX))
    else
      var e := d.sched.list[0];
      var wait := SaturatingSub(e.key.deadline, Finite(d.now));
      if wait != 0 then (d, Some(wait))
      else if |d.queue| < d.capacity then
        (d.(queue := d.queue + [TimeoutOf(e)],
            sched := d.sched.(list := d.sched.list[1..])), None)
      else (d, None)
  }
}
