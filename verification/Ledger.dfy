/** Every request is accounted for: over any run, it is in exactly one of four places. */
module Ledger {
  import opened Instants
  import opened Timers
  import opened Engines

  /** The requests of a queue, in order. */
  function RequestsIn(q: seq<Envelope>): seq<Ask> {
    if q == [] then [] else (if q[0].msg.Request? then [AskOf(q[0])] else []) + RequestsIn(q[1..])
  }

  /** The requests that were handed to a behaviour or to the dispatcher itself, in order. */
  function HandledIn(log: seq<Dispatched>): seq<Ask> {
    if log == [] then []
    else
      var last := log[|log| - 1];
      HandledIn(log[..|log| - 1])
      + if last.envelope.msg.Request? && last.fate != NoActor then [AskOf(last.envelope)] else []
  }

  /** The requests for which an error response was attempted, in order. */
  function AnsweredIn(answers: seq<Answer>): seq<Ask> {
    seq(|answers|, i requires 0 <= i < |answers| => answers[i].ask)
  }

  function Times(a: Ask, s: seq<Ask>): nat {
    multiset(s)[a]
  }

  /** How often a request was issued, less how often it is queued, was handled, was answered with an error, or was
      put in the mailbox of an active actor. */
  function Balance(d: Engine, a: Ask): int {
    Tally(a, d.issued, d.queue, d.log, d.answers, d.mailed)
  }

  function Tally(a: Ask, issued: seq<Ask>, queue: seq<Envelope>, log: seq<Dispatched>, answers: seq<Answer>,
                 mailed: seq<Ask>): int {
    Times(a, issued) - Times(a, RequestsIn(queue)) - Times(a, HandledIn(log)) - Times(a, AnsweredIn(answers))
    - Times(a, mailed)
  }

  function One(a: Ask, b: Ask): nat {
    if a == b then 1 else 0
  }

  lemma TimesAppend(a: Ask, s: seq<Ask>, b: Ask)
    ensures Times(a, s + [b]) == Times(a, s) + One(a, b)
    ensures Times(a, [b] + s) == Times(a, s) + One(a, b)
  {
  }

  lemma {:induction false} RequestsInAppend(q: seq<Envelope>, e: Envelope)
    ensures RequestsIn(q + [e]) == RequestsIn(q) + if e.msg.Request? then [AskOf(e)] else []
  {
    if q == [] {
      assert q + [e] == [e] && [e][1..] == [];
    } else {
      RequestsInAppend(q[1..], e);
      assert (q + [e])[1..] == q[1..] + [e];
    }
  }

  lemma {:induction false} PostBalance(d: Engine, to: Addr, msg: Message, a: Ask)
    requires !msg.Request?
    ensures Balance(Post(d, to, msg).0, a) == Balance(d, a)
  {
    if to.Reactive? {
      RequestsInAppend(d.queue, Envelope(to.id, msg, Posted));
    }
  }

  /** The attempt of an error response accounts for the request. */
  lemma {:induction false} RefuseBalance(d: Engine, ask: Ask, error: Error, returned: Returned, a: Ask)
    ensures Balance(Refuse(d, ask, error, returned), a) == Balance(d, a) - One(a, ask)
  {
    var (d1, failed) := Post(d, ask.src, Response(ask.id, Err(error, returned)));
    PostBalance(d, ask.src, Response(ask.id, Err(error, returned)), a);
    assert AnsweredIn(d1.answers + [Answer(ask, error, failed)]) == AnsweredIn(d1.answers) + [ask];
    TimesAppend(a, AnsweredIn(d1.answers), ask);
  }

  /** Posting a request: it is queued, or in a mailbox, or nothing has changed. */
  lemma {:induction false} PostRequestBalance(d: Engine, to: Addr, src: Addr, id: U32, payload: Payload, a: Ask)
    ensures var (r, failed) := Post(d, to, Request(src, id, payload));
            && (failed.Some? ==> r == d)
            && (failed.None? ==>
                !to.Invalid?
                && Balance(r, a) == Balance(d, a) - if to.Reactive? then One(a, Ask(to, src, id, payload)) else 0)
  {
    if to.Reactive? {
      RequestsInAppend(d.queue, Envelope(to.id, Request(src, id, payload), Posted));
      TimesAppend(a, RequestsIn(d.queue), Ask(to, src, id, payload));
    }
  }

  lemma {:induction false} HistoryBalance(d: Engine, ask: Ask, a: Ask)
    ensures Balance(d.(issued := d.issued + [ask]), a) == Balance(d, a) + One(a, ask)
    ensures Balance(d.(mailed := d.mailed + [ask]), a) == Balance(d, a) - One(a, ask)
  {
    TimesAppend(a, d.issued, ask);
    TimesAppend(a, d.mailed, ask);
  }

  lemma {:induction false} ReceiveRequestBalance(d: Engine, to: Addr, src: Addr, id: U32, payload: Payload, a: Ask)
    ensures Balance(ReceiveRequest(d, to, src, id, payload), a) == Balance(d, a)
  {
    hide Balance, Post, Refuse;
    var ask := Ask(to, src, id, payload);
    var d0 := d.(issued := d.issued + [ask]);
    HistoryBalance(d, ask, a);
    PostRequestBalance(d0, to, src, id, payload, a);
    var (d1, failed) := Post(d0, to, Request(src, id, payload));
    if failed.Some? {
      forall returned ensures Balance(Refuse(d1, ask, failed.value, returned), a) == Balance(d, a) {
        RefuseBalance(d1, ask, failed.value, returned, a);
      }
    } else {
      HistoryBalance(d1, ask, a);
    }
  }

  lemma {:induction false} ExecuteBalance(d: Engine, own: ActorId, c: Command, a: Ask)
    ensures Balance(Execute(d, own, c).0, a) == Balance(d, a)
  {
    hide Post, ReceiveRequest, Tally;
    match c
    case SendNotification(to, payload) => PostBalance(d, to, Notification(payload), a);
    case SendRequest(to, payload) =>
      var id := WrappingIncrement(d.requestCounter);
      ReceiveRequestBalance(d.(requestCounter := id), to, Reactive(own), id, payload, a);
    case SendResponse(to, id, payload) => PostBalance(d, to, Response(id, Ok(payload)), a);
    case _ =>
  }

  /** Whatever every command keeps, and the update of a behaviour too, a whole call keeps. */
  lemma {:induction false} RunCommandsKeeps(f: Engine -> int, p: Program, d: Engine, b: Behavior, c: Context,
                                            msg: Message, replies: seq<Reply>, left: nat)
    requires forall e: Engine, own, command :: f(Execute(e, own, command).0) == f(e)
    requires forall e: Engine, m :: f(e.(reactives := m)) == f(e)
    ensures f(RunCommands(p, d, b, c, msg, replies, left)) == f(d)
    decreases left
  {
    var command := p.next(b, c, msg, replies);
    if left != 0 && command.Some? {
      var r := Execute(d, c.own, command.value);
      RunCommandsKeeps(f, p, r.0, b, c, msg, replies + [r.1], left - 1);
    }
  }

  lemma {:induction false} RunCommandsBalance(p: Program, d: Engine, b: Behavior, c: Context, msg: Message,
                                              replies: seq<Reply>, left: nat, a: Ask)
    ensures Balance(RunCommands(p, d, b, c, msg, replies, left), a) == Balance(d, a)
  {
    var f := (e: Engine) => Balance(e, a);
    forall e: Engine, own, command ensures f(Execute(e, own, command).0) == f(e) {
      ExecuteBalance(e, own, command, a);
    }
    RunCommandsKeeps(f, p, d, b, c, msg, replies, left);
  }

  lemma {:induction false} DrainOneBalance(d: Engine, a: Ask)
    requires d.queue != []
    ensures Balance(DrainOne(d), a) == Balance(d, a)
  {
    var e, d1 := d.queue[0], d.(queue := d.queue[1..], dropped := d.dropped + [d.queue[0]]);
    if e.msg.Request? {
      TimesAppend(a, RequestsIn(d1.queue), AskOf(e));
      RefuseBalance(d1, AskOf(e), ActorDisappeared, TheBox(e.msg.payload), a);
    }
  }

  lemma {:induction false} DrainBalance(d: Engine, a: Ask)
    ensures Balance(Drain(d), a) == Balance(d, a)
    decreases DrainMeasure(d.queue)
  {
    if d.queue != [] {
      DrainOneBalance(d, a);
      DrainBalance(DrainOne(d), a);
    }
  }

  lemma {:induction false} ApplyOpsBalance(d: Engine, ops: seq<RegistryOp>, a: Ask)
    ensures Balance(ApplyOps(d, ops).0, a) == Balance(d, a)
    decreases |ops|
  {
    hide Tally;
    if ops != [] {
      var d1 := ApplyOp(d, ops[0]).0;
      assert Balance(d1, a) == Balance(d, a);
      ApplyOpsBalance(d1, ops[1..], a);
    }
  }

  /** The message taken from the queue is handled according to the log, or is left to be answered. */
  lemma {:induction false} TakeBalance(d: Engine, a: Ask)
    requires d.queue != []
    ensures var e := d.queue[0];
            Balance(Take(d), a)
            == Balance(d, a) + if e.msg.Request? && FateOf(d, e) == NoActor then One(a, AskOf(e)) else 0
  {
    var e, d1 := d.queue[0], Take(d);
    assert d1.log[..|d1.log| - 1] == d.log;
    if e.msg.Request? {
      TimesAppend(a, RequestsIn(d1.queue), AskOf(e));
      TimesAppend(a, HandledIn(d.log), AskOf(e));
    }
  }

  lemma {:induction false} ServeBalance(d: Engine, payload: Payload, a: Ask)
    ensures Serve(d, payload).Some? ==> Balance(Serve(d, payload).value.0, a) == Balance(d, a)
  {
    match payload
    case RegisterReactive(Some(b)) => assert Balance(ApplyOp(d, Register(b)).0, a) == Balance(d, a);
    case ExecuteFn(ops) => ApplyOpsBalance(d, ops, a);
    case StopDispatcher =>
      DrainBalance(d, a);
      assert Balance(Drain(d).(reactives := map[]), a) == Balance(Drain(d), a);
    case _ =>
  }

  lemma {:induction false} ProcessDispatcherMessageBalance(d: Engine, msg: Message, a: Ask)
    ensures !ProcessDispatcherMessage(d, msg).Panicking? ==>
            Balance(ProcessDispatcherMessage(d, msg).d, a) == Balance(d, a)
  {
    if msg.Request? && Serve(d, msg.payload).Some? {
      ServeBalance(d, msg.payload, a);
      var (d1, answer) := Serve(d, msg.payload).value;
      if answer.Some? {
        PostBalance(d1, msg.src, Response(msg.id, Ok(answer.value)), a);
      }
    }
  }

  lemma {:induction false} ProcessBalance(p: Program, d: Engine, a: Ask)
    requires d.queue != []
    ensures !Process(p, d).Panicking? ==> Balance(Process(p, d).d, a) == Balance(d, a)
  {
    var e, d1 := d.queue[0], Take(d);
    TakeBalance(d, a);
    match FateOf(d, e)
    case ByDispatcher =>
      ProcessDispatcherMessageBalance(d1, e.msg, a);
    case ByBehavior =>
      var b, c := d1.reactives[e.dst], Context(e.dst, d1.now);
      RunCommandsBalance(p, d1, b, c, e.msg, [], p.bound(b, c, e.msg), a);
    case NoActor =>
      if e.msg.Request? {
        RefuseBalance(d1, AskOf(e), ActorDisappeared, TheBox(e.msg.payload), a);
      }
  }

  // ---------- whole runs ----------

  /** Anything that can happen to the engine, from inside a dispatch loop or from other threads. The owners of
      mailboxes, and break functions, may change them at will. */
  datatype Act =
    | Notify(to: Addr, payload: Payload)
    | AnswerTo(to: Addr, id: U32, payload: Payload)
    | SendRequestTo(to: Addr, src: Addr, id: U32, payload: Payload)
    | Apply(op: RegistryOp)
    | ProcessOne
    | SendTimeout
    | ChangeMailboxes(boxes: map<ActorId, Mailbox>)
    | Clock(now: Ticks)
    | DropDispatcher

  /** The state after an act, or None when it is not possible or the program panics. */
  function Perform(p: Program, d: Engine, a: Act): Option<Engine> {
    match a
    case Notify(to, payload) => Some(Post(d, to, Notification(payload)).0)
    case AnswerTo(to, id, payload) => Some(Post(d, to, Response(id, Ok(payload))).0)
    case SendRequestTo(to, src, id, payload) => Some(ReceiveRequest(d, to, src, id, payload))
    case Apply(op) => Some(ApplyOp(d, op).0)
    case ProcessOne => if d.queue == [] || !d.open || Process(p, d).Panicking? then None else Some(Process(p, d).d)
    case SendTimeout => if d.open then Some(TrySendNextTimeout(d).0) else None
    case ChangeMailboxes(boxes) => Some(d.(mailboxes := boxes))
    case Clock(now) => Some(d.(now := now))
    case DropDispatcher => Some(Drop(d))
  }

  function PerformAll(p: Program, d: Engine, acts: seq<Act>): Option<Engine>
    decreases |acts|
  {
    if acts == [] then Some(d)
    else match Perform(p, d, acts[0])
      case None => None
      case Some(d1) => PerformAll(p, d1, acts[1..])
  }

  lemma {:induction false} SendTimeoutBalance(d: Engine, a: Ask)
    ensures Balance(TrySendNextTimeout(d).0, a) == Balance(d, a)
  {
    if d.sched.list != [] {
      var e := d.sched.list[0];
      RequestsInAppend(d.queue, TimeoutOf(e));
    }
  }

  lemma {:induction false} DropBalance(d: Engine, a: Ask)
    ensures Balance(Drop(d), a) == Balance(d, a)
  {
    DrainBalance(d, a);
  }

  lemma {:induction false} PerformBalance(p: Program, d: Engine, act: Act, a: Ask)
    ensures Perform(p, d, act).Some? ==> Balance(Perform(p, d, act).value, a) == Balance(d, a)
  {
    hide Tally, Post, ReceiveRequest, Process, TrySendNextTimeout, Drop;
    match act
    case Notify(to, payload) => PostBalance(d, to, Notification(payload), a);
    case AnswerTo(to, id, payload) => PostBalance(d, to, Response(id, Ok(payload)), a);
    case SendRequestTo(to, src, id, payload) => ReceiveRequestBalance(d, to, src, id, payload, a);
    case Apply(op) => ApplyOpsBalance(d, [op], a);
    case ProcessOne =>
      if d.queue != [] {
        ProcessBalance(p, d, a);
      }
    case SendTimeout => SendTimeoutBalance(d, a);
    case ChangeMailboxes(boxes) =>
    case Clock(now) =>
    case DropDispatcher => DropBalance(d, a);
  }

  lemma {:induction false} RunBalance(p: Program, d: Engine, acts: seq<Act>, a: Ask)
    ensures PerformAll(p, d, acts).Some? ==> Balance(PerformAll(p, d, acts).value, a) == Balance(d, a)
    decreases |acts|
  {
    if acts != [] {
      PerformBalance(p, d, acts[0], a);
      if Perform(p, d, acts[0]).Some? {
        RunBalance(p, Perform(p, d, acts[0]).value, acts[1..], a);
      }
    }
  }

  /** No request, message or timer yet. */
  predicate Fresh(d: Engine) {
    d.queue == [] && d.issued == [] && d.mailed == [] && d.answers == [] && d.log == [] && d.dropped == []
  }

  /** After any run, every request was, as often as it was issued, still queued, handed once to the behaviour
      registered under its destination or to the dispatcher, answered with an error response of its own id attempted
      at its own source, or put in the mailbox of the active actor it was sent to. A request issued once is in
      exactly one place. */
  lemma {:induction false} EveryRequestInOnePlace(p: Program, d: Engine, acts: seq<Act>, a: Ask)
    requires Fresh(d) && PerformAll(p, d, acts).Some?
    ensures var r := PerformAll(p, d, acts).value;
            Times(a, r.issued)
            == Times(a, RequestsIn(r.queue)) + Times(a, HandledIn(r.log)) + Times(a, AnsweredIn(r.answers))
                                  + Times(a, r.mailed)
  {
    RunBalance(p, d, acts, a);
  }

  // ---------- the shutdown drain ----------

  /** The drain answers exactly the queued requests, once each and in order, even when the answers land in the
      very queue that is being drained. */
  lemma {:induction false} DrainAnswersEachOnce(d: Engine)
    ensures AnsweredIn(Drain(d).answers) == AnsweredIn(d.answers) + RequestsIn(d.queue)
    ensures forall i :: |d.answers| <= i < |Drain(d).answers| ==> Drain(d).answers[i].error == ActorDisappeared
    decreases DrainMeasure(d.queue)
  {
    if d.queue != [] {
      var e, d1 := d.queue[0], DrainOne(d);
      DrainAnswersEachOnce(d1);
      DrainOneLeavesRequests(d);
      DrainOneAnswer(d);
      DrainKeepsAnswers(d1);
      assert AnsweredIn(d1.answers) == AnsweredIn(d.answers) + if e.msg.Request? then [AskOf(e)] else [];
    }
  }

  /** The answers given first stay. */
  lemma {:induction false} DrainKeepsAnswers(d: Engine)
    ensures d.answers <= Drain(d).answers
    decreases DrainMeasure(d.queue)
  {
    if d.queue != [] {
      DrainKeepsAnswers(DrainOne(d));
      DrainOneAnswer(d);
    }
  }

  /** The answer that may land in the queue is not a request. */
  lemma {:induction false} DrainOneLeavesRequests(d: Engine)
    requires d.queue != []
    ensures RequestsIn(DrainOne(d).queue) == RequestsIn(d.queue[1..])
  {
    var e := d.queue[0];
    if e.msg.Request? {
      var d1 := d.(queue := d.queue[1..], dropped := d.dropped + [d.queue[0]]);
      forall msg: Message | !msg.Request?
        ensures RequestsIn(Post(d1, e.msg.src, msg).0.queue) == RequestsIn(d1.queue)
      {
        if e.msg.src.Reactive? {
          RequestsInAppend(d.queue[1..], Envelope(e.msg.src.id, msg, Posted));
        }
      }
    }
  }

  lemma DrainOneAnswer(d: Engine)
    requires d.queue != []
    ensures var e := d.queue[0]; var r := DrainOne(d);
            if e.msg.Request? then
              exists failed :: r.answers == d.answers + [Answer(AskOf(e), ActorDisappeared, failed)]
            else r.answers == d.answers
  {
  }

  /** An answer is the error response of its own request, posted at the end of the queue behind its source
      whenever that queue is there and has room; otherwise the attempt fails and changes nothing. */
  lemma AnswerGoesToSource(d: Engine, ask: Ask, error: Error, returned: Returned)
    ensures var r := Refuse(d, ask, error, returned); var msg := Response(ask.id, Err(error, returned));
            var failed := r.answers[|d.answers|].failed;
            && r == d.(queue := r.queue, mailboxes := r.mailboxes, answers := d.answers + [Answer(ask, error, failed)])
            && (failed.Some? ==> r.queue == d.queue && r.mailboxes == d.mailboxes)
            && match ask.src
               case Invalid => failed == Some(AddrUnreachable)
               case Reactive(id) =>
                 && (failed.None? <==> d.open && |d.queue| < d.capacity)
                 && (failed.None? ==> r.queue == d.queue + [Envelope(id, msg, Posted)] && r.mailboxes == d.mailboxes)
               case Active(id) =>
                 && (failed.None? <==> id in d.mailboxes && |d.mailboxes[id].rx| < d.mailboxes[id].capacity)
                 && (failed.None? ==> r.queue == d.queue && r.mailboxes == d.mailboxes[id := r.mailboxes[id]]
                                      && r.mailboxes[id] == d.mailboxes[id].(rx := d.mailboxes[id].rx + [msg]))
  {
  }
}
