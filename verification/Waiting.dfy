/** Waiting in simulated time for a message to an active actor. */
module Waiting {
  import opened Instants
  import opened Timers
  import opened Engines
  import opened Simulation
  import opened Timing
  import ActiveMailboxes

  type Asking<!S> = (S, Mailboxes) -> (S, Mailboxes, bool)

  /** Break as soon as the mailbox gives a message, and keep that message; without one, ask the caller's own
      function. */
  function AskFor<S>(id: ActorId, inner: Asking<S>): Asking<(S, Option<Message>)> {
    (memo: (S, Option<Message>), boxes: Mailboxes) =>
      if id in boxes && TryGetMessage(boxes[id]).1.Some? then
        var (box, msg) := TryGetMessage(boxes[id]);
        ((memo.0, msg), boxes[id := box], true)
      else
        var (s, rest, break_) := inner(memo.0, boxes);
        ((s, None), rest, break_)
  }

  /** The break function of `active_wait_message_until_cond`, around that of its caller. */
  function WaitFor<S>(id: ActorId, inner: Poll<S>): Poll<(S, Option<Message>)> {
    Poll((inner.memo, None), AskFor(id, inner.ask))
  }

  predicate InboxEmpty(d: Engine, id: ActorId) {
    id in d.mailboxes ==> TryGetMessage(d.mailboxes[id]).1.None?
  }

  /** The state of the simulator after k ticks without waiting, with the caller's break function. */
  function After<S>(p: Program, inner: Poll<S>, target: Instant, d: Engine, k: nat): Option<(Engine, Poll<S>)>
    decreases k
  {
    if k == 0 then Some((d, inner))
    else match Tick(p, inner, target, d)
      case Again(d1, inner1) => After(p, inner1, target, d1, k - 1)
      case _ => None
  }

  /** The state in which the next tick calls the break function. */
  function Polled(p: Program, d: Engine): Engine {
    if d.queue != [] && !Process(p, d).Panicking? then Process(p, d).d else d
  }

  /** No tick before the k-th one found a message. */
  ghost predicate NothingBefore<S(!new)>(p: Program, inner: Poll<S>, target: Instant, d: Engine, id: ActorId, k: nat) {
    forall j: nat :: j < k ==>
      && After(p, inner, target, d, j).Some?
      && InboxEmpty(Polled(p, After(p, inner, target, d, j).value.0), id)
  }

  lemma {:induction false} AfterNext<S(!new)>(p: Program, inner: Poll<S>, target: Instant, d: Engine, d1: Engine,
                                              inner1: Poll<S>, id: ActorId, k: nat)
    requires Tick(p, inner, target, d) == Again(d1, inner1) && InboxEmpty(Polled(p, d), id)
    requires NothingBefore(p, inner1, target, d1, id, k)
    ensures NothingBefore(p, inner, target, d, id, k + 1)
    ensures After(p, inner, target, d, k + 1) == After(p, inner1, target, d1, k)
  {
    forall j: nat | j < k + 1
      ensures After(p, inner, target, d, j).Some? && InboxEmpty(Polled(p, After(p, inner, target, d, j).value.0), id)
    {
      assert j > 0 ==> After(p, inner, target, d, j) == After(p, inner1, target, d1, j - 1);
    }
  }

  /** The end of a wait at which the first message of the mailbox is found. */
  function Found<S>(e: Engine, inner: Poll<S>, id: ActorId, why: Reason): Halted<(S, Option<Message>)>
    requires !InboxEmpty(e, id)
  {
    var (box, msg) := TryGetMessage(e.mailboxes[id]);
    Halted(e.(mailboxes := e.mailboxes[id := box]), why, WaitFor(id, inner).(memo := (inner.memo, msg)))
  }

  /** One tick: the same as without waiting if there is no message, and else the end with that message taken. */
  lemma TickWaiting<S>(p: Program, inner: Poll<S>, target: Instant, d: Engine, id: ActorId)
    ensures var t := Tick(p, WaitFor(id, inner), target, d); var e := Polled(p, d);
            match Tick(p, inner, target, d)
            case Crash => t.Crash?
            case Again(d1, inner1) =>
              if InboxEmpty(e, id) then t == Again(d1, WaitFor(id, inner1))
              else t.Halt? && t.out == Found(e, inner, id, Broke)
            case Halt(out) =>
              if InboxEmpty(e, id) then t == Halt(Halted(out.d, out.why, WaitFor(id, out.poll)))
              else t.Halt? && t.out.why != Reached && t.out == Found(e, inner, id, t.out.why)
  {
  }

  lemma TickClock<S>(p: Program, poll: Poll<S>, target: Instant, d: Engine)
    ensures Polled(p, d).now == d.now
    ensures var t := Tick(p, poll, target, d);
            t.Again? ==> d.now <= t.d.now && (AtMost(Finite(d.now), target) ==> AtMost(Finite(t.d.now), target))
  {
  }

  /** The wait follows the simulator, with any break function of the caller, up to the first tick that finds a
      message; it takes exactly that message and changes nothing else. If no tick finds one, it ends exactly as the
      simulator ends. */
  lemma {:induction false} WaitStopsAtFirstMessage<S(!new)>(p: Program, inner: Poll<S>, target: Instant, d: Engine,
                                                            id: ActorId, out: Halted<(S, Option<Message>)>, n: nat)
    returns (k: nat)
    requires Run(p, WaitFor(id, inner), target, d, n) == Some(out)
    ensures NothingBefore(p, inner, target, d, id, k) && After(p, inner, target, d, k).Some?
    ensures var (s, inner1) := After(p, inner, target, d, k).value; var e := Polled(p, s);
            && d.now <= s.now == e.now && (AtMost(Finite(d.now), target) ==> AtMost(Finite(s.now), target))
            && if InboxEmpty(e, id) then
                 exists plain: Halted<S> :: Tick(p, inner1, target, s) == Halt(plain)
                                            && out == Halted(plain.d, plain.why, WaitFor(id, plain.poll))
               else out.why != Reached && out == Found(e, inner1, id, out.why)
    decreases n
  {
    hide Tick, Polled;
    TickWaiting(p, inner, target, d, id);
    TickClock(p, inner, target, d);
    k := 0;
    if Tick(p, WaitFor(id, inner), target, d).Again? {
      var Again(d1, inner1) := Tick(p, inner, target, d);
      k := WaitStopsAtFirstMessage(p, inner1, target, d1, id, out, n - 1);
      AfterNext(p, inner, target, d, d1, inner1, id, k);
      k := k + 1;
    }
  }

  /** A wait that was ended neither by a message nor by the break function or a stop ends at its instant, with
      nothing left to process, and as the simulator ends without it. */
  lemma {:induction false} WaitTimesOutOnTime<S(!new)>(p: Program, inner: Poll<S>, target: Instant, d: Engine,
                                                       id: ActorId, out: Halted<(S, Option<Message>)>, n: nat)
    requires Run(p, WaitFor(id, inner), target, d, n) == Some(out) && AtMost(Finite(d.now), target)
    requires out.why == Reached
    ensures Finite(out.d.now) == target && out.d.queue == [] && out.poll.memo.1 == None
    ensures Ends(p, inner, target, d, Halted(out.d, Reached, Poll(out.poll.memo.0, inner.ask)))
  {
    RunEndsAtTarget(p, WaitFor(id, inner), target, d, out, n);
    var k := WaitStopsAtFirstMessage(p, inner, target, d, id, out, n);
    var (s, inner1) := After(p, inner, target, d, k).value;
    var plain: Halted<S> :|
      Tick(p, inner1, target, s) == Halt(plain) && out == Halted(plain.d, plain.why, WaitFor(id, plain.poll));
    AfterThenEnds(p, inner, target, d, k, plain);
    assert plain == Halted(out.d, Reached, Poll(out.poll.memo.0, inner.ask));
  }

  lemma AskStays<S>(p: Program, poll: Poll<S>, target: Instant, d: Engine)
    ensures match Tick(p, poll, target, d)
            case Again(_, poll1) => poll1.ask == poll.ask
            case Halt(out) => out.poll.ask == poll.ask
            case Crash => true
  {
  }

  lemma {:induction false} AfterThenEnds<S>(p: Program, inner: Poll<S>, target: Instant, d: Engine, k: nat,
                                            out: Halted<S>)
    requires After(p, inner, target, d, k).Some?
    requires var (s, inner1) := After(p, inner, target, d, k).value; Tick(p, inner1, target, s) == Halt(out)
    ensures Ends(p, inner, target, d, out) && out.poll.ask == inner.ask
    decreases k
  {
    AskStays(p, inner, target, d);
    hide Tick;
    EndsByTick(p, inner, target, d, out);
    if k > 0 {
      var Again(d1, inner1) := Tick(p, inner, target, d);
      AfterThenEnds(p, inner1, target, d1, k - 1, out);
    }
  }

  /** Until then the mailboxes only receive, if the caller has no break function of its own. */
  lemma {:induction false} WaitingOnlyReceives(p: Program, target: Instant, d: Engine, k: nat)
    requires After(p, NEVER_BREAK, target, d, k).Some?
    ensures OnlyReceives(d.mailboxes, Polled(p, After(p, NEVER_BREAK, target, d, k).value.0).mailboxes)
    decreases k
  {
    if d.queue != [] {
      ProcessEffect(p, d);
    }
    assert OnlyReceives(d.mailboxes, Polled(p, d).mailboxes);
    if k > 0 {
      NeverBreakStays(p, target, d);
      var d1 := Tick(p, NEVER_BREAK, target, d).d;
      assert d1.mailboxes == Polled(p, d).mailboxes;
      WaitingOnlyReceives(p, target, d1, k - 1);
    }
  }

  // ---------- a request in simulated time ----------

  datatype RequestResult = Answered(payload: Payload) | Failed(error: Error) | NoMessage | DowncastFailed

  /** What `active_request_until_cond` makes of the one message that its wait got. */
  function Judge(msg: Option<Message>, requestId: U32, expected: ActiveMailboxes.Expected): RequestResult {
    match msg
    case Some(Response(id, outcome)) =>
      if id != requestId then NoMessage
      else (match outcome
            case Ok(payload) => if expected(payload) then Answered(payload) else DowncastFailed
            case Err(error, _) => Failed(error))
    case _ => NoMessage
  }

  /** Message by message. */
  predicate JudgedRightly(result: RequestResult, msg: Message, requestId: U32, expected: ActiveMailboxes.Expected) {
    match msg
    case Response(id, Ok(payload)) =>
      result == if id != requestId then NoMessage else if expected(payload) then Answered(payload) else DowncastFailed
    case Response(id, Err(error, _)) => result == if id != requestId then NoMessage else Failed(error)
    case _ => result == NoMessage
  }

  /** The request is answered if and only if the first message that the mailbox ever gives is its answer. Any other
      message is taken out of the mailbox, and is lost: the result does not hold it. */
  lemma {:induction false} RequestSeesOneMessage<S(!new)>(p: Program, inner: Poll<S>, target: Instant, d: Engine,
                                                          id: ActorId, requestId: U32,
                                                          expected: ActiveMailboxes.Expected,
                                                          out: Halted<(S, Option<Message>)>, n: nat)
    returns (k: nat)
    requires Run(p, WaitFor(id, inner), target, d, n) == Some(out)
    ensures NothingBefore(p, inner, target, d, id, k) && After(p, inner, target, d, k).Some?
    ensures var e := Polled(p, After(p, inner, target, d, k).value.0);
            var result := Judge(out.poll.memo.1, requestId, expected);
            if InboxEmpty(e, id) then result == NoMessage
            else
              var (box, first) := TryGetMessage(e.mailboxes[id]);
              && out.d.mailboxes == e.mailboxes[id := box]
              && JudgedRightly(result, first.value, requestId, expected)
              && forall payload :: result == Answered(payload) <==>
                   first.value == Response(requestId, Ok(payload)) && expected(payload)
  {
    k := WaitStopsAtFirstMessage(p, inner, target, d, id, out, n);
  }

  /** What a mailbox that only receives gives first stays the same. */
  lemma FirstStays(before: Mailboxes, after: Mailboxes, id: ActorId)
    requires OnlyReceives(before, after) && id in before && TryGetMessage(before[id]).1.Some?
    ensures id in after && TryGetMessage(after[id]).1 == TryGetMessage(before[id]).1
  {
  }

  /** A request from a mailbox that is not empty is decided by the old message in it, whatever the request, its
      receiver and the rest of the program do: it is answered if and only if that old message happens to be its
      answer. */
  lemma {:induction false} OldMessageDecides<S(!new)>(p: Program, inner: Poll<S>, target: Instant, d: Engine,
                                                      id: ActorId, requestId: U32, dst: Addr, payload: Payload,
                                                      expected: ActiveMailboxes.Expected,
                                                      out: Halted<(S, Option<Message>)>, n: nat)
    requires id in d.mailboxes && !InboxEmpty(d, id)
    requires Run(p, WaitFor(id, inner), target, ReceiveRequest(d, dst, Active(id), requestId, payload), n) == Some(out)
    ensures out.poll.memo.1 == TryGetMessage(d.mailboxes[id]).1
    ensures Judge(out.poll.memo.1, requestId, expected) == Judge(TryGetMessage(d.mailboxes[id]).1, requestId, expected)
  {
    hide TryGetMessage;
    var sent := ReceiveRequest(d, dst, Active(id), requestId, payload);
    ReceiveRequestEffect(d, dst, Active(id), requestId, payload);
    FirstStays(d.mailboxes, sent.mailboxes, id);
    if sent.queue != [] {
      ProcessEffect(p, sent);
    }
    FirstStays(sent.mailboxes, Polled(p, sent).mailboxes, id);
    TickWaiting(p, inner, target, sent, id);
  }

  /** So the answer is not waited for when an old notification is in the mailbox: the call ends at once with
      nothing, and the notification is lost. */
  lemma {:induction false} OldNotificationDecides<S(!new)>(p: Program, inner: Poll<S>, target: Instant, d: Engine,
                                                           id: ActorId, requestId: U32, dst: ActorId,
                                                           payload: Payload, expected: ActiveMailboxes.Expected,
                                                           old_: Payload)
    returns (out: Halted<(S, Option<Message>)>)
    requires d.open && d.capacity > 0 && d.queue == [] && dst in d.reactives && dst != d.dispId
    requires id in d.mailboxes && d.mailboxes[id].aside == [] && d.mailboxes[id].rx == [Notification(old_)]
    ensures Run(p, WaitFor(id, inner), target, ReceiveRequest(d, Reactive(dst), Active(id), requestId, payload), 1)
            == Some(out)
    ensures Judge(out.poll.memo.1, requestId, expected) == NoMessage
    ensures out.d.now == d.now && id in out.d.mailboxes
            && out.d.mailboxes[id].taken == d.mailboxes[id].taken + [Notification(old_)]
  {
    var sent := ReceiveRequest(d, Reactive(dst), Active(id), requestId, payload);
    ReceiveRequestEffect(d, Reactive(dst), Active(id), requestId, payload);
    FirstStays(d.mailboxes, sent.mailboxes, id);
    ProcessEffect(p, sent);
    FirstStays(sent.mailboxes, Polled(p, sent).mailboxes, id);
    TickWaiting(p, inner, target, sent, id);
    out := Tick(p, WaitFor(id, inner), target, sent).out;
  }
}
