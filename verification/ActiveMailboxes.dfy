/** The queue of an active actor, and the selective receive of `request_for`. */
module ActiveMailboxes {
  import opened Instants
  import opened Timers
  import opened Engines

  /** What selective receive makes of a message: the answer, an error response that ends the call, a response of the
      expected type to another request, which is dropped, or anything else, which is set aside. */
  datatype Kind = IsAnswer | EndsCall | IsDropped | IsSetAside

  /** The type test of a response: `downcast::<TResponse>()`. */
  type Expected = Payload -> bool

  function KindOf(m: Message, id: U32, expected: Expected): Kind {
    match m
    case Response(requestId, Ok(payload)) =>
      if !expected(payload) then IsSetAside else if requestId == id then IsAnswer else IsDropped
    case Response(_, Err(_, _)) => EndsCall
    case _ => IsSetAside
  }

  predicate Ends(m: Message, id: U32, expected: Expected) {
    KindOf(m, id, expected) == IsAnswer || KindOf(m, id, expected) == EndsCall
  }

  function OfKind(stream: seq<Message>, kind: Kind, id: U32, expected: Expected): seq<Message> {
    if stream == [] then []
    else
      var n := |stream| - 1;
      OfKind(stream[..n], kind, id, expected) + if KindOf(stream[n], id, expected) == kind then [stream[n]] else []
  }

  /** Neither a response with an error nor one of the expected type: a notification, a timeout, a request, or a
      response that the caller is not asking for. */
  predicate Unrelated(m: Message, expected: Expected) {
    match m
    case Response(_, Ok(payload)) => !expected(payload)
    case Response(_, Err(_, _)) => false
    case _ => true
  }

  /** The unrelated messages of a stream, in order. */
  function Kept(stream: seq<Message>, expected: Expected): seq<Message> {
    if stream == [] then []
    else
      var n := |stream| - 1;
      Kept(stream[..n], expected) + if Unrelated(stream[n], expected) then [stream[n]] else []
  }

  /** A response of the expected type, but to another request. */
  predicate Stale(m: Message, id: U32, expected: Expected) {
    m.Response? && m.requestId != id && m.outcome.Ok? && expected(m.outcome.payload)
  }

  /** How a wait on the channel ends when no message comes any more. */
  datatype NoMore = TimedOut | Disconnected

  datatype CallResult = Answered(payload: Payload) | Failed(error: Error) | NoAnswer(why: NoMore)

  class ActiveMailbox {
    const id: ActorId
    const capacity: nat
    var rx: seq<Message>
    var messageList: seq<Message>
    var lastRequestId: U32

    constructor (id: ActorId, queueSize: nat)
      ensures rx == [] && messageList == [] && lastRequestId == 0 && capacity == queueSize
    {
      this.id, capacity, rx, messageList, lastRequestId := id, queueSize, [], [], 0;
    }

    function Box(): Mailbox
      reads this
    {
      Mailbox(capacity, rx, messageList, [])
    }

    method GenerateRequestId() returns (id: U32)
      modifies this`lastRequestId
      ensures id == lastRequestId == WrappingIncrement(old(lastRequestId))
    {
      lastRequestId := WrappingIncrement(lastRequestId);
      id := lastRequestId;
    }

    /** `try_get_message`: the messages set aside come first, the last one first. */
    method TryGetMessage() returns (msg: Option<Message>)
      modifies this`rx, this`messageList
      ensures msg == Engines.TryGetMessage(old(Box())).1
      ensures Box() == Engines.TryGetMessage(old(Box())).0.(taken := [])
    {
      if messageList != [] {
        msg := Some(messageList[|messageList| - 1]);
        messageList := messageList[..|messageList| - 1];
      } else if rx != [] {
        msg := Some(rx[0]);
        rx := rx[1..];
      } else {
        msg := None;
      }
    }

    /** `request_for`, after the request has been sent. Those in `incoming` arrive while it waits; then the channel
        gives `noMore`. Of the stream it takes the first k messages: all of them if none ends the call, and else up
        to the first one that does. Those it took and did not consume are set aside, in order. */
    method RequestFor(expected: Expected, incoming: seq<Message>, noMore: NoMore)
      returns (result: CallResult, ghost k: nat)
      modifies this
      ensures lastRequestId == WrappingIncrement(old(lastRequestId))
      ensures var stream := old(rx) + incoming;
              && k == Taken(stream, lastRequestId, expected) && rx == stream[k..]
              && messageList == old(messageList) + OfKind(stream[..k], IsSetAside, lastRequestId, expected)
              && match result
                 case Answered(payload) => k > 0 && stream[k - 1] == Response(lastRequestId, Ok(payload))
                                           && expected(payload)
                 case Failed(error) => k > 0 && stream[k - 1].Response? && stream[k - 1].outcome.Err?
                                       && stream[k - 1].outcome.error == error
                 case NoAnswer(why) => why == noMore && k == |stream|
                                       && (k > 0 ==> !Ends(stream[k - 1], lastRequestId, expected))
      ensures var stream := old(rx) + incoming;
              && messageList == old(messageList) + Kept(stream[..k], expected)
              && forall i :: 0 <= i < (if result.NoAnswer? then k else k - 1) ==>
                   Unrelated(stream[i], expected) || Stale(stream[i], lastRequestId, expected)
    {
      var requestId := GenerateRequestId();
      ghost var stream := rx + incoming;
      rx := rx + incoming;
      k := 0;
      while true
        invariant k <= |stream| && rx == stream[k..]
                  && lastRequestId == requestId == WrappingIncrement(old(lastRequestId))
        invariant messageList == old(messageList) + Kept(stream[..k], expected)
        invariant forall i :: 0 <= i < k ==> !Ends(stream[i], requestId, expected)
        invariant forall i :: 0 <= i < k ==> Unrelated(stream[i], expected) || Stale(stream[i], requestId, expected)
        decreases |rx|
      {
        if rx == [] {
          SetAsideIsKept(stream[..k], requestId, expected);
          return NoAnswer(noMore), k;
        }
        var m := rx[0];
        rx := rx[1..];
        k := k + 1;
        assert m == stream[k - 1] && stream[..k][..k - 1] == stream[..k - 1];
        match m {
          case Response(rid, Ok(payload)) =>
            if expected(payload) {
              if rid == requestId {
                SetAsideIsKept(stream[..k], requestId, expected);
                return Answered(payload), k;
              }
            } else {
              messageList := messageList + [m];
            }
          case Response(_, Err(error, _)) =>
            SetAsideIsKept(stream[..k], requestId, expected);
            return Failed(error), k;
          case _ =>
            messageList := messageList + [m];
        }
      }
    }
  }

  function Count(s: seq<Message>, m: Message): nat {
    if s == [] then 0 else Count(s[..|s| - 1], m) + if s[|s| - 1] == m then 1 else 0
  }

  lemma {:induction false} CountConcat(a: seq<Message>, b: seq<Message>, m: Message)
    ensures Count(a + b, m) == Count(a, m) + Count(b, m)
  {
    if b == [] {
      assert a + b == a;
    } else {
      CountConcat(a, b[..|b| - 1], m);
      assert (a + b)[..|a + b| - 1] == a + b[..|b| - 1];
    }
  }

  lemma {:induction false} CountLastOfKind(stream: seq<Message>, kind: Kind, id: U32, expected: Expected, m: Message)
    requires stream != []
    ensures var n := |stream| - 1;
            Count(OfKind(stream, kind, id, expected), m)
            == Count(OfKind(stream[..n], kind, id, expected), m)
               + if KindOf(stream[n], id, expected) == kind && stream[n] == m then 1 else 0
  {
    var n := |stream| - 1;
    CountConcat(OfKind(stream[..n], kind, id, expected), [stream[n]], m);
    assert [stream[n]][..0] == [];
    assert OfKind(stream[..n], kind, id, expected) + [] == OfKind(stream[..n], kind, id, expected);
  }

  /** Each message that a call takes from the channel is exactly one of: the returned answer, the error response
      that ended the call, a response of the expected type to another request, or set aside. */
  lemma {:induction false} EachMessageOnce(stream: seq<Message>, id: U32, expected: Expected, m: Message)
    ensures Count(stream, m)
         == Count(OfKind(stream, IsAnswer, id, expected), m) + Count(OfKind(stream, EndsCall, id, expected), m)
            + Count(OfKind(stream, IsDropped, id, expected), m) + Count(OfKind(stream, IsSetAside, id, expected), m)
  {
    if stream != [] {
      var n := |stream| - 1;
      EachMessageOnce(stream[..n], id, expected, m);
      forall kind
        ensures Count(OfKind(stream, kind, id, expected), m)
             == Count(OfKind(stream[..n], kind, id, expected), m)
                + if KindOf(stream[n], id, expected) == kind && stream[n] == m then 1 else 0
      {
        CountLastOfKind(stream, kind, id, expected, m);
      }
    }
  }

  /** Every unrelated message is kept as often as it was taken, and no other message is. */
  lemma {:induction false} KeptAsOften(stream: seq<Message>, expected: Expected, m: Message)
    ensures Count(Kept(stream, expected), m) == if Unrelated(m, expected) then Count(stream, m) else 0
  {
    if stream != [] {
      var n := |stream| - 1;
      KeptAsOften(stream[..n], expected, m);
      var last := if Unrelated(stream[n], expected) then [stream[n]] else [];
      CountConcat(Kept(stream[..n], expected), last, m);
      assert Unrelated(stream[n], expected) ==> last[..0] == [];
    }
  }

  /** They are set aside, and nothing else is. */
  lemma {:induction false} SetAsideIsKept(stream: seq<Message>, id: U32, expected: Expected)
    ensures OfKind(stream, IsSetAside, id, expected) == Kept(stream, expected)
  {
    if stream != [] {
      SetAsideIsKept(stream[..|stream| - 1], id, expected);
    }
  }

  /** When no message but the last may end the call, there is at most one that does. */
  lemma {:induction false} AtMostOneEnds(stream: seq<Message>, id: U32, expected: Expected)
    requires forall i :: 0 <= i < |stream| - 1 ==> !Ends(stream[i], id, expected)
    ensures |OfKind(stream, IsAnswer, id, expected)| + |OfKind(stream, EndsCall, id, expected)|
         == if stream != [] && Ends(stream[|stream| - 1], id, expected) then 1 else 0
  {
    if stream != [] {
      AtMostOneEnds(stream[..|stream| - 1], id, expected);
    }
  }

  // ---------- delivery ----------

  function Reverse(s: seq<Message>): seq<Message> {
    if s == [] then [] else [s[|s| - 1]] + Reverse(s[..|s| - 1])
  }

  /** What the actor gets when it asks for messages until there is none. */
  function DeliverAll(box: Mailbox): seq<Message>
    decreases |box.aside| + |box.rx|
  {
    var (rest, msg) := TryGetMessage(box);
    if msg.None? then [] else [msg.value] + DeliverAll(rest)
  }

  /** Every message set aside is delivered exactly once, last in first out, and before anything in the channel; the
      channel itself is delivered in order. */
  lemma {:induction false} SetAsideComesFirst(box: Mailbox)
    ensures DeliverAll(box) == Reverse(box.aside) + box.rx
    decreases |box.aside| + |box.rx|
  {
    var (rest, msg) := TryGetMessage(box);
    if msg.Some? {
      SetAsideComesFirst(rest);
      if box.aside == [] {
        assert box.rx == [box.rx[0]] + box.rx[1..];
      }
    }
  }

  lemma {:induction false} ReverseKeepsAll(s: seq<Message>)
    ensures multiset(Reverse(s)) == multiset(s) && |Reverse(s)| == |s|
    ensures forall i :: 0 <= i < |s| ==> Reverse(s)[i] == s[|s| - 1 - i]
  {
    if s != [] {
      ReverseKeepsAll(s[..|s| - 1]);
      assert s == s[..|s| - 1] + [s[|s| - 1]];
    }
  }

  // ---------- any sequence of calls and gets ----------

  /** How many messages of the stream a call takes. */
  function Taken(stream: seq<Message>, id: U32, expected: Expected): (k: nat)
    ensures k <= |stream|
    ensures forall i :: 0 <= i < k - 1 ==> !Ends(stream[i], id, expected)
    ensures k < |stream| ==> k > 0 && Ends(stream[k - 1], id, expected)
  {
    if stream == [] then 0
    else if Ends(stream[0], id, expected) then 1
    else 1 + Taken(stream[1..], id, expected)
  }

  /** A mailbox, and as history the messages that arrived, those delivered and those consumed by calls. */
  datatype Desk = Desk(box: Mailbox, lastId: U32, arrived: seq<Message>, delivered: seq<Message>,
                       consumed: seq<Message>)

  /** Messages arrive at any time: while a call waits for them, and otherwise. */
  datatype Op = Get | Arrive(messages: seq<Message>) | Call(expected: Expected, incoming: seq<Message>)

  function Do(s: Desk, op: Op): Desk {
    match op
    case Get =>
      var (rest, msg) := TryGetMessage(s.box);
      s.(box := rest, delivered := s.delivered + if msg.Some? then [msg.value] else [])
    case Arrive(messages) => s.(box := s.box.(rx := s.box.rx + messages), arrived := s.arrived + messages)
    case Call(expected, incoming) =>
      var id := WrappingIncrement(s.lastId);
      var stream := s.box.rx + incoming;
      var taken := stream[..Taken(stream, id, expected)];
      Desk(s.box.(rx := stream[|taken|..], aside := s.box.aside + OfKind(taken, IsSetAside, id, expected)), id,
           s.arrived + incoming, s.delivered,
           s.consumed + OfKind(taken, IsAnswer, id, expected) + OfKind(taken, EndsCall, id, expected)
           + OfKind(taken, IsDropped, id, expected))
  }

  function DoAll(s: Desk, ops: seq<Op>): Desk
    decreases |ops|
  {
    if ops == [] then s else DoAll(Do(s, ops[0]), ops[1..])
  }

  function Whereabouts(s: Desk, m: Message): int {
    Count(s.arrived, m) - Count(s.box.rx, m) - Count(s.box.aside, m) - Count(s.delivered, m) - Count(s.consumed, m)
  }

  lemma {:induction false} GetKeepsWhereabouts(s: Desk, m: Message)
    ensures Whereabouts(Do(s, Get), m) == Whereabouts(s, m)
  {
    hide Count;
    var (rest, msg) := TryGetMessage(s.box);
    if msg.Some? {
      CountConcat(s.delivered, [msg.value], m);
      CountConcat(rest.aside, [msg.value], m);
      CountConcat([msg.value], rest.rx, m);
      assert s.box.aside == [] || s.box.aside == rest.aside + [msg.value];
      assert s.box.aside != [] || s.box.rx == [msg.value] + rest.rx;
    } else {
      assert s.delivered + [] == s.delivered;
    }
  }

  lemma {:induction false} CountOfFour(a: seq<Message>, b: seq<Message>, c: seq<Message>, d: seq<Message>, m: Message)
    ensures Count(a + b + c + d, m) == Count(a, m) + Count(b, m) + Count(c, m) + Count(d, m)
  {
    CountConcat(a, b, m);
    CountConcat(a + b, c, m);
    CountConcat(a + b + c, d, m);
  }

  lemma {:induction false} StreamParts(rx: seq<Message>, incoming: seq<Message>, k: nat, id: U32, expected: Expected,
                                       m: Message)
    requires k <= |rx + incoming|
    ensures var stream := rx + incoming;
            Count(rx, m) + Count(incoming, m) == Count(stream[k..], m)
              + Count(OfKind(stream[..k], IsAnswer, id, expected), m)
              + Count(OfKind(stream[..k], EndsCall, id, expected), m)
              + Count(OfKind(stream[..k], IsDropped, id, expected), m)
              + Count(OfKind(stream[..k], IsSetAside, id, expected), m)
  {
    var stream := rx + incoming;
    CountConcat(rx, incoming, m);
    assert stream == stream[..k] + stream[k..];
    CountConcat(stream[..k], stream[k..], m);
    EachMessageOnce(stream[..k], id, expected, m);
  }

  lemma {:induction false} CallKeepsWhereabouts(s: Desk, expected: Expected, incoming: seq<Message>, m: Message)
    ensures Whereabouts(Do(s, Call(expected, incoming)), m) == Whereabouts(s, m)
  {
    hide Count;
    hide OfKind;
    var id, stream := WrappingIncrement(s.lastId), s.box.rx + incoming;
    var k := Taken(stream, id, expected);
    StreamParts(s.box.rx, incoming, k, id, expected, m);
    CountConcat(s.arrived, incoming, m);
    CountConcat(s.box.aside, OfKind(stream[..k], IsSetAside, id, expected), m);
    CountOfFour(s.consumed, OfKind(stream[..k], IsAnswer, id, expected), OfKind(stream[..k], EndsCall, id, expected),
                OfKind(stream[..k], IsDropped, id, expected), m);
  }

  lemma {:induction false} ArriveKeepsWhereabouts(s: Desk, messages: seq<Message>, m: Message)
    ensures Whereabouts(Do(s, Arrive(messages)), m) == Whereabouts(s, m)
  {
    CountConcat(s.arrived, messages, m);
    CountConcat(s.box.rx, messages, m);
  }

  /** Over any sequence of arrivals, calls and gets no message is lost or doubled: each one that arrived is in the
      channel, set aside, delivered, or was consumed by a call. */
  lemma {:induction false} NoMessageLost(s: Desk, ops: seq<Op>, m: Message)
    ensures Whereabouts(DoAll(s, ops), m) == Whereabouts(s, m)
    decreases |ops|
  {
    if ops != [] {
      match ops[0] {
        case Get => GetKeepsWhereabouts(s, m);
        case Arrive(messages) => ArriveKeepsWhereabouts(s, messages, m);
        case Call(expected, incoming) => CallKeepsWhereabouts(s, expected, incoming, m);
      }
      NoMessageLost(Do(s, ops[0]), ops[1..], m);
    }
  }

  // ---------- the order of delivery ----------

  /** What gets will deliver from now on if nothing else happens. */
  function Upcoming(s: Desk): seq<Message> {
    Reverse(s.box.aside) + s.box.rx
  }

  lemma {:induction false} ReverseConcat(a: seq<Message>, b: seq<Message>)
    ensures Reverse(a + b) == Reverse(b) + Reverse(a)
  {
    if b == [] {
      assert a + b == a;
    } else {
      var n := |b| - 1;
      assert (a + b)[..|a + b| - 1] == a + b[..n];
      ReverseConcat(a, b[..n]);
      assert [b[n]] + (Reverse(b[..n]) + Reverse(a)) == [b[n]] + Reverse(b[..n]) + Reverse(a);
    }
  }

  /** A get delivers the next of them, or nothing when there is none. */
  lemma {:induction false} GetDeliversNext(s: Desk)
    ensures var r := Do(s, Get); r.delivered + Upcoming(r) == s.delivered + Upcoming(s)
    ensures Do(s, Get) == s <==> Upcoming(s) == []
  {
    var r := Do(s, Get);
    if s.box.aside != [] {
      var next := s.box.aside[|s.box.aside| - 1];
      assert Upcoming(s) == [next] + Upcoming(r);
      assert r.delivered == s.delivered + [next];
    } else if s.box.rx != [] {
      assert Upcoming(s) == [s.box.rx[0]] + Upcoming(r);
    } else {
      assert s.delivered + [] == s.delivered;
    }
  }

  /** A call puts what it sets aside in front of everything, the last one first, and what it leaves in the channel
      keeps its place: a newer message that a call sets aside overtakes those set aside before. */
  lemma {:induction false} CallPutsInFront(s: Desk, expected: Expected, incoming: seq<Message>)
    ensures var id, stream := WrappingIncrement(s.lastId), s.box.rx + incoming; var k := Taken(stream, id, expected);
            Upcoming(Do(s, Call(expected, incoming)))
            == Reverse(OfKind(stream[..k], IsSetAside, id, expected)) + Reverse(s.box.aside) + stream[k..]
  {
    var id, stream := WrappingIncrement(s.lastId), s.box.rx + incoming;
    ReverseConcat(s.box.aside, OfKind(stream[..Taken(stream, id, expected)], IsSetAside, id, expected));
  }

  /** What a call does to the mailbox, message by message: it takes the first k, up to one that ends it; it keeps
      the unrelated ones behind those set aside before; the others are the one that ends the call, and responses of
      the expected type to other requests. */
  lemma {:induction false} CallKeepsUnrelated(s: Desk, expected: Expected, incoming: seq<Message>) returns (k: nat)
    ensures var id, stream, r := WrappingIncrement(s.lastId), s.box.rx + incoming, Do(s, Call(expected, incoming));
            && k <= |stream| && r.box.rx == stream[k..] && r.lastId == id && r.delivered == s.delivered
            && r.box.aside == s.box.aside + Kept(stream[..k], expected)
            && (forall i :: 0 <= i < k - 1 ==> Unrelated(stream[i], expected) || Stale(stream[i], id, expected))
            && (k < |stream| ==> k > 0 && !(Unrelated(stream[k - 1], expected) || Stale(stream[k - 1], id, expected)))
  {
    var id, stream := WrappingIncrement(s.lastId), s.box.rx + incoming;
    k := Taken(stream, id, expected);
    SetAsideIsKept(stream[..k], id, expected);
    forall i | 0 <= i < |stream|
      ensures Ends(stream[i], id, expected) <==> !(Unrelated(stream[i], expected) || Stale(stream[i], id, expected))
    {
    }
  }

  predicate NoCalls(ops: seq<Op>) {
    forall i :: 0 <= i < |ops| ==> !ops[i].Call?
  }

  function ArrivedBy(op: Op): seq<Message> {
    if op.Arrive? then op.messages else []
  }

  function ArrivedIn(ops: seq<Op>): seq<Message> {
    if ops == [] then [] else ArrivedBy(ops[0]) + ArrivedIn(ops[1..])
  }

  lemma {:induction false} StepInOrder(s: Desk, op: Op)
    requires !op.Call?
    ensures var r := Do(s, op); r.delivered + Upcoming(r) == s.delivered + Upcoming(s) + ArrivedBy(op)
  {
    if op.Get? {
      GetDeliversNext(s);
    } else {
      var front := Reverse(s.box.aside);
      assert front + (s.box.rx + op.messages) == front + s.box.rx + op.messages;
      assert s.delivered + (Upcoming(s) + op.messages) == s.delivered + Upcoming(s) + op.messages;
    }
  }

  /** Between calls, in any sequence of gets and arrivals, delivery is in order: first the messages set aside, the
      last one first, then those in the channel, then the newer ones as they arrive. */
  lemma {:induction false} DeliveredInOrder(s: Desk, ops: seq<Op>)
    requires NoCalls(ops)
    ensures var r := DoAll(s, ops); r.delivered + Upcoming(r) == s.delivered + Upcoming(s) + ArrivedIn(ops)
    decreases |ops|
  {
    hide Do, Upcoming, ArrivedBy;
    if ops != [] {
      DeliveredInOrder(Do(s, ops[0]), ops[1..]);
      StepInOrder(s, ops[0]);
      var before := s.delivered + Upcoming(s);
      assert before + (ArrivedBy(ops[0]) + ArrivedIn(ops[1..])) == before + ArrivedBy(ops[0]) + ArrivedIn(ops[1..]);
    }
  }

  lemma {:induction false} KeptOrDelivered(s: Desk, op: Op, m: Message)
    ensures var r := Do(s, op);
            Count(r.delivered, m) + Count(r.box.aside, m) >= Count(s.delivered, m) + Count(s.box.aside, m)
  {
    hide Count;
    match op
    case Get =>
      var (rest, msg) := TryGetMessage(s.box);
      if msg.Some? {
        CountConcat(s.delivered, [msg.value], m);
        CountConcat(rest.aside, [msg.value], m);
        assert s.box.aside == [] || s.box.aside == rest.aside + [msg.value];
      } else {
        assert s.delivered + [] == s.delivered;
      }
    case Arrive(_) =>
    case Call(expected, incoming) =>
      var id, stream := WrappingIncrement(s.lastId), s.box.rx + incoming;
      CountConcat(s.box.aside, OfKind(stream[..Taken(stream, id, expected)], IsSetAside, id, expected), m);
  }

  /** In any run, calls included, every message ever set aside has been delivered by the time a get may take a
      message from the channel: a get looks there only when nothing is set aside. */
  lemma {:induction false} SetAsideBeforeChannel(s: Desk, ops: seq<Op>, m: Message)
    ensures var r := DoAll(s, ops);
            Count(r.delivered, m) + Count(r.box.aside, m) >= Count(s.delivered, m) + Count(s.box.aside, m)
    ensures var r := DoAll(s, ops);
            r.box.aside == [] ==> Count(r.delivered, m) >= Count(s.delivered, m) + Count(s.box.aside, m)
    decreases |ops|
  {
    if ops != [] {
      KeptOrDelivered(s, ops[0], m);
      SetAsideBeforeChannel(Do(s, ops[0]), ops[1..], m);
    }
  }
}
