/** What a call of a behaviour does: its commands are carried out one after the other, and each of them has the
    effect that its sender can count on. */
module Commands {
  import opened Instants
  import opened Timers
  import opened Engines
  import opened Ordering
  import opened Owners

  // ---------- one send ----------

  /** The queue behind the address is there and has room. */
  predicate HasRoom(d: Engine, to: Addr) {
    match to
    case Invalid => false
    case Reactive(_) => d.open && |d.queue| < d.capacity
    case Active(id) => id in d.mailboxes && |d.mailboxes[id].rx| < d.mailboxes[id].capacity
  }

  /** The queue behind the address is there, but full. */
  predicate IsFull(d: Engine, to: Addr) {
    match to
    case Invalid => false
    case Reactive(_) => d.open && |d.queue| >= d.capacity
    case Active(id) => id in d.mailboxes && |d.mailboxes[id].rx| >= d.mailboxes[id].capacity
  }

  /** The message is the last one behind the address, for that actor, and nothing else has moved. */
  predicate Arrived(d: Engine, r: Engine, to: Addr, msg: Message) {
    match to
    case Invalid => false
    case Reactive(id) => r.queue == d.queue + [Envelope(id, msg, Posted)] && r.mailboxes == d.mailboxes
    case Active(id) =>
      && r.queue == d.queue && r.mailboxes.Keys == d.mailboxes.Keys && id in d.mailboxes
      && r.mailboxes[id].rx == d.mailboxes[id].rx + [msg] && r.mailboxes[id].aside == d.mailboxes[id].aside
      && forall other :: other in d.mailboxes && other != id ==> r.mailboxes[other] == d.mailboxes[other]
  }

  /** What a failed send reports: a queue that is full, or one that is not there. */
  function Reason(d: Engine, to: Addr): Error {
    if IsFull(d, to) then QueueFull else AddrUnreachable
  }

  lemma PostArrives(d: Engine, to: Addr, msg: Message)
    ensures var (r, failed) := Post(d, to, msg);
            if HasRoom(d, to) then
              failed == None && Arrived(d, r, to, msg) && r == d.(queue := r.queue, mailboxes := r.mailboxes)
            else failed == Some(Reason(d, to)) && r == d
  {
  }

  /** A request either arrives, or its sender is sent the reason and what it had asked for, if there is room for
      that. */
  lemma RequestArrives(d: Engine, to: Addr, src: Addr, id: U32, payload: Payload)
    ensures var r := ReceiveRequest(d, to, src, id, payload);
            if HasRoom(d, to) then Arrived(d, r, to, Request(src, id, payload)) && r.answers == d.answers
            else
              var returned := match to
                case Invalid => TheValue(payload)
                case Reactive(_) => TheMessage(Request(src, id, payload))
                case Active(_) => TheBox(payload);
              if HasRoom(d, src) then Arrived(d, r, src, Response(id, Err(Reason(d, to), returned)))
              else r.queue == d.queue && r.mailboxes == d.mailboxes
  {
  }

  // ---------- one command ----------

  lemma {:induction false} NotificationArrives(d: Engine, own: ActorId, to: Addr, payload: Payload)
    ensures var (r, reply) := Execute(d, own, SendNotification(to, payload));
            if HasRoom(d, to) then reply == Sent(None) && Arrived(d, r, to, Notification(payload))
            else reply == Sent(Some(Reason(d, to))) && r == d
  {
    PostArrives(d, to, Notification(payload));
  }

  lemma {:induction false} ResponseArrives(d: Engine, own: ActorId, to: Addr, id: U32, payload: Payload)
    ensures var (r, reply) := Execute(d, own, SendResponse(to, id, payload));
            reply == NoReply && if HasRoom(d, to) then Arrived(d, r, to, Response(id, Ok(payload))) else r == d
  {
    PostArrives(d, to, Response(id, Ok(payload)));
  }

  /** The request carries the identifier that its sender is told, one more than that of the request before it, and
      the address of its sender. */
  lemma {:induction false} OwnRequestArrives(d: Engine, own: ActorId, to: Addr, payload: Payload)
    ensures var (r, reply) := Execute(d, own, SendRequest(to, payload));
            && reply.Requested? && reply.id == r.requestCounter == (d.requestCounter + 1) % U32_SIZE
            && (HasRoom(d, to) ==> Arrived(d, r, to, Request(Reactive(own), reply.id, payload)))
            && (!HasRoom(d, to) && HasRoom(d, Reactive(own)) ==>
                exists returned :: Arrived(d, r, Reactive(own), Response(reply.id, Err(Reason(d, to), returned))))
  {
    var id := WrappingIncrement(d.requestCounter);
    var d0 := d.(requestCounter := id);
    RequestArrives(d0, to, Reactive(own), id, payload);
    var r := Execute(d, own, SendRequest(to, payload)).0;
    if !HasRoom(d, to) && HasRoom(d, Reactive(own)) {
      var returned := match to
        case Invalid => TheValue(payload)
        case Reactive(_) => TheMessage(Request(Reactive(own), id, payload))
        case Active(_) => TheBox(payload);
      assert Reason(d0, to) == Reason(d, to);
      assert Arrived(d, r, Reactive(own), Response(id, Err(Reason(d, to), returned)));
    }
  }

  /** The timer that the actor gets back is in the map, for that actor, with a new identifier and the deadline asked
      for; the timer it gave is not there any more; all others are. */
  lemma {:induction false} TimerIsArmed(d: Engine, own: ActorId, timer: Timer, instant: Instant)
    requires Numbered(d.sched)
    ensures var (r, reply) := Execute(d, own, Schedule(timer, instant));
            && reply.TimerNow? && reply.timer == Timer(d.sched.nextId, instant)
            && r == d.(sched := r.sched) && r.sched.armed == d.sched.armed + 1
            && var armed := Entry(reply.timer, own, Arm(d.sched.armed, d.now));
               forall e :: e in r.sched.list <==>
                 e == armed || (e in d.sched.list && e.key != armed.key
                                && !(timer.deadline.Finite? && e.key == timer && e.dst == own))
  {
    var s1 := Unschedule(d.sched, timer, own).0;
    RemoveIsMapRemoval(d.sched.list, timer, own);
    InsertIsMapUpdate(s1.list, Entry(Timer(s1.nextId, instant), own, Arm(s1.armed, d.now)));
  }

  /** The timer that the actor gets back is at infinity, and the one it gave is not in the map any more; all others
      are. */
  lemma {:induction false} TimerIsCancelled(d: Engine, own: ActorId, timer: Timer)
    requires Numbered(d.sched)
    ensures var (r, reply) := Execute(d, own, Cancel(timer));
            && reply == TimerNow(Timer(timer.id, Infinity))
            && r == d.(sched := r.sched) && r.sched.armed == d.sched.armed
            && forall e :: e in r.sched.list <==>
                 e in d.sched.list && !(timer.deadline.Finite? && e.key == timer && e.dst == own)
  {
    RemoveIsMapRemoval(d.sched.list, timer, own);
  }

  // ---------- one call ----------

  /** The engines and the replies of a call: every command is the next one that the behaviour wants after the
      replies so far, every engine and every reply are those that this command gives, and the call goes on until the
      behaviour wants no more. */
  predicate IsCall(p: Program, b: Behavior, c: Context, msg: Message, engines: seq<Engine>, replies: seq<Reply>) {
    && |engines| == |replies| + 1
    && (forall k :: 0 <= k < |replies| ==> IsStep(p, b, c, msg, engines, replies, k))
    && (|replies| == p.bound(b, c, msg) || p.next(b, c, msg, replies).None?)
  }

  predicate IsStep(p: Program, b: Behavior, c: Context, msg: Message, engines: seq<Engine>, replies: seq<Reply>, k: nat)
    requires k < |replies| < |engines|
  {
    && p.next(b, c, msg, replies[..k]).Some?
    && (engines[k + 1], replies[k]) == Execute(engines[k], c.own, p.next(b, c, msg, replies[..k]).value)
  }

  lemma {:induction false} CallFrom(p: Program, d: Engine, b: Behavior, c: Context, msg: Message,
                                    engines: seq<Engine>, replies: seq<Reply>, left: nat)
    returns (es: seq<Engine>, rs: seq<Reply>)
    requires |engines| == |replies| + 1 && engines[|replies|] == d && |replies| + left == p.bound(b, c, msg)
    requires forall k :: 0 <= k < |replies| ==> IsStep(p, b, c, msg, engines, replies, k)
    ensures engines <= es && replies <= rs && IsCall(p, b, c, msg, es, rs)
    ensures RunCommands(p, d, b, c, msg, replies, left)
         == es[|rs|].(reactives := es[|rs|].reactives[c.own := p.after(b, c, msg, rs)])
    decreases left
  {
    hide Execute;
    var command := p.next(b, c, msg, replies);
    if left == 0 || command.None? {
      es, rs := engines, replies;
    } else {
      var (d1, reply) := Execute(d, c.own, command.value);
      var more, longer := engines + [d1], replies + [reply];
      forall k | 0 <= k < |longer| ensures IsStep(p, b, c, msg, more, longer, k) {
        if k < |replies| {
          assert IsStep(p, b, c, msg, engines, replies, k);
          assert longer[..k] == replies[..k];
        } else {
          assert longer[..k] == replies;
        }
      }
      es, rs := CallFrom(p, d1, b, c, msg, more, longer, left - 1);
    }
  }

  /** A message for a registered actor is processed by carrying out the commands of its behaviour, and nothing else;
      then the behaviour is what its code makes of the replies. */
  lemma {:induction false} CommandsAreCarriedOut(p: Program, d: Engine)
    returns (engines: seq<Engine>, replies: seq<Reply>)
    requires d.queue != [] && FateOf(d, d.queue[0]) == ByBehavior
    ensures var e := d.queue[0]; var b := d.reactives[e.dst]; var c := Context(e.dst, d.now);
            && IsCall(p, b, c, e.msg, engines, replies)
            && engines[0] == d.(queue := d.queue[1..], log := d.log + [Dispatched(d.now, e, ByBehavior)])
            && var last := engines[|replies|];
               Process(p, d) == Going(last.(reactives := last.reactives[e.dst := p.after(b, c, e.msg, replies)]))
  {
    var e := d.queue[0];
    var b, c := d.reactives[e.dst], Context(e.dst, d.now);
    engines, replies := CallFrom(p, Take(d), b, c, e.msg, [Take(d)], [], p.bound(b, c, e.msg));
  }

  /** So a message that the behaviour sends first, to an actor of the same dispatcher and with room in the queue, is
      there after the call, right behind what was queued before; and whatever else the call sends comes behind it. */
  lemma {:induction false} FirstMessageStays(p: Program, d: Engine, to: ActorId, msg: Message)
    requires d.queue != [] && FateOf(d, d.queue[0]) == ByBehavior && HasRoom(Take(d), Reactive(to))
    requires var e := d.queue[0]; var b := d.reactives[e.dst]; var c := Context(e.dst, d.now);
             && p.bound(b, c, e.msg) > 0
             && match msg
                case Notification(payload) => p.next(b, c, e.msg, []) == Some(SendNotification(Reactive(to), payload))
                case Response(id, Ok(payload)) =>
                  p.next(b, c, e.msg, []) == Some(SendResponse(Reactive(to), id, payload))
                case Request(src, id, payload) =>
                  p.next(b, c, e.msg, []) == Some(SendRequest(Reactive(to), payload)) && src == Reactive(e.dst)
                  && id == (d.requestCounter + 1) % U32_SIZE
                case _ => false
    ensures Process(p, d).Going? && d.queue[1..] + [Envelope(to, msg, Posted)] <= Process(p, d).d.queue
  {
    var e, d0 := d.queue[0], Take(d);
    var b, c := d.reactives[e.dst], Context(e.dst, d.now);
    var command := p.next(b, c, e.msg, []).value;
    match msg {
      case Notification(payload) => NotificationArrives(d0, e.dst, Reactive(to), payload);
      case Response(id, Ok(payload)) => ResponseArrives(d0, e.dst, Reactive(to), id, payload);
      case Request(src, id, payload) => OwnRequestArrives(d0, e.dst, Reactive(to), payload);
      case _ =>
    }
    var (d1, reply) := Execute(d0, e.dst, command);
    var _ := RunCommandsGrows(p, d1, b, c, e.msg, [reply], p.bound(b, c, e.msg) - 1);
    assert [] + [reply] == [reply];
  }
}
