/** The order of messages: all actors of a dispatcher share one bounded queue, first in, first out. */
module Ordering {
  import opened Instants
  import opened Timers
  import opened Engines
  import opened Ledger

  function Envelopes(log: seq<Dispatched>): seq<Envelope> {
    seq(|log|, i requires 0 <= i < |log| => log[i].envelope)
  }

  /** Everything ever queued, in the order in which it was queued: what was taken out, and what is still there. */
  function Queued(d: Engine): seq<Envelope> {
    Envelopes(d.log) + d.queue
  }

  /** The queue only grows at its end, by messages posted, within its capacity, and the log and the clock stay. */
  predicate Grows(d: Engine, r: Engine) {
    && SameFrame(d, r) && d.queue <= r.queue
    && (forall i :: |d.queue| <= i < |r.queue| ==> r.queue[i].origin.Posted?)
    && (|d.queue| <= d.capacity ==> |r.queue| <= d.capacity)
  }

  lemma PostGrows(d: Engine, to: Addr, msg: Message)
    ensures Grows(d, Post(d, to, msg).0) && Post(d, to, msg).0.reactives == d.reactives
  {
  }

  lemma {:induction false} ReceiveRequestGrows(d: Engine, to: Addr, src: Addr, id: U32, payload: Payload)
    ensures Grows(d, ReceiveRequest(d, to, src, id, payload))
            && ReceiveRequest(d, to, src, id, payload).reactives == d.reactives
  {
    var d0 := d.(issued := d.issued + [Ask(to, src, id, payload)]);
    var (d1, failed) := Post(d0, to, Request(src, id, payload));
    PostGrows(d0, to, Request(src, id, payload));
    forall returned | failed.Some? ensures Grows(d1, Post(d1, src, Response(id, Err(failed.value, returned))).0) {
      PostGrows(d1, src, Response(id, Err(failed.value, returned)));
    }
  }

  lemma {:induction false} ExecuteGrows(d: Engine, own: ActorId, c: Command)
    ensures Grows(d, Execute(d, own, c).0) && Execute(d, own, c).0.reactives == d.reactives
  {
    match c
    case SendNotification(to, payload) => PostGrows(d, to, Notification(payload));
    case SendRequest(to, payload) =>
      var id := WrappingIncrement(d.requestCounter);
      ReceiveRequestGrows(d.(requestCounter := id), to, Reactive(own), id, payload);
    case SendResponse(to, id, payload) => PostGrows(d, to, Response(id, Ok(payload)));
    case _ =>
  }

  lemma {:induction false} RunCommandsGrows(p: Program, d: Engine, b: Behavior, c: Context, msg: Message,
                                            replies: seq<Reply>, left: nat)
    returns (all: seq<Reply>)
    ensures Grows(d, RunCommands(p, d, b, c, msg, replies, left)) && replies <= all && |all| <= |replies| + left
    ensures RunCommands(p, d, b, c, msg, replies, left).reactives == d.reactives[c.own := p.after(b, c, msg, all)]
    decreases left
  {
    var command := p.next(b, c, msg, replies);
    if left == 0 || command.None? {
      all := replies;
    } else {
      var (d1, reply) := Execute(d, c.own, command.value);
      ExecuteGrows(d, c.own, command.value);
      all := RunCommandsGrows(p, d1, b, c, msg, replies + [reply], left - 1);
    }
  }

  lemma {:induction false} ApplyOpsGrows(d: Engine, ops: seq<RegistryOp>)
    ensures ApplyOps(d, ops).0.queue == d.queue
    decreases |ops|
  {
    if ops != [] {
      ApplyOpsGrows(ApplyOp(d, ops[0]).0, ops[1..]);
    }
  }

  lemma {:induction false} DispatcherGrows(d: Engine, msg: Message)
    requires ProcessDispatcherMessage(d, msg).Going?
    ensures Grows(d, ProcessDispatcherMessage(d, msg).d)
  {
    var (d1, answer) := Serve(d, msg.payload).value;
    if msg.payload.ExecuteFn? {
      ApplyOpsGrows(d, msg.payload.ops);
    }
    if answer.Some? {
      PostGrows(d1, msg.src, Response(msg.id, Ok(answer.value)));
    }
  }

  /** Processing takes the oldest message and lets nothing overtake another. */
  lemma {:induction false} ProcessIsFifo(p: Program, d: Engine)
    requires d.queue != [] && Process(p, d).Going?
    ensures Grows(Take(d), Process(p, d).d)
    ensures Queued(d) <= Queued(Process(p, d).d)
  {
    var e, d1, r := d.queue[0], Take(d), Process(p, d).d;
    match FateOf(d, e) {
      case ByDispatcher => DispatcherGrows(d1, e.msg);
      case ByBehavior =>
        var b, c := d1.reactives[e.dst], Context(e.dst, d1.now);
        var _ := RunCommandsGrows(p, d1, b, c, e.msg, [], p.bound(b, c, e.msg));
      case NoActor =>
        if e.msg.Request? {
          PostGrows(d1, e.msg.src, Response(e.msg.id, Err(ActorDisappeared, TheBox(e.msg.payload))));
        }
    }
    TakeKeepsQueued(d);
    assert Queued(d1) <= Queued(r);
  }

  lemma {:induction false} TakeKeepsQueued(d: Engine)
    requires d.queue != []
    ensures Queued(Take(d)) == Queued(d)
  {
    assert Envelopes(Take(d).log) == Envelopes(d.log) + [d.queue[0]];
    assert d.queue == [d.queue[0]] + d.queue[1..];
  }

  /** A message changes no behaviour but the one registered under its destination, and that one exactly as its code
      says. */
  lemma {:induction false} OnlyTheDestinationChanges(p: Program, d: Engine) returns (replies: seq<Reply>)
    requires d.queue != [] && FateOf(d, d.queue[0]) != ByDispatcher
    ensures var e := d.queue[0]; var c := Context(e.dst, d.now);
            Process(p, d).d.reactives == if e.dst in d.reactives
                                         then d.reactives[e.dst := p.after(d.reactives[e.dst], c, e.msg, replies)]
                                         else d.reactives
  {
    var e := d.queue[0];
    replies := [];
    if e.dst in d.reactives {
      var b, c := d.reactives[e.dst], Context(e.dst, d.now);
      replies := RunCommandsGrows(p, Take(d), b, c, e.msg, [], p.bound(b, c, e.msg));
    }
  }

  // ---------- whole runs ----------

  /** The acts are possible, and none of them stops or drops the dispatcher. */
  predicate KeepsGoing(p: Program, d: Engine, acts: seq<Act>)
    decreases |acts|
  {
    acts == [] || (&& Perform(p, d, acts[0]).Some? && !acts[0].DropDispatcher?
                   && (acts[0].ProcessOne? ==> Process(p, d).Going?)
                   && KeepsGoing(p, Perform(p, d, acts[0]).value, acts[1..]))
  }

  lemma {:induction false} PerformKeepsOrder(p: Program, d: Engine, act: Act)
    requires |d.queue| <= d.capacity && KeepsGoing(p, d, [act])
    ensures var r := Perform(p, d, act).value;
            Queued(d) <= Queued(r) && r.capacity == d.capacity && |r.queue| <= r.capacity
  {
    assert Perform(p, d, act).Some? && !act.DropDispatcher? && (act.ProcessOne? ==> Process(p, d).Going?) by {
      assert [act][0] == act;
    }
    match act
    case Notify(to, payload) => PostGrows(d, to, Notification(payload));
    case AnswerTo(to, id, payload) => PostGrows(d, to, Response(id, Ok(payload)));
    case SendRequestTo(to, src, id, payload) => ReceiveRequestGrows(d, to, src, id, payload);
    case ProcessOne => ProcessIsFifo(p, d);
    case _ =>
  }

  /** Over any run of a dispatcher that is not shut down, messages are processed in exactly the order in which they
      were queued, whoever sent them and whoever they are for: the sequence of all messages queued so far, of which
      the log is the part already processed, is only ever extended at its end. And the queue stays within its
      capacity. */
  lemma {:induction false} ProcessedInOrder(p: Program, d: Engine, acts: seq<Act>)
    requires |d.queue| <= d.capacity && KeepsGoing(p, d, acts)
    ensures PerformAll(p, d, acts).Some?
    ensures var r := PerformAll(p, d, acts).value;
            && Queued(d) <= Queued(r)
            && r.capacity == d.capacity && |r.queue| <= r.capacity
    decreases |acts|
  {
    if acts != [] {
      assert KeepsGoing(p, d, [acts[0]]);
      PerformKeepsOrder(p, d, acts[0]);
      ProcessedInOrder(p, Perform(p, d, acts[0]).value, acts[1..]);
    }
  }
}
