/** What comes of a message that is not for a behaviour: each request to the dispatcher and its response, and
    requests that nobody can process. */
module Requests {
  import opened Instants
  import opened Timers
  import opened Engines
  import opened Ordering
  import opened Owners
  import opened Commands

  /** The oldest message is this request, for the dispatcher itself. */
  predicate Asked(d: Engine, src: Addr, id: U32, payload: Payload) {
    d.queue != [] && d.queue[0].dst == d.dispId && d.queue[0].msg == Request(src, id, payload)
  }

  /** The response with this data arrived at the source of the request, if there was room for it in engine `d`;
      nothing else was sent. */
  predicate Answered(d: Engine, r: Engine, src: Addr, id: U32, payload: Payload) {
    if HasRoom(d, src) then Arrived(d, r, src, Response(id, Ok(payload)))
    else r.queue == d.queue && r.mailboxes == d.mailboxes
  }

  /** The new actor can be reached: the response holds its address, under which nobody was registered before and the
      behaviour is registered now. */
  lemma {:induction false} RegistrationIsAnswered(p: Program, d: Engine, src: Addr, id: U32, b: Behavior)
    returns (n: ActorId)
    requires Asked(d, src, id, RegisterReactive(Some(b))) && Proper(d)
    ensures Process(p, d).Going? && Answered(Take(d), Process(p, d).d, src, id, RegisteredAt(Reactive(n)))
    ensures n !in d.reactives && n != d.dispId && Process(p, d).d.reactives == d.reactives[n := b]
  {
    n := d.nextActorId;
    var d1 := ApplyOp(Take(d), Register(b)).0;
    PostArrives(d1, src, Response(id, Ok(RegisteredAt(Reactive(n)))));
  }

  /** A registration whose behaviour was taken out of the request already gets an invalid address. */
  lemma {:induction false} EmptyRegistrationIsAnswered(p: Program, d: Engine, src: Addr, id: U32)
    requires Asked(d, src, id, RegisterReactive(None))
    ensures Process(p, d).Going? && Answered(Take(d), Process(p, d).d, src, id, RegisteredAt(Invalid))
    ensures Process(p, d).d.reactives == d.reactives
  {
    PostArrives(Take(d), src, Response(id, Ok(RegisteredAt(Invalid))));
  }

  // ---------- functions executed in the dispatcher ----------

  type Actors = map<ActorId, Behavior>

  /** What one operation does to the registered actors, and what it returns. */
  predicate Done(op: RegistryOp, before: Actors, after: Actors, result: RegistryResult) {
    match op
    case Register(b) =>
      result.NewAddr? && result.addr.Reactive? && result.addr.id !in before && after == before[result.addr.id := b]
    case Replace(addr, b) =>
      if addr.Reactive? && addr.id in before
      then result == ReplaceOk(before[addr.id]) && after == before[addr.id := b]
      else result == ReplaceErr(b) && after == before
    case Unregister(addr) =>
      if addr.Reactive? && addr.id in before
      then result == Unregistered(Some(before[addr.id])) && after == before - {addr.id}
      else result == Unregistered(None) && after == before
  }

  /** One after the other, from map to map. */
  predicate AllDone(ops: seq<RegistryOp>, maps: seq<Actors>, results: seq<RegistryResult>) {
    && |maps| == |ops| + 1 && |results| == |ops|
    && forall i :: 0 <= i < |ops| ==> Done(ops[i], maps[i], maps[i + 1], results[i])
  }

  lemma {:induction false} OpsAreDone(d: Engine, ops: seq<RegistryOp>) returns (maps: seq<Actors>)
    requires Proper(d)
    ensures AllDone(ops, maps, ApplyOps(d, ops).1)
    ensures maps[0] == d.reactives && maps[|ops|] == ApplyOps(d, ops).0.reactives
    decreases |ops|
  {
    maps := [d.reactives];
    if ops != [] {
      var (d1, result) := ApplyOp(d, ops[0]);
      ApplyOpProper(d, ops[0]);
      var more := OpsAreDone(d1, ops[1..]);
      var (results, rest) := (ApplyOps(d, ops).1, ApplyOps(d1, ops[1..]).1);
      assert results == [result] + rest;
      maps := maps + more;
      forall i | 0 <= i < |ops| ensures Done(ops[i], maps[i], maps[i + 1], results[i]) {
        if i > 0 {
          assert Done(ops[1..][i - 1], more[i - 1], more[i], rest[i - 1]);
        }
      }
    }
  }

  /** The results of the operations are what the map before each of them says, and the response holds them all, in
      order. */
  lemma {:induction false} ExecutionIsAnswered(p: Program, d: Engine, src: Addr, id: U32, ops: seq<RegistryOp>)
    returns (maps: seq<Actors>, results: seq<RegistryResult>)
    requires Asked(d, src, id, ExecuteFn(ops)) && Proper(d)
    ensures Process(p, d).Going? && Answered(Take(d), Process(p, d).d, src, id, Executed(results))
    ensures AllDone(ops, maps, results) && maps[0] == d.reactives && maps[|ops|] == Process(p, d).d.reactives
  {
    maps := OpsAreDone(Take(d), ops);
    var (d1, all) := ApplyOps(Take(d), ops);
    results := all;
    PostArrives(d1, src, Response(id, Ok(Executed(results))));
  }

  // ---------- stopping ----------

  /** The deprecated request is taken from the queue, and that is all. */
  lemma StopReactiveDoesNothing(p: Program, d: Engine, src: Addr, id: U32, addr: Addr)
    requires Asked(d, src, id, StopReactive(addr))
    ensures Process(p, d) == Going(Take(d))
  {
  }

  /** A stop drains the queue, destroys all actors, and only then responds. */
  lemma {:induction false} StopIsAnswered(p: Program, d: Engine, src: Addr, id: U32)
    requires Asked(d, src, id, StopDispatcher)
    ensures Process(p, d).Stopping? && Process(p, d).d.reactives == map[]
    ensures Answered(Drain(Take(d)), Process(p, d).d, src, id, DispatcherStopped)
    ensures Drain(Take(d)).queue == [] && Process(p, d).d.sched == d.sched
  {
    DrainOnlySends(Take(d));
    PostArrives(Drain(Take(d)).(reactives := map[]), src, Response(id, Ok(DispatcherStopped)));
  }

  // ---------- nobody there ----------

  /** A request for an actor that is not registered is answered with an error that gives it back; any other message
      for it is gone. */
  lemma {:induction false} MissingActorIsReported(p: Program, d: Engine)
    requires d.queue != [] && FateOf(d, d.queue[0]) == NoActor
    ensures Process(p, d).Going? && Process(p, d).d.reactives == d.reactives && Process(p, d).d.sched == d.sched
    ensures var d0, r := Take(d), Process(p, d).d;
            match d.queue[0].msg
            case Request(src, id, payload) =>
              if HasRoom(d0, src) then Arrived(d0, r, src, Response(id, Err(ActorDisappeared, TheBox(payload))))
              else r.queue == d0.queue && r.mailboxes == d0.mailboxes
            case _ => r == d0
  {
    if d.queue[0].msg.Request? {
      var Request(src, id, payload) := d.queue[0].msg;
      PostArrives(Take(d), src, Response(id, Err(ActorDisappeared, TheBox(payload))));
    }
  }

  predicate ForDispatcher(payload: Payload) {
    payload.RegisterReactive? || payload.ExecuteFn? || payload.StopReactive? || payload.StopDispatcher?
  }

  /** The program panics on exactly those messages to the dispatcher that are not requests of its own kind. */
  lemma PanicsExactly(p: Program, d: Engine)
    requires d.queue != []
    ensures Process(p, d).Panicking? <==>
            d.queue[0].dst == d.dispId && !(d.queue[0].msg.Request? && ForDispatcher(d.queue[0].msg.payload))
  {
  }

  /** A message is for the dispatcher, for the actor registered under its destination, or for nobody. */
  lemma FateIsByDestination(d: Engine, e: Envelope)
    ensures FateOf(d, e) == ByDispatcher <==> e.dst == d.dispId
    ensures FateOf(d, e) == ByBehavior <==> e.dst != d.dispId && e.dst in d.reactives
  {
  }

  /** Dropping the dispatcher leaves nothing queued and closes the queue: whatever is sent to its actors afterwards
      does not arrive, and its sender is told that the address is unreachable. */
  lemma {:induction false} DropClosesQueue(d: Engine, to: ActorId, msg: Message)
    ensures Drop(d).queue == [] && Drop(d).reactives == d.reactives && Drop(d).sched == d.sched
    ensures !HasRoom(Drop(d), Reactive(to)) && Post(Drop(d), Reactive(to), msg) == (Drop(d), Some(AddrUnreachable))
  {
    DrainOnlySends(d);
  }
}
