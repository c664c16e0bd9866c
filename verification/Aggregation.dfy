/** The profiling aggregator: a snapshot round walks a list of names that may still grow, with one request
    outstanding. */
module Aggregation {
  import opened Instants
  import opened Timers
  import opened Engines

  /** Names of profiled actors, numbered in their alphabetical order. */
  type Name = nat

  type Metric(==,!new)

  /** One registered actor. Its list of metrics is away while a request is outstanding. */
  datatype Record = Record(name: Name, addr: Addr, metrics: Option<seq<Metric>>)

  datatype Selection = All | SelectedNames(names: seq<Name>) | SelectedAddresses(addresses: seq<Addr>)

  datatype State =
    | Idle
    | Processing(list: seq<Name>, timestamp: Ticks, index: nat, requestId: U32)

  /** The registered actors in the order of the map, the observers in the order of the set, and the state. */
  datatype Aggregator = Aggregator(dict: seq<Record>, observers: seq<ActorId>, state: State)

  datatype Input =
    | RegisterObserver(observer: ActorId)
    | UnregisterObserver(observer: ActorId)
    | RegisterProfiled(actors: seq<(Name, Addr)>)
    | UnregisterProfiled(selection: Selection)
    | Snapshot(selection: Selection)
    | Metrics(requestId: U32, metrics: Option<seq<Metric>>)
    | OtherResponse(requestId: U32)
    | ErrorResponse(requestId: U32, holdsMetrics: bool)

  /** What the aggregator sends; and `Skipped`, which is history: a position of the list whose name is not
      registered. */
  datatype Output =
    | Asked(position: nat, name: Name, addr: Addr, requestId: U32)
    | Skipped(position: nat, name: Name)
    | Notified(observer: ActorId, timestamp: Ticks, lists: seq<(Name, seq<Metric>)>)
    | Replied

  /** The clock and the request counter of the dispatcher, which other actors use too. */
  datatype Surrounding = Surrounding(now: Ticks, counter: U32)

  // ---------- the map and the set ----------

  function Find(dict: seq<Record>, name: Name): (r: Option<Record>)
    ensures r.Some? ==> r.value.name == name && r.value in dict
  {
    if dict == [] then None else if dict[0].name == name then Some(dict[0]) else Find(dict[1..], name)
  }

  predicate Registered(dict: seq<Record>, name: Name) {
    Find(dict, name).Some?
  }

  function Put(dict: seq<Record>, r: Record): seq<Record> {
    if dict == [] then [r]
    else if dict[0].name == r.name then [r] + dict[1..]
    else if r.name < dict[0].name then [r] + dict
    else [dict[0]] + Put(dict[1..], r)
  }

  function RemoveName(dict: seq<Record>, name: Name): seq<Record> {
    if dict == [] then [] else (if dict[0].name != name then [dict[0]] else []) + RemoveName(dict[1..], name)
  }

  /** The records whose address is among the given ones, or those whose address is not. */
  function Select(dict: seq<Record>, addresses: seq<Addr>, among: bool): seq<Record> {
    if dict == [] then []
    else (if Contains(addresses, dict[0].addr) == among then [dict[0]] else []) + Select(dict[1..], addresses, among)
  }

  function InsertObserver(s: seq<ActorId>, id: ActorId): seq<ActorId> {
    if s == [] || id < s[0] then [id] + s
    else if s[0] == id then s
    else [s[0]] + InsertObserver(s[1..], id)
  }

  function RemoveObserver(s: seq<ActorId>, id: ActorId): seq<ActorId> {
    if s == [] then [] else if s[0] == id then s[1..] else [s[0]] + RemoveObserver(s[1..], id)
  }

  /** Addresses are compared by the identifier of their actor. */
  function ActorOf(a: Addr): ActorId {
    match a case Invalid => 0 case Reactive(id) => id case Active(id) => id
  }

  predicate Contains(addresses: seq<Addr>, a: Addr) {
    exists i :: 0 <= i < |addresses| && ActorOf(addresses[i]) == ActorOf(a)
  }

  // ---------- the handlers ----------

  function PutAll(dict: seq<Record>, actors: seq<(Name, Addr)>): seq<Record>
    decreases |actors|
  {
    if actors == [] then dict else PutAll(Put(dict, Record(actors[0].0, actors[0].1, Some([]))), actors[1..])
  }

  function RemoveNames(dict: seq<Record>, names: seq<Name>): seq<Record>
    decreases |names|
  {
    if names == [] then dict else RemoveNames(RemoveName(dict, names[0]), names[1..])
  }

  function WithoutSelected(dict: seq<Record>, selection: Selection): seq<Record> {
    match selection
    case All => []
    case SelectedNames(names) => RemoveNames(dict, names)
    case SelectedAddresses(addresses) => Select(dict, addresses, false)
  }

  function NamesOf(dict: seq<Record>): seq<Name> {
    seq(|dict|, i requires 0 <= i < |dict| => dict[i].name)
  }

  function ConvertSelection(dict: seq<Record>, selection: Selection): seq<Name> {
    match selection
    case All => NamesOf(dict)
    case SelectedNames(names) => names
    case SelectedAddresses(addresses) => NamesOf(Select(dict, addresses, true))
  }

  /** Names not in the list yet go to its end. */
  function AppendNew(list: seq<Name>, more: seq<Name>): (r: seq<Name>)
    ensures list <= r
    decreases |more|
  {
    if more == [] then list else AppendNew(if more[0] in list then list else list + [more[0]], more[1..])
  }

  /** The first position from `index` on whose name is registered, or the end of the list. */
  function FirstRegistered(dict: seq<Record>, list: seq<Name>, index: nat): (i: nat)
    requires index <= |list|
    ensures index <= i <= |list|
    ensures forall j :: index <= j < i ==> !Registered(dict, list[j])
    ensures i < |list| ==> Registered(dict, list[i])
    decreases |list| - index
  {
    if index == |list| || Registered(dict, list[index]) then index else FirstRegistered(dict, list, index + 1)
  }

  function Skips(list: seq<Name>, from: nat, to: nat): seq<Output>
    requires from <= to <= |list|
  {
    seq(to - from, i requires 0 <= i < to - from => Skipped(from + i, list[from + i]))
  }

  /** The metric lists of those names that are registered. */
  function ListsFor(dict: seq<Record>, names: seq<Name>): seq<(Name, seq<Metric>)> {
    if names == [] then []
    else
      var n := |names| - 1;
      ListsFor(dict, names[..n]) + match Find(dict, names[n])
                                   case None => []
                                   case Some(r) => [(names[n], if r.metrics.Some? then r.metrics.value else [])]
  }

  function NotifyAll(observers: seq<ActorId>, timestamp: Ticks, lists: seq<(Name, seq<Metric>)>): seq<Output> {
    seq(|observers|, i requires 0 <= i < |observers| => Notified(observers[i], timestamp, lists))
  }

  /** Ask the next registered name, or notify the observers when the list is exhausted. */
  function ProcessNext(a: Aggregator, c: Surrounding): (Aggregator, U32, seq<Output>)
    requires a.state.Processing? ==> a.state.index <= |a.state.list|
  {
    match a.state
    case Idle => (a, c.counter, [])
    case Processing(list, timestamp, index, _) =>
      var i := FirstRegistered(a.dict, list, index);
      if i < |list| then
        var r := Find(a.dict, list[i]).value;
        var id := WrappingIncrement(c.counter);
        (Aggregator(Put(a.dict, r.(metrics := None)), a.observers, Processing(list, timestamp, i, id)), id,
         Skips(list, index, i) + [Asked(i, list[i], r.addr, id)])
      else
        (a.(state := Idle), c.counter,
         Skips(list, index, i) + NotifyAll(a.observers, timestamp, ListsFor(a.dict, list)))
  }

  function Store(dict: seq<Record>, name: Name, metrics: Option<seq<Metric>>): seq<Record> {
    match Find(dict, name) case None => dict case Some(r) => Put(dict, r.(metrics := metrics))
  }

  /** `process_message`. Indexing the list by the outstanding position would panic if it were out of range. */
  function Handle(a: Aggregator, c: Surrounding, input: Input): (Aggregator, U32, seq<Output>)
    requires a.state.Processing? ==> a.state.index < |a.state.list|
  {
    match input
    case RegisterObserver(id) => (a.(observers := InsertObserver(a.observers, id)), c.counter, [Replied])
    case UnregisterObserver(id) => (a.(observers := RemoveObserver(a.observers, id)), c.counter, [Replied])
    case RegisterProfiled(actors) => (a.(dict := PutAll(a.dict, actors)), c.counter, [Replied])
    case UnregisterProfiled(selection) => (a.(dict := WithoutSelected(a.dict, selection)), c.counter, [Replied])
    case Snapshot(selection) =>
      var names := ConvertSelection(a.dict, selection);
      if a.state.Idle? then ProcessNext(a.(state := Processing(names, c.now, 0, 0)), c)
      else (a.(state := a.state.(list := AppendNew(a.state.list, names))), c.counter, [])
    case Metrics(id, metrics) =>
      if a.state.Processing? && id == a.state.requestId then
        var dict := Store(a.dict, a.state.list[a.state.index], metrics);
        ProcessNext(a.(dict := dict, state := a.state.(index := a.state.index + 1)), c)
      else (a, c.counter, [])
    case OtherResponse(_) => (a, c.counter, [])
    case ErrorResponse(id, holdsMetrics) =>
      if a.state.Processing? && holdsMetrics && id == a.state.requestId then ProcessNext(a, c) else (a, c.counter, [])
  }

  predicate Increasing(s: seq<ActorId>) {
    forall i, j :: 0 <= i < j < |s| ==> s[i] < s[j]
  }

  lemma {:induction false} IncreasingTail(x: ActorId, s: seq<ActorId>)
    requires Increasing([x] + s)
    ensures Increasing(s) && forall y :: y in s ==> x < y
  {
    var r := [x] + s;
    forall i | 0 <= i < |s| ensures x < s[i] {
      assert r[0] < r[i + 1];
    }
    forall i, j | 0 <= i < j < |s| ensures s[i] < s[j] {
      assert r[i + 1] < r[j + 1];
    }
  }

  lemma {:induction false} IncreasingCons(x: ActorId, s: seq<ActorId>)
    requires Increasing(s) && forall y :: y in s ==> x < y
    ensures Increasing([x] + s)
  {
    var r := [x] + s;
    forall i, j | 0 <= i < j < |r| ensures r[i] < r[j] {
      assert r[j] == s[j - 1] && s[j - 1] in s;
      assert r[i] == if i == 0 then x else s[i - 1];
    }
  }

  /** The observers stay a set: without repetition, whatever is registered and unregistered. */
  lemma {:induction false} InsertObserverIsInsertion(s: seq<ActorId>, id: ActorId)
    requires Increasing(s)
    ensures Increasing(InsertObserver(s, id))
    ensures forall x :: x in InsertObserver(s, id) <==> x in s || x == id
  {
    hide Increasing;
    if s == [] {
      IncreasingCons(id, s);
      assert [id] + s == [id];
    } else {
      assert s == [s[0]] + s[1..];
      IncreasingTail(s[0], s[1..]);
      if id < s[0] {
        IncreasingCons(id, s);
      } else if s[0] < id {
        InsertObserverIsInsertion(s[1..], id);
        IncreasingCons(s[0], InsertObserver(s[1..], id));
      }
    }
  }

  lemma {:induction false} RemoveObserverIsRemoval(s: seq<ActorId>, id: ActorId)
    requires Increasing(s)
    ensures Increasing(RemoveObserver(s, id))
    ensures forall x :: x in RemoveObserver(s, id) <==> x in s && x != id
  {
    hide Increasing;
    if s != [] {
      assert s == [s[0]] + s[1..];
      IncreasingTail(s[0], s[1..]);
      RemoveObserverIsRemoval(s[1..], id);
      IncreasingCons(s[0], RemoveObserver(s[1..], id));
    }
  }

  // ---------- runs ----------

  /** In every state between messages the outstanding position is in the list, so that the indexing never fails. */
  predicate InRange(a: Aggregator) {
    a.state.Processing? ==> a.state.index < |a.state.list|
  }

  lemma HandleInRange(a: Aggregator, c: Surrounding, input: Input)
    requires InRange(a)
    ensures InRange(Handle(a, c, input).0)
  {
  }

  /** A message with what the dispatcher shows at that moment. */
  type Moment = (Surrounding, Input)

  /** The state after some messages, and everything that was sent. */
  function Trace(a: Aggregator, ms: seq<Moment>): (r: (Aggregator, seq<Output>))
    requires InRange(a)
    ensures InRange(r.0)
    decreases |ms|
  {
    if ms == [] then (a, [])
    else
      HandleInRange(a, ms[0].0, ms[0].1);
      var (a1, _, out) := Handle(a, ms[0].0, ms[0].1);
      var (a2, rest) := Trace(a1, ms[1..]);
      (a2, out + rest)
  }

  /** The position of the list that an output deals with. */
  function Visit(o: Output): seq<nat> {
    match o case Asked(i, _, _, _) => [i] case Skipped(i, _) => [i] case _ => []
  }

  /** The positions of the list dealt with, asked or skipped, in order. */
  function Visits(out: seq<Output>): seq<nat> {
    if out == [] then [] else Visit(out[0]) + Visits(out[1..])
  }

  function Notification(o: Output): seq<Output> {
    if o.Notified? then [o] else []
  }

  function Notifications(out: seq<Output>): seq<Output> {
    if out == [] then [] else Notification(out[0]) + Notifications(out[1..])
  }

  function Range(from: nat, to: nat): seq<nat>
    requires from <= to
  {
    seq(to - from, i requires 0 <= i < to - from => from + i)
  }

  lemma Associative<T>(a: seq<T>, b: seq<T>, c: seq<T>)
    ensures a + (b + c) == a + b + c
  {
  }

  lemma {:induction false} VisitsConcat(a: seq<Output>, b: seq<Output>)
    ensures Visits(a + b) == Visits(a) + Visits(b)
  {
    hide Visit;
    if a == [] {
      assert a + b == b;
    } else {
      var whole := a + b;
      assert whole[0] == a[0] && whole[1..] == a[1..] + b;
      VisitsConcat(a[1..], b);
      Associative(Visit(a[0]), Visits(a[1..]), Visits(b));
    }
  }

  lemma {:induction false} NotificationsConcat(a: seq<Output>, b: seq<Output>)
    ensures Notifications(a + b) == Notifications(a) + Notifications(b)
  {
    if a == [] {
      assert a + b == b;
    } else {
      var whole := a + b;
      assert whole[0] == a[0] && whole[1..] == a[1..] + b;
      NotificationsConcat(a[1..], b);
      Associative(Notification(a[0]), Notifications(a[1..]), Notifications(b));
    }
  }

  lemma {:induction false} OutputsConcat(a: seq<Output>, b: seq<Output>)
    ensures Visits(a + b) == Visits(a) + Visits(b)
    ensures Notifications(a + b) == Notifications(a) + Notifications(b)
  {
    VisitsConcat(a, b);
    NotificationsConcat(a, b);
  }

  lemma SkipsSplit(list: seq<Name>, from: nat, to: nat)
    requires from < to <= |list|
    ensures Skips(list, from, to) == [Skipped(from, list[from])] + Skips(list, from + 1, to)
    ensures Range(from, to) == [from] + Range(from + 1, to)
  {
  }

  lemma {:induction false} OutputsCons(o: Output, rest: seq<Output>)
    ensures Visits([o] + rest) == Visit(o) + Visits(rest)
    ensures Notifications([o] + rest) == Notification(o) + Notifications(rest)
  {
    assert ([o] + rest)[1..] == rest;
  }

  lemma {:induction false} VisitsOfSkips(list: seq<Name>, from: nat, to: nat)
    requires from <= to <= |list|
    ensures Visits(Skips(list, from, to)) == Range(from, to) && Notifications(Skips(list, from, to)) == []
    decreases |list| - from
  {
    hide Skips;
    hide Range;
    if from < to {
      VisitsOfSkips(list, from + 1, to);
      SkipsSplit(list, from, to);
      OutputsCons(Skipped(from, list[from]), Skips(list, from + 1, to));
    } else {
      NoSkips(list, from);
    }
  }

  lemma NoSkips(list: seq<Name>, at: nat)
    requires at <= |list|
    ensures Skips(list, at, at) == [] && Range(at, at) == []
  {
  }

  lemma {:induction false} VisitsOfNotifyAll(observers: seq<ActorId>, timestamp: Ticks, lists: seq<(Name, seq<Metric>)>)
    ensures Visits(NotifyAll(observers, timestamp, lists)) == []
    ensures Notifications(NotifyAll(observers, timestamp, lists)) == NotifyAll(observers, timestamp, lists)
    decreases |observers|
  {
    if observers != [] {
      VisitsOfNotifyAll(observers[1..], timestamp, lists);
      var n := NotifyAll(observers, timestamp, lists);
      assert n[1..] == NotifyAll(observers[1..], timestamp, lists);
      assert n == [n[0]] + n[1..];
    }
  }

  lemma VisitsOfAsked(o: Output)
    requires o.Asked?
    ensures Visits([o]) == Range(o.position, o.position + 1) && Notifications([o]) == []
  {
    assert [o][1..] == [];
    assert Visits([o]) == [o.position];
  }

  lemma RangeConcat(a: nat, b: nat, c: nat)
    requires a <= b <= c
    ensures Range(a, b) + Range(b, c) == Range(a, c)
  {
  }

  /** The next step of a round deals with consecutive positions, and either stops at an outstanding request or has
      exhausted the list and notifies every observer, once and in order. */
  lemma {:induction false} ProcessNextVisits(a: Aggregator, c: Surrounding)
    requires a.state.Processing? && a.state.index <= |a.state.list|
    ensures var (r, _, out) := ProcessNext(a, c); var s := a.state;
            if r.state.Idle? then
              && Visits(out) == Range(s.index, |s.list|)
              && Notifications(out) == NotifyAll(a.observers, s.timestamp, ListsFor(a.dict, s.list))
            else
              && r.state.list == s.list && r.state.timestamp == s.timestamp && s.index <= r.state.index < |s.list|
              && Visits(out) == Range(s.index, r.state.index + 1) && Notifications(out) == []
  {
    hide Visits;
    hide Notifications;
    var s := a.state;
    var i := FirstRegistered(a.dict, s.list, s.index);
    var skips := Skips(s.list, s.index, i);
    VisitsOfSkips(s.list, s.index, i);
    if i < |s.list| {
      var asked := Asked(i, s.list[i], Find(a.dict, s.list[i]).value.addr, WrappingIncrement(c.counter));
      OutputsConcat(skips, [asked]);
      VisitsOfAsked(asked);
      RangeConcat(s.index, i, i + 1);
    } else {
      var notified := NotifyAll(a.observers, s.timestamp, ListsFor(a.dict, s.list));
      OutputsConcat(skips, notified);
      VisitsOfNotifyAll(a.observers, s.timestamp, ListsFor(a.dict, s.list));
    }
  }

  /** Whatever is asked is registered at that moment, under that address; whatever is skipped is not. */
  predicate FaithfulTo(dict: seq<Record>, list: seq<Name>, o: Output) {
    match o
    case Asked(i, name, addr, _) => i < |list| && name == list[i] && Find(dict, name).Some?
                                    && Find(dict, name).value.addr == addr
    case Skipped(i, name) => i < |list| && name == list[i] && !Registered(dict, name)
    case _ => true
  }

  lemma ProcessNextIsFaithful(a: Aggregator, c: Surrounding)
    requires a.state.Processing? && a.state.index <= |a.state.list|
    ensures forall o :: o in ProcessNext(a, c).2 ==> FaithfulTo(a.dict, a.state.list, o)
  {
  }

  /** The dictionary and the list that the next step of the round looks at. */
  function Consulted(a: Aggregator, c: Surrounding, input: Input): (seq<Record>, seq<Name>)
    requires InRange(a)
  {
    match input
    case Snapshot(selection) => (a.dict, if a.state.Idle? then ConvertSelection(a.dict, selection) else a.state.list)
    case Metrics(_, metrics) =>
      if a.state.Processing? then (Store(a.dict, a.state.list[a.state.index], metrics), a.state.list) else (a.dict, [])
    case _ => (a.dict, if a.state.Processing? then a.state.list else [])
  }

  lemma {:induction false} HandleIsFaithful(a: Aggregator, c: Surrounding, input: Input)
    requires InRange(a)
    ensures var (dict, list) := Consulted(a, c, input);
            forall o :: o in Handle(a, c, input).2 ==> FaithfulTo(dict, list, o)
  {
    match input
    case Snapshot(selection) =>
      if a.state.Idle? {
        ProcessNextIsFaithful(a.(state := Processing(ConvertSelection(a.dict, selection), c.now, 0, 0)), c);
      }
    case Metrics(id, metrics) =>
      if a.state.Processing? && id == a.state.requestId {
        var dict := Store(a.dict, a.state.list[a.state.index], metrics);
        ProcessNextIsFaithful(a.(dict := dict, state := a.state.(index := a.state.index + 1)), c);
      }
    case ErrorResponse(_, _) =>
      if a.state.Processing? {
        ProcessNextIsFaithful(a, c);
      }
    case _ =>
  }

  // ---------- one round ----------

  /** The framework never puts metrics in an error response: it gives back the request, or the message that held it. */
  predicate FrameworkInput(input: Input) {
    input.ErrorResponse? ==> !input.holdsMetrics
  }

  predicate FrameworkInputs(ms: seq<Moment>) {
    forall i :: 0 <= i < |ms| ==> FrameworkInput(ms[i].1)
  }

  /** What one message does during a round. */
  lemma {:induction false} HandleVisits(a: Aggregator, c: Surrounding, input: Input)
    requires a.state.Processing? && InRange(a) && FrameworkInput(input)
    ensures var (r, _, out) := Handle(a, c, input); var s := a.state;
            if r.state.Idle? then
              && r.observers == a.observers && Visits(out) == Range(s.index + 1, |s.list|)
              && Notifications(out) == NotifyAll(r.observers, s.timestamp, ListsFor(r.dict, s.list))
            else
              && s.list <= r.state.list && r.state.timestamp == s.timestamp && s.index <= r.state.index < |r.state.list|
              && Visits(out) == Range(s.index + 1, r.state.index + 1) && Notifications(out) == []
  {
    if input.Metrics? && input.requestId == a.state.requestId {
      var dict := Store(a.dict, a.state.list[a.state.index], input.metrics);
      ProcessNextVisits(a.(dict := dict, state := a.state.(index := a.state.index + 1)), c);
    } else {
      assert [Replied][1..] == [];
    }
  }

  /** The messages belong to one round, at whose end at most the aggregator becomes idle. */
  predicate OneRound(a: Aggregator, ms: seq<Moment>)
    requires InRange(a)
    decreases |ms|
  {
    ms != [] ==> a.state.Processing? && OneRound(Handle(a, ms[0].0, ms[0].1).0, ms[1..])
  }

  /** From state `a` of a round to state `r`: the positions after the outstanding one are dealt with one after the
      other, each exactly once; the observers hear nothing before the end, and at the end each of them once. */
  predicate RoundOutcome(a: Aggregator, r: Aggregator, out: seq<Output>, list: seq<Name>)
    requires a.state.Processing?
  {
    var s := a.state;
    && s.index < |s.list| && s.list <= list
    && if r.state.Idle? then
         && Visits(out) == Range(s.index + 1, |list|)
         && Notifications(out) == NotifyAll(r.observers, s.timestamp, ListsFor(r.dict, list))
       else
         && r.state.list == list && r.state.timestamp == s.timestamp && s.index <= r.state.index < |list|
         && Visits(out) == Range(s.index + 1, r.state.index + 1) && Notifications(out) == []
  }

  lemma {:induction false} HandleOutcome(a: Aggregator, c: Surrounding, input: Input)
    requires a.state.Processing? && InRange(a) && FrameworkInput(input)
    ensures var (r, _, out) := Handle(a, c, input);
            RoundOutcome(a, r, out, if r.state.Idle? then a.state.list else r.state.list)
  {
    HandleVisits(a, c, input);
    HandleInRange(a, c, input);
  }

  lemma {:induction false} OutcomesCompose(a: Aggregator, a1: Aggregator, out1: seq<Output>, r: Aggregator,
                                           rest: seq<Output>, list: seq<Name>)
    requires a.state.Processing? && a1.state.Processing?
    requires RoundOutcome(a, a1, out1, a1.state.list) && RoundOutcome(a1, r, rest, list)
    ensures RoundOutcome(a, r, out1 + rest, list)
  {
    hide Visits;
    hide Notifications;
    OutputsConcat(out1, rest);
    RangeConcat(a.state.index + 1, a1.state.index + 1, if r.state.Idle? then |list| else r.state.index + 1);
  }

  /** The list of the round as it was when the round ended, or as it is now. */
  function FinalList(a: Aggregator, ms: seq<Moment>): seq<Name>
    requires InRange(a)
    decreases |ms|
  {
    if a.state.Idle? then []
    else if ms == [] || Handle(a, ms[0].0, ms[0].1).0.state.Idle? then a.state.list
    else FinalList(Handle(a, ms[0].0, ms[0].1).0, ms[1..])
  }

  /** So it is for every run within a round, whatever requests and notifications come in between. */
  lemma {:induction false} RoundVisits(a: Aggregator, ms: seq<Moment>)
    requires a.state.Processing? && InRange(a) && OneRound(a, ms) && FrameworkInputs(ms)
    ensures RoundOutcome(a, Trace(a, ms).0, Trace(a, ms).1, FinalList(a, ms))
    decreases |ms|
  {
    if ms != [] {
      hide Handle;
      hide RoundOutcome;
      var (a1, _, out1) := Handle(a, ms[0].0, ms[0].1);
      HandleInRange(a, ms[0].0, ms[0].1);
      if a1.state.Processing? {
        RoundVisits(a1, ms[1..]);
        HandleOutcome(a, ms[0].0, ms[0].1);
        OutcomesCompose(a, a1, out1, Trace(a1, ms[1..]).0, Trace(a1, ms[1..]).1, FinalList(a1, ms[1..]));
      } else {
        HandleOutcome(a, ms[0].0, ms[0].1);
        assert ms[1..] == [] && Trace(a1, ms[1..]) == (a1, []);
        assert out1 + [] == out1;
      }
    }
  }

  /** A whole round, from the snapshot notification that starts it to its end: every position of the final list is
      dealt with exactly once and in order, and every observer is notified exactly once, with the lists of the names
      still registered. */
  lemma {:induction false} WholeRound(a: Aggregator, c: Surrounding, selection: Selection, ms: seq<Moment>)
    requires a.state.Idle? && FrameworkInputs(ms)
    requires OneRound(Handle(a, c, Snapshot(selection)).0, ms)
             && Trace(Handle(a, c, Snapshot(selection)).0, ms).0.state.Idle?
    ensures var (a1, _, out1) := Handle(a, c, Snapshot(selection)); var (r, out) := Trace(a1, ms);
            var names := ConvertSelection(a.dict, selection); var list := if ms == [] then names else FinalList(a1, ms);
            && names <= list
            && Visits(out1 + out) == Range(0, |list|)
            && Notifications(out1 + out) == NotifyAll(r.observers, c.now, ListsFor(r.dict, list))
  {
    var names := ConvertSelection(a.dict, selection);
    ProcessNextVisits(a.(state := Processing(names, c.now, 0, 0)), c);
    hide Visits;
    hide Notifications;
    hide ProcessNext;
    var (a1, _, out1) := Handle(a, c, Snapshot(selection));
    OutputsConcat(out1, Trace(a1, ms).1);
    if a1.state.Processing? {
      RoundVisits(a1, ms);
      RangeConcat(0, a1.state.index + 1, |FinalList(a1, ms)|);
    } else {
      assert ms == [];
    }
  }

  // ---------- when a round ends ----------

  /** How many of the messages answer the outstanding request. */
  function Answers(a: Aggregator, ms: seq<Moment>): nat
    requires InRange(a)
    decreases |ms|
  {
    if ms == [] then 0
    else (if a.state.Processing? && ms[0].1.Metrics? && ms[0].1.requestId == a.state.requestId then 1 else 0)
         + Answers(Handle(a, ms[0].0, ms[0].1).0, ms[1..])
  }

  /** Every answer moves on at least one position: a round never gets more answers than there are positions left. */
  lemma {:induction false} AnswersMoveOn(a: Aggregator, ms: seq<Moment>)
    requires a.state.Processing? && InRange(a) && OneRound(a, ms) && FrameworkInputs(ms)
    requires Trace(a, ms).0.state.Processing?
    ensures a.state.index + Answers(a, ms) <= Trace(a, ms).0.state.index < |Trace(a, ms).0.state.list|
    decreases |ms|
  {
    hide Visits;
    hide Notifications;
    if ms != [] {
      var a1 := Handle(a, ms[0].0, ms[0].1).0;
      HandleVisits(a, ms[0].0, ms[0].1);
      if a1.state.Processing? {
        AnswersMoveOn(a1, ms[1..]);
        if ms[0].1.Metrics? && ms[0].1.requestId == a.state.requestId {
          var dict := Store(a.dict, a.state.list[a.state.index], ms[0].1.metrics);
          ProcessNextVisits(a.(dict := dict, state := a.state.(index := a.state.index + 1)), ms[0].0);
        }
      }
    }
  }

  /** A round in which the outstanding requests are answered ends: at the latest with one answer for each position
      of the list, however much the list has grown in between. */
  lemma {:induction false} AnsweredRoundEnds(a: Aggregator, ms: seq<Moment>)
    requires a.state.Processing? && InRange(a) && OneRound(a, ms) && FrameworkInputs(ms)
    requires Answers(a, ms) >= |FinalList(a, ms)| - a.state.index
    ensures Trace(a, ms).0.state.Idle?
  {
    if Trace(a, ms).0.state.Processing? {
      AnswersMoveOn(a, ms);
      RoundVisits(a, ms);
    }
  }

  /** The message answers the outstanding request, and none of the names further on in the list is registered any
      more. */
  predicate EndsRound(a: Aggregator, input: Input)
    requires InRange(a)
  {
    && a.state.Processing? && input.Metrics? && input.requestId == a.state.requestId
    && var dict := Store(a.dict, a.state.list[a.state.index], input.metrics);
       forall j :: a.state.index < j < |a.state.list| ==> !Registered(dict, a.state.list[j])
  }

  lemma EndsExactly(a: Aggregator, c: Surrounding, input: Input)
    requires a.state.Processing? && InRange(a) && FrameworkInput(input)
    ensures Handle(a, c, input).0.state.Idle? <==> EndsRound(a, input)
  {
  }

  lemma {:induction false} LastMessage(a: Aggregator, ms: seq<Moment>)
    requires InRange(a) && ms != [] && a.state.Processing? && OneRound(a, ms)
    ensures var n := |ms| - 1; var before := Trace(a, ms[..n]).0;
            before.state.Processing? && Trace(a, ms).0 == Handle(before, ms[n].0, ms[n].1).0
    decreases |ms|
  {
    hide Handle;
    if |ms| == 1 {
      assert ms[1..] == [];
    } else {
      var a1 := Handle(a, ms[0].0, ms[0].1).0;
      HandleInRange(a, ms[0].0, ms[0].1);
      assert OneRound(a1, ms[1..]);
      LastMessage(a1, ms[1..]);
      assert ms[1..][..|ms| - 2] == ms[..|ms| - 1][1..];
    }
  }

  /** Exactly when a round is over: when its last message answered the request that was outstanding before, and no
      name further on in the list was registered any more. */
  lemma {:induction false} RoundEndsExactly(a: Aggregator, ms: seq<Moment>)
    requires a.state.Processing? && InRange(a) && OneRound(a, ms) && FrameworkInputs(ms)
    ensures Trace(a, ms).0.state.Idle? <==>
            ms != [] && EndsRound(Trace(a, ms[..|ms| - 1]).0, ms[|ms| - 1].1)
  {
    if ms != [] {
      var n := |ms| - 1;
      LastMessage(a, ms);
      EndsExactly(Trace(a, ms[..n]).0, ms[n].0, ms[n].1);
    }
  }

  /** A round whose outstanding request is not answered never ends: no error response, no other response, no
      registration and no new snapshot notification moves it on, and nobody is asked or notified any more. */
  lemma {:induction false} UnansweredRoundIsStuck(a: Aggregator, ms: seq<Moment>)
    requires a.state.Processing? && InRange(a) && FrameworkInputs(ms)
    requires forall i :: 0 <= i < |ms| ==> !(ms[i].1.Metrics? && ms[i].1.requestId == a.state.requestId)
    ensures var (r, out) := Trace(a, ms);
            && r.state.Processing? && a.state.list <= r.state.list
            && r.state == a.state.(list := r.state.list)
            && Visits(out) == [] && Notifications(out) == []
    decreases |ms|
  {
    if ms != [] {
      var (a1, _, out1) := Handle(a, ms[0].0, ms[0].1);
      HandleVisits(a, ms[0].0, ms[0].1);
      assert a1.state == a.state.(list := a1.state.list);
      UnansweredRoundIsStuck(a1, ms[1..]);
      OutputsConcat(out1, Trace(a1, ms[1..]).1);
    }
  }

  // ---------- the outstanding request ----------

  function LastAsked(out: seq<Output>): Option<Output> {
    if out == [] then None
    else if out[|out| - 1].Asked? then Some(out[|out| - 1])
    else LastAsked(out[..|out| - 1])
  }

  lemma {:induction false} LastAskedConcat(a: seq<Output>, b: seq<Output>)
    ensures LastAsked(a + b) == if LastAsked(b).Some? then LastAsked(b) else LastAsked(a)
  {
    if b == [] {
      assert a + b == a;
    } else {
      LastAskedConcat(a, b[..|b| - 1]);
      assert (a + b)[..|a + b| - 1] == a + b[..|b| - 1];
    }
  }

  /** While processing, the stored identifier is that of the latest request sent, which was for the outstanding
      position. */
  predicate Outstanding(a: Aggregator, last: Option<Output>) {
    a.state.Processing? ==>
      && a.state.index < |a.state.list| && last.Some? && last.value.Asked?
      && last.value.position == a.state.index && last.value.name == a.state.list[a.state.index]
      && last.value.requestId == a.state.requestId
  }

  lemma {:induction false} HandleOutstanding(a: Aggregator, c: Surrounding, input: Input, before: Option<Output>)
    requires Outstanding(a, before)
    ensures var (r, _, out) := Handle(a, c, input);
            Outstanding(r, if LastAsked(out).Some? then LastAsked(out) else before)
  {
    var (r, _, out) := Handle(a, c, input);
    assert [Replied][..0] == [];
  }

  /** In every reachable state, whatever came in between. */
  lemma {:induction false} OutstandingAlways(a: Aggregator, ms: seq<Moment>, before: Option<Output>)
    requires InRange(a) && Outstanding(a, before)
    ensures var (r, out) := Trace(a, ms); Outstanding(r, if LastAsked(out).Some? then LastAsked(out) else before)
    decreases |ms|
  {
    if ms != [] {
      var (a1, _, out1) := Handle(a, ms[0].0, ms[0].1);
      HandleOutstanding(a, ms[0].0, ms[0].1, before);
      OutstandingAlways(a1, ms[1..], if LastAsked(out1).Some? then LastAsked(out1) else before);
      LastAskedConcat(out1, Trace(a1, ms[1..]).1);
    }
  }

  function AskedCount(out: seq<Output>): nat {
    if out == [] then 0 else (if out[0].Asked? then 1 else 0) + AskedCount(out[1..])
  }

  lemma {:induction false} AskedConcat(a: seq<Output>, b: seq<Output>)
    ensures AskedCount(a + b) == AskedCount(a) + AskedCount(b)
  {
    if a == [] {
      assert a + b == b;
    } else {
      AskedConcat(a[1..], b);
      assert (a + b)[1..] == a[1..] + b;
    }
  }

  lemma {:induction false} NoneAsked(out: seq<Output>)
    requires forall o :: o in out ==> !o.Asked?
    ensures AskedCount(out) == 0
  {
    if out != [] {
      NoneAsked(out[1..]);
    }
  }

  function Awaiting(a: Aggregator): nat {
    if a.state.Processing? then 1 else 0
  }

  lemma {:induction false} ProcessNextAsks(a: Aggregator, c: Surrounding)
    requires a.state.Processing? && a.state.index <= |a.state.list|
    ensures AskedCount(ProcessNext(a, c).2) == Awaiting(ProcessNext(a, c).0)
  {
    var Processing(list, timestamp, index, _) := a.state;
    var i := FirstRegistered(a.dict, list, index);
    NoneAsked(Skips(list, index, i));
    if i < |list| {
      var asked := ProcessNext(a, c).2[i - index..];
      assert asked == [asked[0]] && asked[1..] == [];
      AskedConcat(Skips(list, index, i), asked);
    } else {
      var notified := NotifyAll(a.observers, timestamp, ListsFor(a.dict, list));
      NoneAsked(notified);
      AskedConcat(Skips(list, index, i), notified);
    }
  }

  lemma {:induction false} HandleAsks(a: Aggregator, c: Surrounding, input: Input)
    requires InRange(a) && FrameworkInput(input)
    ensures var (r, _, out) := Handle(a, c, input);
            Awaiting(a) + AskedCount(out)
            == Awaiting(r)
               + if a.state.Processing? && input.Metrics? && input.requestId == a.state.requestId then 1 else 0
  {
    hide ProcessNext;
    if input.Snapshot? && a.state.Idle? {
      ProcessNextAsks(a.(state := Processing(ConvertSelection(a.dict, input.selection), c.now, 0, 0)), c);
    } else if input.Metrics? && a.state.Processing? && input.requestId == a.state.requestId {
      var dict := Store(a.dict, a.state.list[a.state.index], input.metrics);
      ProcessNextAsks(a.(dict := dict, state := a.state.(index := a.state.index + 1)), c);
    } else {
      NoneAsked([Replied]);
    }
  }

  /** Over any run, through any number of rounds, every request was answered but the one that is outstanding. */
  lemma {:induction false} OneRequestOutstanding(a: Aggregator, ms: seq<Moment>)
    requires InRange(a) && FrameworkInputs(ms)
    ensures Awaiting(a) + AskedCount(Trace(a, ms).1) == Answers(a, ms) + Awaiting(Trace(a, ms).0)
    decreases |ms|
  {
    hide Handle, AskedCount;
    if ms != [] {
      var (a1, _, out1) := Handle(a, ms[0].0, ms[0].1);
      HandleInRange(a, ms[0].0, ms[0].1);
      HandleAsks(a, ms[0].0, ms[0].1);
      OneRequestOutstanding(a1, ms[1..]);
      AskedConcat(out1, Trace(a1, ms[1..]).1);
    } else {
      NoneAsked([]);
    }
  }

  /** Responses with another identifier change nothing and send nothing. */
  lemma OtherIdentifiersIgnored(a: Aggregator, c: Surrounding, id: U32, metrics: Option<seq<Metric>>,
                                holdsMetrics: bool)
    requires InRange(a) && (a.state.Processing? ==> id != a.state.requestId)
    ensures Handle(a, c, Metrics(id, metrics)) == (a, c.counter, [])
    ensures Handle(a, c, ErrorResponse(id, holdsMetrics)) == (a, c.counter, [])
  {
  }
}
