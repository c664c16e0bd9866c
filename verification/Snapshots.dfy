/** The dictionary of the profiling aggregator as an ordered map, its observers as a set, and what the notified
    lists hold. */
module Snapshots {
  import opened Instants
  import opened Timers
  import opened Engines
  import opened Aggregation

  // ---------- an ordered map ----------

  /** The names are in alphabetical order, none of them twice. */
  ghost predicate Ordered(dict: seq<Record>) {
    forall i, j :: 0 <= i < j < |dict| ==> dict[i].name < dict[j].name
  }

  lemma {:induction false} OrderedTail(r: Record, dict: seq<Record>)
    requires Ordered([r] + dict)
    ensures Ordered(dict) && forall x :: x in dict ==> r.name < x.name
  {
    var all := [r] + dict;
    forall i | 0 <= i < |dict| ensures r.name < dict[i].name {
      assert all[0].name < all[i + 1].name;
    }
    forall i, j | 0 <= i < j < |dict| ensures dict[i].name < dict[j].name {
      assert all[i + 1].name < all[j + 1].name;
    }
  }

  lemma {:induction false} OrderedCons(r: Record, dict: seq<Record>)
    requires Ordered(dict) && forall x :: x in dict ==> r.name < x.name
    ensures Ordered([r] + dict)
  {
    var all := [r] + dict;
    forall i, j | 0 <= i < j < |all| ensures all[i].name < all[j].name {
      assert all[j] == dict[j - 1] && dict[j - 1] in dict;
      assert all[i] == if i == 0 then r else dict[i - 1];
    }
  }

  lemma {:induction false} FindsMembers(dict: seq<Record>, name: Name)
    ensures Find(dict, name).None? <==> forall x :: x in dict ==> x.name != name
  {
    if dict != [] && dict[0].name != name {
      FindsMembers(dict[1..], name);
      assert dict == [dict[0]] + dict[1..];
    }
  }

  /** Storing a record is the map update, and keeps the order. */
  lemma {:induction false} PutIsMapUpdate(dict: seq<Record>, r: Record, name: Name)
    requires Ordered(dict)
    ensures Ordered(Put(dict, r))
    ensures forall x :: x in Put(dict, r) ==> x == r || x in dict
    ensures Find(Put(dict, r), name) == if name == r.name then Some(r) else Find(dict, name)
  {
    hide Ordered;
    if dict == [] {
      OrderedCons(r, dict);
      assert [r] + dict == [r];
    } else {
      assert dict == [dict[0]] + dict[1..];
      OrderedTail(dict[0], dict[1..]);
      if dict[0].name == r.name {
        OrderedCons(r, dict[1..]);
      } else if r.name < dict[0].name {
        OrderedCons(r, dict);
      } else {
        PutIsMapUpdate(dict[1..], r, name);
        OrderedCons(dict[0], Put(dict[1..], r));
      }
    }
  }

  /** Removing a name takes out its record and nothing else. */
  lemma {:induction false} RemoveNameIsMapRemoval(dict: seq<Record>, removed: Name, name: Name)
    requires Ordered(dict)
    ensures Ordered(RemoveName(dict, removed))
    ensures forall x :: x in RemoveName(dict, removed) ==> x in dict
    ensures Find(RemoveName(dict, removed), name) == if name == removed then None else Find(dict, name)
  {
    hide Ordered;
    if dict != [] {
      assert dict == [dict[0]] + dict[1..];
      OrderedTail(dict[0], dict[1..]);
      RemoveNameIsMapRemoval(dict[1..], removed, name);
      OrderedCons(dict[0], RemoveName(dict[1..], removed));
      assert [] + RemoveName(dict[1..], removed) == RemoveName(dict[1..], removed);
    }
  }

  /** Selecting by address keeps or drops each record by its own address. */
  lemma {:induction false} SelectIsMapFilter(dict: seq<Record>, addresses: seq<Addr>, among: bool, name: Name)
    requires Ordered(dict)
    ensures Ordered(Select(dict, addresses, among))
    ensures forall x :: x in Select(dict, addresses, among) ==> x in dict
    ensures Find(Select(dict, addresses, among), name)
         == match Find(dict, name)
            case None => None
            case Some(r) => if Contains(addresses, r.addr) == among then Some(r) else None
  {
    hide Ordered;
    hide Contains;
    if dict != [] {
      assert dict == [dict[0]] + dict[1..];
      OrderedTail(dict[0], dict[1..]);
      SelectIsMapFilter(dict[1..], addresses, among, name);
      OrderedCons(dict[0], Select(dict[1..], addresses, among));
      assert [] + Select(dict[1..], addresses, among) == Select(dict[1..], addresses, among);
      if dict[0].name == name {
        FindsMembers(Select(dict[1..], addresses, among), name);
      }
    }
  }

  lemma {:induction false} PutAllIsMapUpdate(dict: seq<Record>, actors: seq<(Name, Addr)>, name: Name)
    requires Ordered(dict)
    ensures Ordered(PutAll(dict, actors))
    ensures (forall a :: a in actors ==> a.0 != name) ==> Find(PutAll(dict, actors), name) == Find(dict, name)
    decreases |actors|
  {
    if actors != [] {
      var r := Record(actors[0].0, actors[0].1, Some([]));
      PutIsMapUpdate(dict, r, name);
      PutAllIsMapUpdate(Put(dict, r), actors[1..], name);
    }
  }

  lemma {:induction false} RemoveNamesIsMapRemoval(dict: seq<Record>, names: seq<Name>, name: Name)
    requires Ordered(dict)
    ensures Ordered(RemoveNames(dict, names))
    ensures Find(RemoveNames(dict, names), name) == if name in names then None else Find(dict, name)
    decreases |names|
  {
    if names != [] {
      RemoveNameIsMapRemoval(dict, names[0], name);
      RemoveNamesIsMapRemoval(RemoveName(dict, names[0]), names[1..], name);
    }
  }

  /** What a selection stands for: all names, those given, or those with one of the given addresses; in alphabetical
      order and without repetition unless they were given. */
  ghost predicate StandsFor(dict: seq<Record>, selection: Selection, names: seq<Name>) {
    match selection
    case All => Increasing(names) && forall name: Name :: name in names <==> Registered(dict, name)
    case SelectedNames(given) => names == given
    case SelectedAddresses(addresses) =>
      && Increasing(names)
      && forall name: Name :: name in names <==>
         Registered(dict, name) && Contains(addresses, Find(dict, name).value.addr)
  }

  lemma {:induction false} ConvertedNames(dict: seq<Record>, selection: Selection)
    requires Ordered(dict)
    ensures StandsFor(dict, selection, ConvertSelection(dict, selection))
  {
    match selection
    case All =>
      NamesOfOrdered(dict, 0);
      forall name: Name ensures name in NamesOf(dict) <==> Registered(dict, name) {
        NamesOfOrdered(dict, name);
      }
    case SelectedNames(_) =>
    case SelectedAddresses(addresses) =>
      var selected := Select(dict, addresses, true);
      SelectIsMapFilter(dict, addresses, true, 0);
      NamesOfOrdered(selected, 0);
      forall name: Name
        ensures name in NamesOf(selected) <==>
                Registered(dict, name) && Contains(addresses, Find(dict, name).value.addr)
      {
        SelectIsMapFilter(dict, addresses, true, name);
        NamesOfOrdered(selected, name);
      }
  }

  lemma {:induction false} NamesOfOrdered(dict: seq<Record>, name: Name)
    requires Ordered(dict)
    ensures Increasing(NamesOf(dict)) && (name in NamesOf(dict) <==> Registered(dict, name))
  {
    FindsMembers(dict, name);
    forall i | 0 <= i < |dict| ensures NamesOf(dict)[i] == dict[i].name && dict[i] in dict {
    }
    if name in NamesOf(dict) {
      var i :| 0 <= i < |dict| && NamesOf(dict)[i] == name;
    }
    if Registered(dict, name) {
      var i :| 0 <= i < |dict| && dict[i] == Find(dict, name).value;
      assert NamesOf(dict)[i] == name;
    }
  }

  // ---------- every reachable state ----------

  /** The dictionary is an ordered map and the observers are a set. */
  ghost predicate Tidy(a: Aggregator) {
    Ordered(a.dict) && Increasing(a.observers)
  }

  lemma {:induction false} StoreOrdered(dict: seq<Record>, name: Name, metrics: Option<seq<Metric>>)
    requires Ordered(dict)
    ensures Ordered(Store(dict, name, metrics))
  {
    if Find(dict, name).Some? {
      PutIsMapUpdate(dict, Find(dict, name).value.(metrics := metrics), name);
    }
  }

  lemma {:induction false} ProcessNextTidy(a: Aggregator, c: Surrounding)
    requires Tidy(a) && (a.state.Processing? ==> a.state.index <= |a.state.list|)
    ensures Tidy(ProcessNext(a, c).0)
  {
    if a.state.Processing? {
      var i := FirstRegistered(a.dict, a.state.list, a.state.index);
      if i < |a.state.list| {
        var r := Find(a.dict, a.state.list[i]).value;
        PutIsMapUpdate(a.dict, r.(metrics := None), r.name);
      }
    }
  }

  lemma {:induction false} HandleTidy(a: Aggregator, c: Surrounding, input: Input)
    requires InRange(a) && Tidy(a)
    ensures Tidy(Handle(a, c, input).0)
  {
    hide Ordered, Increasing, ProcessNext;
    match input
    case RegisterObserver(id) => InsertObserverIsInsertion(a.observers, id);
    case UnregisterObserver(id) => RemoveObserverIsRemoval(a.observers, id);
    case RegisterProfiled(actors) => PutAllIsMapUpdate(a.dict, actors, 0);
    case UnregisterProfiled(selection) => WithoutSelectedOrdered(a.dict, selection);
    case Snapshot(selection) =>
      if a.state.Idle? {
        ProcessNextTidy(a.(state := Processing(ConvertSelection(a.dict, selection), c.now, 0, 0)), c);
      }
    case Metrics(id, metrics) =>
      if a.state.Processing? && id == a.state.requestId {
        var dict := Store(a.dict, a.state.list[a.state.index], metrics);
        StoreOrdered(a.dict, a.state.list[a.state.index], metrics);
        ProcessNextTidy(a.(dict := dict, state := a.state.(index := a.state.index + 1)), c);
      }
    case OtherResponse(_) =>
    case ErrorResponse(_, _) => ProcessNextTidy(a, c);
  }

  lemma {:induction false} WithoutSelectedOrdered(dict: seq<Record>, selection: Selection)
    requires Ordered(dict)
    ensures Ordered(WithoutSelected(dict, selection))
  {
    match selection
    case All =>
    case SelectedNames(names) => RemoveNamesIsMapRemoval(dict, names, 0);
    case SelectedAddresses(addresses) => SelectIsMapFilter(dict, addresses, false, 0);
  }

  /** In every reachable state, whatever was registered, removed, asked and answered. */
  lemma {:induction false} TraceTidy(a: Aggregator, ms: seq<Moment>)
    requires InRange(a) && Tidy(a)
    ensures Tidy(Trace(a, ms).0)
    decreases |ms|
  {
    hide Handle, Tidy;
    if ms != [] {
      HandleInRange(a, ms[0].0, ms[0].1);
      HandleTidy(a, ms[0].0, ms[0].1);
      TraceTidy(Handle(a, ms[0].0, ms[0].1).0, ms[1..]);
    }
  }

  // ---------- each observer exactly once ----------

  /** How often an observer is notified. */
  function TimesNotified(out: seq<Output>, observer: ActorId): nat {
    if out == [] then 0
    else (if out[0].Notified? && out[0].observer == observer then 1 else 0) + TimesNotified(out[1..], observer)
  }

  lemma {:induction false} OnlyNotificationsNotify(out: seq<Output>, observer: ActorId)
    ensures TimesNotified(out, observer) == TimesNotified(Notifications(out), observer)
  {
    if out != [] {
      OnlyNotificationsNotify(out[1..], observer);
      if out[0].Notified? {
        assert Notifications(out)[1..] == Notifications(out[1..]);
      } else {
        assert Notifications(out) == Notifications(out[1..]);
      }
    }
  }

  lemma {:induction false} SetNotifiedOnce(observers: seq<ActorId>, timestamp: Ticks, lists: seq<(Name, seq<Metric>)>,
                                           observer: ActorId)
    requires Increasing(observers)
    ensures TimesNotified(NotifyAll(observers, timestamp, lists), observer) == if observer in observers then 1 else 0
    decreases |observers|
  {
    if observers != [] {
      assert observers == [observers[0]] + observers[1..];
      IncreasingTail(observers[0], observers[1..]);
      SetNotifiedOnce(observers[1..], timestamp, lists, observer);
      assert NotifyAll(observers, timestamp, lists)[1..] == NotifyAll(observers[1..], timestamp, lists);
    }
  }

  /** In a whole round from any reachable state each observer registered at its end is notified exactly once, and
      nobody else. */
  lemma {:induction false} EveryObserverOnce(a: Aggregator, c: Surrounding, selection: Selection, ms: seq<Moment>,
                                             observer: ActorId)
    requires Tidy(a) && a.state.Idle? && FrameworkInputs(ms)
    requires OneRound(Handle(a, c, Snapshot(selection)).0, ms)
    requires Trace(Handle(a, c, Snapshot(selection)).0, ms).0.state.Idle?
    ensures var (a1, _, out1) := Handle(a, c, Snapshot(selection)); var (r, out) := Trace(a1, ms);
            Increasing(r.observers) && TimesNotified(out1 + out, observer) == if observer in r.observers then 1 else 0
  {
    var (a1, _, out1) := Handle(a, c, Snapshot(selection));
    var (r, out) := Trace(a1, ms);
    HandleTidy(a, c, Snapshot(selection));
    TraceTidy(a1, ms);
    WholeRound(a, c, selection, ms);
    OnlyNotificationsNotify(out1 + out, observer);
    var list := if ms == [] then ConvertSelection(a.dict, selection) else FinalList(a1, ms);
    SetNotifiedOnce(r.observers, c.now, ListsFor(r.dict, list), observer);
  }

  // ---------- what the notified lists hold ----------

  function MetricsOf(r: Record): seq<Metric> {
    if r.metrics.Some? then r.metrics.value else []
  }

  /** The notified lists are those of the names registered: each such name of the list with the metrics stored under
      it. */
  lemma {:induction false} ListsHold(dict: seq<Record>, names: seq<Name>, name: Name)
    ensures forall pair :: pair in ListsFor(dict, names) && pair.0 == name ==>
              Registered(dict, name) && pair.1 == MetricsOf(Find(dict, name).value)
    ensures name in names && Registered(dict, name) ==>
              (name, MetricsOf(Find(dict, name).value)) in ListsFor(dict, names)
  {
    if names != [] {
      var n := |names| - 1;
      ListsHold(dict, names[..n], name);
      assert names == names[..n] + [names[n]];
    }
  }

  predicate Removes(dict: seq<Record>, selection: Selection, name: Name) {
    match selection
    case All => true
    case SelectedNames(names) => name in names
    case SelectedAddresses(addresses) => Registered(dict, name) && Contains(addresses, Find(dict, name).value.addr)
  }

  /** The name is registered again, removed or asked. */
  predicate Touches(a: Aggregator, c: Surrounding, input: Input, name: Name)
    requires InRange(a)
  {
    || (input.RegisterProfiled? && exists i :: 0 <= i < |input.actors| && input.actors[i].0 == name)
    || (input.UnregisterProfiled? && Removes(a.dict, input.selection, name))
    || Asks(Handle(a, c, input).2, name)
  }

  predicate Asks(out: seq<Output>, name: Name) {
    exists i :: 0 <= i < |out| && out[i].Asked? && out[i].name == name
  }

  predicate TouchedIn(a: Aggregator, ms: seq<Moment>, name: Name)
    requires InRange(a)
    decreases |ms|
  {
    ms != [] && (Touches(a, ms[0].0, ms[0].1, name) || TouchedIn(Handle(a, ms[0].0, ms[0].1).0, ms[1..], name))
  }

  predicate NotAwaited(a: Aggregator, name: Name)
    requires InRange(a)
  {
    a.state.Processing? ==> a.state.list[a.state.index] != name
  }

  lemma {:induction false} ProcessNextKeepsEntry(a: Aggregator, c: Surrounding, name: Name)
    requires Ordered(a.dict) && (a.state.Processing? ==> a.state.index <= |a.state.list|)
    requires !Asks(ProcessNext(a, c).2, name)
    ensures InRange(ProcessNext(a, c).0) && NotAwaited(ProcessNext(a, c).0, name)
    ensures Find(ProcessNext(a, c).0.dict, name) == Find(a.dict, name)
  {
    if a.state.Processing? {
      var i := FirstRegistered(a.dict, a.state.list, a.state.index);
      if i < |a.state.list| {
        var r := Find(a.dict, a.state.list[i]).value;
        var out := ProcessNext(a, c).2;
        assert out[i - a.state.index].Asked? && out[i - a.state.index].name == a.state.list[i];
        PutIsMapUpdate(a.dict, r.(metrics := None), name);
      }
    }
  }

  lemma {:induction false} RegistrationsKeepEntry(dict: seq<Record>, input: Input, name: Name)
    requires Ordered(dict) && (input.RegisterProfiled? || input.UnregisterProfiled?)
    requires input.RegisterProfiled? ==> !exists i :: 0 <= i < |input.actors| && input.actors[i].0 == name
    requires input.UnregisterProfiled? ==> !Removes(dict, input.selection, name)
    ensures input.RegisterProfiled? ==> Find(PutAll(dict, input.actors), name) == Find(dict, name)
    ensures input.UnregisterProfiled? ==> Find(WithoutSelected(dict, input.selection), name) == Find(dict, name)
  {
    match input
    case RegisterProfiled(actors) => PutAllIsMapUpdate(dict, actors, name);
    case UnregisterProfiled(selection) =>
      match selection {
        case All =>
        case SelectedNames(names) => RemoveNamesIsMapRemoval(dict, names, name);
        case SelectedAddresses(addresses) => SelectIsMapFilter(dict, addresses, false, name);
      }
  }

  lemma {:induction false} HandleKeepsEntry(a: Aggregator, c: Surrounding, input: Input, name: Name)
    requires InRange(a) && Ordered(a.dict) && NotAwaited(a, name) && !Touches(a, c, input, name)
    ensures InRange(Handle(a, c, input).0) && NotAwaited(Handle(a, c, input).0, name)
    ensures Find(Handle(a, c, input).0.dict, name) == Find(a.dict, name)
  {
    hide Ordered, ProcessNext, Asks;
    HandleInRange(a, c, input);
    match input
    case RegisterProfiled(_) => RegistrationsKeepEntry(a.dict, input, name);
    case UnregisterProfiled(_) => RegistrationsKeepEntry(a.dict, input, name);
    case Snapshot(selection) =>
      if a.state.Idle? {
        ProcessNextKeepsEntry(a.(state := Processing(ConvertSelection(a.dict, selection), c.now, 0, 0)), c, name);
      }
    case Metrics(id, metrics) =>
      if a.state.Processing? && id == a.state.requestId {
        AnswerStored(a, metrics, name);
        var dict := Store(a.dict, a.state.list[a.state.index], metrics);
        ProcessNextKeepsEntry(a.(dict := dict, state := a.state.(index := a.state.index + 1)), c, name);
      }
    case ErrorResponse(id, holdsMetrics) =>
      if a.state.Processing? && holdsMetrics && id == a.state.requestId {
        ProcessNextKeepsEntry(a, c, name);
      }
    case _ =>
  }

  /** The answer is stored under the name that was asked, if it is still registered, and under no other. */
  lemma {:induction false} AnswerStored(a: Aggregator, metrics: Option<seq<Metric>>, name: Name)
    requires a.state.Processing? && InRange(a) && Ordered(a.dict)
    ensures var asked := a.state.list[a.state.index]; var dict := Store(a.dict, asked, metrics);
            && Ordered(dict)
            && Find(dict, name) == if name == asked && Registered(a.dict, name)
                                   then Some(Find(a.dict, name).value.(metrics := metrics)) else Find(a.dict, name)
  {
    StoreOrdered(a.dict, a.state.list[a.state.index], metrics);
    var found := Find(a.dict, a.state.list[a.state.index]);
    if found.Some? {
      PutIsMapUpdate(a.dict, found.value.(metrics := metrics), name);
    }
  }

  lemma {:induction false} TraceKeepsEntry(a: Aggregator, ms: seq<Moment>, name: Name)
    requires InRange(a) && Tidy(a) && NotAwaited(a, name) && !TouchedIn(a, ms, name)
    ensures Find(Trace(a, ms).0.dict, name) == Find(a.dict, name)
    decreases |ms|
  {
    hide Handle, Touches, Increasing, Ordered;
    if ms != [] {
      HandleKeepsEntry(a, ms[0].0, ms[0].1, name);
      HandleTidy(a, ms[0].0, ms[0].1);
      TraceKeepsEntry(Handle(a, ms[0].0, ms[0].1).0, ms[1..], name);
    }
  }

  /** What was answered is what is notified: if the outstanding request, for a name still registered, is answered
      with some metrics, and that name is neither registered again nor removed nor asked again before the round
      ends, then every observer gets these metrics under that name, and under it nothing else. */
  lemma {:induction false} AnswerIsNotified(a: Aggregator, c: Surrounding, metrics: Option<seq<Metric>>,
                                            ms: seq<Moment>)
    requires a.state.Processing? && InRange(a) && Tidy(a) && FrameworkInputs(ms)
    requires var name := a.state.list[a.state.index]; var answer := Metrics(a.state.requestId, metrics);
             && Registered(a.dict, name) && OneRound(a, [(c, answer)] + ms)
             && !TouchedIn(a, [(c, answer)] + ms, name)
    requires Trace(a, [(c, Metrics(a.state.requestId, metrics))] + ms).0.state.Idle?
    ensures var name := a.state.list[a.state.index];
            var (r, out) := Trace(a, [(c, Metrics(a.state.requestId, metrics))] + ms);
            var lists := ListsFor(r.dict, FinalList(a, [(c, Metrics(a.state.requestId, metrics))] + ms));
            && Notifications(out) == NotifyAll(r.observers, a.state.timestamp, lists)
            && (name, if metrics.Some? then metrics.value else []) in lists
            && forall pair :: pair in lists && pair.0 == name ==> pair.1 == if metrics.Some? then metrics.value else []
  {
    var name := a.state.list[a.state.index];
    var all := [(c, Metrics(a.state.requestId, metrics))] + ms;
    assert all[0] == (c, Metrics(a.state.requestId, metrics)) && all[1..] == ms;
    RoundVisits(a, all);
    AnswerKept(a, c, metrics, ms);
    ListsHold(Trace(a, all).0.dict, FinalList(a, all), name);
    assert name in FinalList(a, all) by {
      assert FinalList(a, all)[a.state.index] == name;
    }
  }

  lemma {:induction false} AnswerKept(a: Aggregator, c: Surrounding, metrics: Option<seq<Metric>>, ms: seq<Moment>)
    requires a.state.Processing? && InRange(a) && Tidy(a) && Registered(a.dict, a.state.list[a.state.index])
    requires !TouchedIn(a, [(c, Metrics(a.state.requestId, metrics))] + ms, a.state.list[a.state.index])
    ensures var name := a.state.list[a.state.index];
            var found := Find(Trace(a, [(c, Metrics(a.state.requestId, metrics))] + ms).0.dict, name);
            found.Some? && found.value.metrics == metrics
  {
    var name, answer := a.state.list[a.state.index], Metrics(a.state.requestId, metrics);
    var all := [(c, answer)] + ms;
    assert all[0] == (c, answer) && all[1..] == ms;
    AnswerStored(a, metrics, name);
    var dict := Store(a.dict, name, metrics);
    ProcessNextKeepsEntry(a.(dict := dict, state := a.state.(index := a.state.index + 1)), c, name);
    HandleTidy(a, c, answer);
    TraceKeepsEntry(Handle(a, c, answer).0, ms, name);
  }
}
