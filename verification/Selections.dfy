/** What registrations and snapshot notifications add to the profiling aggregator, name by name. */
module Selections {
  import opened Instants
  import opened Timers
  import opened Engines
  import opened Aggregation
  import opened Snapshots

  /** The selection stands for this name, with this dictionary. */
  predicate Selected(dict: seq<Record>, selection: Selection, name: Name) {
    match selection
    case All => Registered(dict, name)
    case SelectedNames(names) => name in names
    case SelectedAddresses(addresses) => Registered(dict, name) && Contains(addresses, Find(dict, name).value.addr)
  }

  lemma {:induction false} ConvertedIsSelected(dict: seq<Record>, selection: Selection, name: Name)
    requires Ordered(dict)
    ensures name in ConvertSelection(dict, selection) <==> Selected(dict, selection, name)
  {
    ConvertedNames(dict, selection);
  }

  // ---------- registrations ----------

  /** The name is given in the list of a registration. */
  predicate Given(actors: seq<(Name, Addr)>, name: Name) {
    exists i :: 0 <= i < |actors| && actors[i].0 == name
  }

  /** The address that a registration gives last for the name. */
  function LastGiven(actors: seq<(Name, Addr)>, name: Name): (addr: Addr)
    requires Given(actors, name)
  {
    var n := |actors| - 1;
    if actors[n].0 == name then actors[n].1
    else
      GivenBefore(actors, name);
      LastGiven(actors[..n], name)
  }

  lemma {:induction false} GivenBefore(actors: seq<(Name, Addr)>, name: Name)
    requires actors != [] && actors[|actors| - 1].0 != name
    ensures Given(actors, name) <==> Given(actors[..|actors| - 1], name)
  {
    var shorter := actors[..|actors| - 1];
    if i :| 0 <= i < |actors| && actors[i].0 == name {
      assert shorter[i].0 == name;
    }
    if i :| 0 <= i < |shorter| && shorter[i].0 == name {
      assert actors[i].0 == name;
    }
  }

  lemma {:induction false} PutAllSnoc(dict: seq<Record>, actors: seq<(Name, Addr)>)
    requires actors != []
    ensures var n := |actors| - 1;
            PutAll(dict, actors) == Put(PutAll(dict, actors[..n]), Record(actors[n].0, actors[n].1, Some([])))
    decreases |actors|
  {
    if |actors| == 1 {
      assert actors[1..] == [];
    } else {
      PutAllSnoc(Put(dict, Record(actors[0].0, actors[0].1, Some([]))), actors[1..]);
      assert actors[1..][..|actors| - 2] == actors[..|actors| - 1][1..];
    }
  }

  /** A name that is registered gets its last address and no metrics yet; all other names stay as they are. */
  lemma {:induction false} RegisteredAsGiven(dict: seq<Record>, actors: seq<(Name, Addr)>, name: Name)
    requires Ordered(dict)
    ensures Find(PutAll(dict, actors), name)
         == if Given(actors, name) then Some(Record(name, LastGiven(actors, name), Some([]))) else Find(dict, name)
    decreases |actors|
  {
    if actors != [] {
      var n := |actors| - 1;
      var last := actors[n];
      RegisteredAsGiven(dict, actors[..n], name);
      PutAllSnoc(dict, actors);
      PutAllIsMapUpdate(dict, actors[..n], name);
      PutIsMapUpdate(PutAll(dict, actors[..n]), Record(last.0, last.1, Some([])), name);
      if last.0 != name {
        GivenBefore(actors, name);
      }
    }
  }

  /** Observers come and go one by one, names are registered and removed, and nothing else changes. */
  predicate AsAsked(a: Aggregator, r: Aggregator, input: Input, name: Name, observer: ActorId) {
    match input
    case RegisterObserver(id) =>
      r.dict == a.dict && (observer in r.observers <==> observer in a.observers || observer == id)
    case UnregisterObserver(id) =>
      r.dict == a.dict && (observer in r.observers <==> observer in a.observers && observer != id)
    case RegisterProfiled(actors) =>
      && r.observers == a.observers
      && (Given(actors, name) ==> Find(r.dict, name) == Some(Record(name, LastGiven(actors, name), Some([]))))
      && (!Given(actors, name) ==> Find(r.dict, name) == Find(a.dict, name))
    case UnregisterProfiled(selection) =>
      && r.observers == a.observers
      && (Selected(a.dict, selection, name) ==> Find(r.dict, name) == None)
      && (!Selected(a.dict, selection, name) ==> Find(r.dict, name) == Find(a.dict, name))
    case _ => false
  }

  /** Every request does what it says, and is answered once. */
  lemma {:induction false} RegistrationsAreDone(a: Aggregator, c: Surrounding, input: Input, name: Name,
                                                observer: ActorId)
    requires Tidy(a) && InRange(a)
    requires input.RegisterObserver? || input.UnregisterObserver? || input.RegisterProfiled?
             || input.UnregisterProfiled?
    ensures var (r, counter, out) := Handle(a, c, input);
            r.state == a.state && counter == c.counter && out == [Replied] && AsAsked(a, r, input, name, observer)
  {
    match input
    case RegisterObserver(id) => InsertObserverIsInsertion(a.observers, id);
    case UnregisterObserver(id) => RemoveObserverIsRemoval(a.observers, id);
    case RegisterProfiled(actors) => RegisteredAsGiven(a.dict, actors, name);
    case UnregisterProfiled(selection) =>
      match selection {
        case All =>
        case SelectedNames(names) => RemoveNamesIsMapRemoval(a.dict, names, name);
        case SelectedAddresses(addresses) => SelectIsMapFilter(a.dict, addresses, false, name);
      }
  }

  // ---------- snapshot notifications ----------

  /** No name stands twice in the list from this position on, or there and before it. */
  predicate NewFrom(list: seq<Name>, from: nat) {
    forall i, j :: 0 <= i < j < |list| && from <= j ==> list[i] != list[j]
  }

  lemma {:induction false} AppendedNames(list: seq<Name>, more: seq<Name>, from: nat)
    requires from <= |list| && NewFrom(list, from)
    ensures NewFrom(AppendNew(list, more), from)
    ensures forall name :: name in AppendNew(list, more) <==> name in list || name in more
    decreases |more|
  {
    if more != [] {
      var longer := if more[0] in list then list else list + [more[0]];
      AppendedNames(longer, more[1..], from);
      assert more == [more[0]] + more[1..];
    }
  }

  /** During a round a snapshot notification adds the names it selects that are not in the list yet, each once, at
      the end; and changes and sends nothing else. */
  lemma {:induction false} SnapshotAddsNames(a: Aggregator, c: Surrounding, selection: Selection, name: Name)
    requires a.state.Processing? && InRange(a) && Ordered(a.dict)
    ensures var (r, counter, out) := Handle(a, c, Snapshot(selection));
            && r.state.Processing? && r == a.(state := a.state.(list := r.state.list)) && counter == c.counter
            && out == []
            && a.state.list <= r.state.list && NewFrom(r.state.list, |a.state.list|)
            && (name in r.state.list <==> name in a.state.list || Selected(a.dict, selection, name))
  {
    ConvertedIsSelected(a.dict, selection, name);
    AppendedNames(a.state.list, ConvertSelection(a.dict, selection), |a.state.list|);
  }

  /** A list that a round goes on with only grows until the round is over. */
  lemma {:induction false} ListOnlyGrows(a: Aggregator, ms: seq<Moment>, i: nat)
    requires a.state.Processing? && InRange(a) && OneRound(a, ms) && FrameworkInputs(ms) && i <= |ms|
    ensures Trace(a, ms[..i]).0.state.Processing? ==> Trace(a, ms[..i]).0.state.list <= FinalList(a, ms)
    decreases |ms|
  {
    if i == 0 {
      assert ms[..0] == [];
      RoundVisits(a, ms);
    } else {
      var a1 := Handle(a, ms[0].0, ms[0].1).0;
      HandleInRange(a, ms[0].0, ms[0].1);
      assert ms[..i][1..] == ms[1..][..i - 1];
      assert Trace(a, ms[..i]).0 == Trace(a1, ms[1..][..i - 1]).0;
      if a1.state.Processing? {
        ListOnlyGrows(a1, ms[1..], i - 1);
      } else {
        assert ms[1..] == [];
      }
    }
  }

  lemma {:induction false} StillRunning(a: Aggregator, ms: seq<Moment>, i: nat)
    requires a.state.Processing? && InRange(a) && OneRound(a, ms) && i < |ms|
    ensures Trace(a, ms[..i]).0.state.Processing?
    ensures Trace(a, ms[..i + 1]).0 == Handle(Trace(a, ms[..i]).0, ms[i].0, ms[i].1).0
    decreases |ms|
  {
    hide Handle;
    var a1 := Handle(a, ms[0].0, ms[0].1).0;
    HandleInRange(a, ms[0].0, ms[0].1);
    if i == 0 {
      assert ms[..0] == [] && ms[..1] == [ms[0]] && [ms[0]][1..] == [];
    } else {
      assert OneRound(a1, ms[1..]);
      StillRunning(a1, ms[1..], i - 1);
      assert ms[..i][1..] == ms[1..][..i - 1] && ms[..i + 1][1..] == ms[1..][..i];
    }
  }

  /** Every name selected by a notification while a round ran is dealt with: it stands at a position of the final list,
      and that position was visited. */
  lemma {:induction false} SelectedIsVisited(a: Aggregator, c: Surrounding, selection: Selection, ms: seq<Moment>,
                                             i: nat, later: Selection, name: Name)
    returns (k: nat)
    requires Tidy(a) && a.state.Idle? && FrameworkInputs(ms)
    requires OneRound(Handle(a, c, Snapshot(selection)).0, ms)
    requires Trace(Handle(a, c, Snapshot(selection)).0, ms).0.state.Idle?
    requires i < |ms| && ms[i].1 == Snapshot(later)
    requires Selected(Trace(Handle(a, c, Snapshot(selection)).0, ms[..i]).0.dict, later, name)
    ensures var (a1, _, out1) := Handle(a, c, Snapshot(selection));
            var out, list := Trace(a1, ms).1, FinalList(a1, ms);
            k < |list| && list[k] == name && k in Visits(out1 + out)
  {
    var a1 := Handle(a, c, Snapshot(selection)).0;
    HandleTidy(a, c, Snapshot(selection));
    TraceTidy(a1, ms[..i]);
    StillRunning(a1, ms, i);
    var b := Trace(a1, ms[..i]).0;
    SnapshotAddsNames(b, ms[i].0, later, name);
    ListOnlyGrows(a1, ms, i + 1);
    var list := Trace(a1, ms[..i + 1]).0.state.list;
    k :| 0 <= k < |list| && list[k] == name;
    WholeRound(a, c, selection, ms);
    InRangeOf(0, |FinalList(a1, ms)|, k);
  }

  lemma {:induction false} InRangeOf(from: nat, to: nat, k: nat)
    requires from <= k < to
    ensures k in Range(from, to)
  {
    assert Range(from, to)[k - from] == k;
  }

  /** A round starts with exactly the names it selects. */
  lemma {:induction false} RoundStartsWithSelected(a: Aggregator, c: Surrounding, selection: Selection, name: Name)
    requires a.state.Idle? && Ordered(a.dict)
    ensures var r := Handle(a, c, Snapshot(selection)).0;
            r.state.Processing? ==>
            (name in r.state.list <==> Selected(a.dict, selection, name)) && r.state.timestamp == c.now
  {
    ConvertedIsSelected(a.dict, selection, name);
  }

  /** The list of metrics of the name asked is away with the request, and what was stored under all others stays. */
  lemma {:induction false} AskedMetricsAreAway(a: Aggregator, c: Surrounding, name: Name)
    requires a.state.Processing? && a.state.index <= |a.state.list| && Ordered(a.dict)
    ensures var r := ProcessNext(a, c).0;
            if r.state.Processing? && r.state.list[r.state.index] == name
            then Registered(a.dict, name) && Find(r.dict, name) == Some(Find(a.dict, name).value.(metrics := None))
            else Find(r.dict, name) == Find(a.dict, name)
  {
    var i := FirstRegistered(a.dict, a.state.list, a.state.index);
    if i < |a.state.list| {
      PutIsMapUpdate(a.dict, Find(a.dict, a.state.list[i]).value.(metrics := None), name);
    }
  }
}
