/** The profiling aggregator as an object, against the handlers on values. */
module Aggregators {
  import opened Instants
  import opened Timers
  import opened Engines
  import opened Aggregation
  import opened Snapshots

  /** What the aggregator sees of its context: the clock, the request counter, and all it has sent. */
  class Outbox {
    var now: Ticks
    var counter: U32
    var sent: seq<Output>

    constructor (now: Ticks, counter: U32)
      ensures this.now == now && this.counter == counter && sent == []
    {
      this.now, this.counter, sent := now, counter, [];
    }

    function Surroundings(): Surrounding
      reads this
    {
      Surrounding(now, counter)
    }

    method SendRequest(position: nat, name: Name, to: Addr) returns (id: U32)
      modifies this`counter, this`sent
      ensures id == counter == WrappingIncrement(old(counter))
      ensures sent == old(sent) + [Asked(position, name, to, id)]
    {
      counter := WrappingIncrement(counter);
      id := counter;
      sent := sent + [Asked(position, name, to, id)];
    }
  }

  /** The names of the selected records, the first record and the others. */
  lemma {:induction false} SelectedFirst(dict: seq<Record>, addresses: seq<Addr>)
    requires dict != []
    ensures var names, rest := NamesOf(Select(dict, addresses, true)), NamesOf(Select(dict[1..], addresses, true));
            names == if Contains(addresses, dict[0].addr) then [dict[0].name] + rest else rest
  {
    hide Contains, NamesOf;
    var rest := Select(dict[1..], addresses, true);
    if Contains(addresses, dict[0].addr) {
      NamesOfCons(dict[0], rest);
    } else {
      assert [] + rest == rest;
    }
  }

  lemma AppendFirst(list: seq<Name>, more: seq<Name>)
    requires more != []
    ensures AppendNew(list, more) == AppendNew(if more[0] in list then list else list + [more[0]], more[1..])
  {
  }

  lemma AppendNone(list: seq<Name>)
    ensures AppendNew(list, []) == list
  {
  }

  lemma NamesOfCons(first: Record, rest: seq<Record>)
    ensures NamesOf([first] + rest) == [first.name] + NamesOf(rest)
  {
  }

  lemma NoneSelected(addresses: seq<Addr>)
    ensures NamesOf(Select([], addresses, true)) == []
  {
  }

  class ProfilingAggregator {
    var actorEntryDict: seq<Record>
    var observerSet: seq<ActorId>
    var state: State

    function Value(): Aggregator
      reads this
    {
      Aggregator(actorEntryDict, observerSet, state)
    }

    constructor ()
      ensures Value() == Aggregator([], [], Idle) && Tidy(Value())
    {
      actorEntryDict, observerSet, state := [], [], Idle;
    }

    method ConvertSelectionToNames(selection: Selection) returns (names: seq<Name>)
      ensures names == ConvertSelection(actorEntryDict, selection)
      ensures Ordered(actorEntryDict) ==> StandsFor(actorEntryDict, selection, names)
    {
      if Ordered(actorEntryDict) {
        ConvertedNames(actorEntryDict, selection);
      }
      hide StandsFor, Ordered, NamesOf, Select, Contains;
      match selection
      case All =>
        names := NamesOf(actorEntryDict);
      case SelectedNames(selected) =>
        names := selected;
      case SelectedAddresses(addresses) =>
        names := [];
        for i := 0 to |actorEntryDict|
          invariant names + NamesOf(Select(actorEntryDict[i..], addresses, true))
                    == ConvertSelection(actorEntryDict, selection)
        {
          var rest := actorEntryDict[i..];
          assert rest[0] == actorEntryDict[i] && rest[1..] == actorEntryDict[i + 1..];
          SelectedFirst(rest, addresses);
          Associative(names, [rest[0].name], NamesOf(Select(rest[1..], addresses, true)));
          if Contains(addresses, actorEntryDict[i].addr) {
            names := names + [actorEntryDict[i].name];
          }
        }
        NoneSelected(addresses);
    }

    method ProcessRequest(context: Outbox, input: Input)
      requires input.RegisterObserver? || input.UnregisterObserver? || input.RegisterProfiled?
               || input.UnregisterProfiled?
      requires InRange(Value())
      modifies this, context`sent
      ensures Value() == Handle(old(Value()), context.Surroundings(), input).0
      ensures context.sent == old(context.sent) + Handle(old(Value()), context.Surroundings(), input).2
    {
      match input {
        case RegisterObserver(id) => observerSet := InsertObserver(observerSet, id);
        case UnregisterObserver(id) => observerSet := RemoveObserver(observerSet, id);
        case RegisterProfiled(actors) =>
          for i := 0 to |actors|
            invariant PutAll(actorEntryDict, actors[i..]) == PutAll(old(actorEntryDict), actors)
            invariant observerSet == old(observerSet) && state == old(state) && context.sent == old(context.sent)
          {
            assert actors[i..][0] == actors[i] && actors[i..][1..] == actors[i + 1..];
            actorEntryDict := Put(actorEntryDict, Record(actors[i].0, actors[i].1, Some([])));
          }
        case UnregisterProfiled(selection) =>
          match selection {
            case All => actorEntryDict := [];
            case SelectedNames(names) =>
              for i := 0 to |names|
                invariant RemoveNames(actorEntryDict, names[i..]) == RemoveNames(old(actorEntryDict), names)
                invariant observerSet == old(observerSet) && state == old(state) && context.sent == old(context.sent)
              {
                assert names[i..][0] == names[i] && names[i..][1..] == names[i + 1..];
                actorEntryDict := RemoveName(actorEntryDict, names[i]);
              }
            case SelectedAddresses(addresses) =>
              actorEntryDict := Select(actorEntryDict, addresses, false);
          }
      }
      context.sent := context.sent + [Replied];
    }

    method NotifyObservers(context: Outbox, names: seq<Name>, timestamp: Ticks)
      modifies context`sent
      ensures context.sent == old(context.sent) + NotifyAll(observerSet, timestamp, ListsFor(actorEntryDict, names))
    {
      var lists := [];
      for i := 0 to |names|
        invariant lists == ListsFor(actorEntryDict, names[..i])
      {
        assert names[..i + 1][..i] == names[..i];
        var found := Find(actorEntryDict, names[i]);
        if found.Some? {
          lists := lists + [(names[i], if found.value.metrics.Some? then found.value.metrics.value else [])];
        }
      }
      assert names[..|names|] == names;
      for i := 0 to |observerSet|
        invariant context.sent == old(context.sent) + NotifyAll(observerSet, timestamp, lists)[..i]
      {
        context.sent := context.sent + [Notified(observerSet[i], timestamp, lists)];
      }
    }

    method ProcessNextSnapshotAndNotify(context: Outbox)
      requires state.Processing? ==> state.index <= |state.list|
      modifies this, context`counter, context`sent
      ensures var r := ProcessNext(old(Value()), old(context.Surroundings()));
              Value() == r.0 && context.counter == r.1 && context.sent == old(context.sent) + r.2
    {
      if state.Processing? {
        var list, start := state.list, state.index;
        var requestSent := false;
        ghost var skips := [];
        for i := start to |list|
          invariant Value() == old(Value()).(state := old(state).(index := i)) && !requestSent
          invariant FirstRegistered(actorEntryDict, list, i) == FirstRegistered(actorEntryDict, list, start)
          invariant skips == Skips(list, start, i) && context.sent == old(context.sent) + skips
                    && context.counter == old(context.counter)
        {
          var found := Find(actorEntryDict, list[i]);
          if found.Some? {
            actorEntryDict := Put(actorEntryDict, found.value.(metrics := None));
            var id := context.SendRequest(i, list[i], found.value.addr);
            state := state.(requestId := id);
            requestSent := true;
            break;
          } else {
            state := state.(index := state.index + 1);
            context.sent := context.sent + [Skipped(i, list[i])];
            skips := skips + [Skipped(i, list[i])];
          }
        }
        if !requestSent {
          NotifyObservers(context, list, state.timestamp);
          state := Idle;
        }
      }
    }

    method ProcessResponse(context: Outbox, input: Input)
      requires input.Metrics? || input.OtherResponse? || input.ErrorResponse?
      requires InRange(Value())
      modifies this, context`counter, context`sent
      ensures var r := Handle(old(Value()), old(context.Surroundings()), input);
              Value() == r.0 && context.counter == r.1 && context.sent == old(context.sent) + r.2
    {
      if state.Processing? {
        match input
        case Metrics(id, metrics) =>
          if id == state.requestId {
            var found := Find(actorEntryDict, state.list[state.index]);
            if found.Some? {
              actorEntryDict := Put(actorEntryDict, found.value.(metrics := metrics));
            }
            state := state.(index := state.index + 1);
            ProcessNextSnapshotAndNotify(context);
          }
        case ErrorResponse(id, holdsMetrics) =>
          if holdsMetrics && id == state.requestId {
            ProcessNextSnapshotAndNotify(context);
          }
        case _ =>
      }
    }

    method ProcessNotification(context: Outbox, selection: Selection)
      requires InRange(Value())
      modifies this, context`counter, context`sent
      ensures var r := Handle(old(Value()), old(context.Surroundings()), Snapshot(selection));
              Value() == r.0 && context.counter == r.1 && context.sent == old(context.sent) + r.2
    {
      hide ProcessNext, AppendNew, ConvertSelection, StandsFor, Ordered;
      var names := ConvertSelectionToNames(selection);
      if state.Idle? {
        state := Processing(names, context.now, 0, 0);
        ProcessNextSnapshotAndNotify(context);
      } else {
        for i := 0 to |names|
          invariant state.Processing? && Value() == old(Value()).(state := old(state).(list := state.list))
          invariant context.counter == old(context.counter) && context.sent == old(context.sent)
          invariant AppendNew(state.list, names[i..]) == AppendNew(old(state.list), names)
        {
          assert names[i..][0] == names[i] && names[i..][1..] == names[i + 1..];
          AppendFirst(state.list, names[i..]);
          if names[i] !in state.list {
            state := state.(list := state.list + [names[i]]);
          }
        }
        AppendNone(state.list);
      }
    }

    method ProcessMessage(context: Outbox, input: Input)
      requires InRange(Value())
      modifies this, context`counter, context`sent
      ensures var r := Handle(old(Value()), old(context.Surroundings()), input);
              Value() == r.0 && context.counter == r.1 && context.sent == old(context.sent) + r.2
      ensures InRange(Value()) && (old(Tidy(Value())) ==> Tidy(Value()))
    {
      HandleInRange(Value(), context.Surroundings(), input);
      if Tidy(Value()) {
        HandleTidy(Value(), context.Surroundings(), input);
      }
      match input
      case Snapshot(selection) => ProcessNotification(context, selection);
      case Metrics(_, _) => ProcessResponse(context, input);
      case OtherResponse(_) => ProcessResponse(context, input);
      case ErrorResponse(_, _) => ProcessResponse(context, input);
      case _ => ProcessRequest(context, input);
    }
  }
}
