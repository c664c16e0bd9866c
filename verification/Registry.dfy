/** The vector of reactive actors, sorted by identifier, as a map from identifiers to behaviours. */
module Registry {
  import opened Timers
  import opened Engines

  datatype Slot = Slot(id: ActorId, behavior: Behavior)

  ghost predicate StrictlySorted(list: seq<Slot>) {
    forall i, j :: 0 <= i < j < |list| ==> list[i].id < list[j].id
  }

  /** The map that the vector stands for. */
  function Contents(list: seq<Slot>): map<ActorId, Behavior> {
    if list == [] then map[]
    else Contents(list[..|list| - 1])[list[|list| - 1].id := list[|list| - 1].behavior]
  }

  predicate At(list: seq<Slot>, i: int, id: ActorId) {
    0 <= i < |list| && list[i].id == id
  }

  /** The vector and the map list the same behaviours under the same identifiers. */
  ghost predicate Agrees(list: seq<Slot>, m: map<ActorId, Behavior>) {
    && (forall i :: 0 <= i < |list| ==> list[i].id in m && m[list[i].id] == list[i].behavior)
    && (forall id :: id in m ==> exists i :: At(list, i, id))
  }

  lemma {:induction false} ContentsAgrees(list: seq<Slot>)
    requires StrictlySorted(list)
    ensures Agrees(list, Contents(list))
  {
    if list != [] {
      var n := |list| - 1;
      ContentsAgrees(list[..n]);
      forall id | id in Contents(list) ensures exists i :: At(list, i, id) {
        if id == list[n].id {
          assert At(list, n, id);
        } else {
          var i :| At(list[..n], i, id);
          assert At(list, i, id);
        }
      }
      forall i | 0 <= i < |list|
        ensures list[i].id in Contents(list) && Contents(list)[list[i].id] == list[i].behavior
      {
        assert i < n ==> list[..n][i] == list[i];
      }
    }
  }

  lemma {:induction false} AgreesIsUnique(list: seq<Slot>, m: map<ActorId, Behavior>)
    requires StrictlySorted(list) && Agrees(list, m)
    ensures m == Contents(list)
  {
    ContentsAgrees(list);
    forall id ensures id in m <==> id in Contents(list) {
      if id in m {
        var i :| At(list, i, id);
      }
      if id in Contents(list) {
        var i :| At(list, i, id);
      }
    }
    forall id | id in m ensures m[id] == Contents(list)[id] {
      var i :| At(list, i, id);
    }
  }

  /** `sort_unstable_by_key`, on keys that may repeat. */
  function InsertSlot(list: seq<Slot>, s: Slot): seq<Slot> {
    if list == [] || list[|list| - 1].id <= s.id then list + [s]
    else InsertSlot(list[..|list| - 1], s) + [list[|list| - 1]]
  }

  function SortById(list: seq<Slot>): seq<Slot> {
    if list == [] then [] else InsertSlot(SortById(list[..|list| - 1]), list[|list| - 1])
  }

  lemma {:induction false} SortOfSorted(list: seq<Slot>)
    requires StrictlySorted(list)
    ensures SortById(list) == list
  {
    if list != [] {
      SortOfSorted(list[..|list| - 1]);
      assert list == list[..|list| - 1] + [list[|list| - 1]];
    }
  }

  /** Pushing an identifier greater than all others and sorting is the map update. */
  lemma {:induction false} PushAndSort(list: seq<Slot>, s: Slot)
    requires StrictlySorted(list) && forall i :: 0 <= i < |list| ==> list[i].id < s.id
    ensures StrictlySorted(SortById(list + [s])) && Contents(SortById(list + [s])) == Contents(list)[s.id := s.behavior]
    ensures s.id !in Contents(list)
    ensures forall i :: 0 <= i < |SortById(list + [s])| ==> SortById(list + [s])[i].id <= s.id
  {
    var r := list + [s];
    assert StrictlySorted(r) by {
      assert forall i :: 0 <= i < |list| ==> r[i] == list[i];
    }
    SortOfSorted(r);
    assert Contents(r) == Contents(list)[s.id := s.behavior] by {
      assert r[..|r| - 1] == list;
    }
    IdsOfContents(list, s.id);
  }

  lemma {:induction false} IdsOfContents(list: seq<Slot>, id: ActorId)
    requires StrictlySorted(list)
    ensures id in Contents(list) <==> exists i :: At(list, i, id)
  {
    ContentsAgrees(list);
  }

  lemma {:induction false} ReplacedAgrees(list: seq<Slot>, i: nat, b: Behavior, m: map<ActorId, Behavior>)
    requires StrictlySorted(list) && i < |list| && Agrees(list, m)
    ensures Agrees(list[i := Slot(list[i].id, b)], m[list[i].id := b])
  {
    var r, m1 := list[i := Slot(list[i].id, b)], m[list[i].id := b];
    forall id | id in m1 ensures exists j :: At(r, j, id) {
      var j :| At(list, j, id);
      assert At(r, j, id);
    }
    forall j | 0 <= j < |r| ensures r[j].id in m1 && m1[r[j].id] == r[j].behavior {
      assert j != i ==> r[j] == list[j] && list[j].id != list[i].id;
    }
  }

  /** Replacing in place keeps the key set. */
  lemma {:induction false} ReplaceAt(list: seq<Slot>, i: nat, b: Behavior)
    requires StrictlySorted(list) && i < |list|
    ensures var r := list[i := Slot(list[i].id, b)];
            StrictlySorted(r) && Contents(r) == Contents(list)[list[i].id := b]
            && Contents(r).Keys == Contents(list).Keys
  {
    hide Agrees;
    ContentsAgrees(list);
    ReplacedAgrees(list, i, b, Contents(list));
    assert list[i].id in Contents(list) by {
      assert At(list, i, list[i].id);
      IdsOfContents(list, list[i].id);
    }
    AgreesIsUnique(list[i := Slot(list[i].id, b)], Contents(list)[list[i].id := b]);
  }

  function Without(list: seq<Slot>, i: nat): (r: seq<Slot>)
    requires i < |list|
    ensures |r| == |list| - 1
    ensures forall j :: 0 <= j < |r| ==> r[j] == list[if j < i then j else j + 1]
  {
    list[..i] + list[i + 1..]
  }

  lemma WithoutSorted(list: seq<Slot>, i: nat)
    requires StrictlySorted(list) && i < |list|
    ensures StrictlySorted(Without(list, i))
    ensures forall j :: 0 <= j < |list| - 1 ==> Without(list, i)[j].id != list[i].id
  {
  }

  lemma {:induction false} WithoutAgrees(list: seq<Slot>, i: nat, m: map<ActorId, Behavior>)
    requires StrictlySorted(list) && i < |list| && Agrees(list, m)
    ensures Agrees(Without(list, i), m - {list[i].id})
  {
    var r := Without(list, i);
    WithoutSorted(list, i);
    hide StrictlySorted;
    forall id | id in m - {list[i].id} ensures exists j :: At(r, j, id) {
      var j :| At(list, j, id);
      assert At(r, if j < i then j else j - 1, id);
    }
    forall j | 0 <= j < |r| ensures r[j].id in m - {list[i].id} && m[r[j].id] == r[j].behavior {
      assert r[j] == list[if j < i then j else j + 1];
    }
  }

  lemma {:induction false} RemoveAt(list: seq<Slot>, i: nat)
    requires StrictlySorted(list) && i < |list|
    ensures StrictlySorted(Without(list, i)) && Contents(Without(list, i)) == Contents(list) - {list[i].id}
  {
    ContentsAgrees(list);
    WithoutSorted(list, i);
    WithoutAgrees(list, i, Contents(list));
    AgreesIsUnique(Without(list, i), Contents(list) - {list[i].id});
  }
}
