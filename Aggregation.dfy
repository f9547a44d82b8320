/** The backend's store of readings, as `handle_message` updates it: find or
    create the store by name, find or create the shoe by model within it, and
    overwrite that shoe's inventory. The persistent tables are represented by
    the ordered snapshot that `aggregate_data` reads back from them (stores and
    shoes in creation order). */
module Aggregation {
  import opened Wire

  /** Index of the first store called `name` (`find_or_create_by(name:)`). */
  function FindStore(s: Snapshot, name: string): (r: Option<nat>)
    ensures r.Some? ==> r.value < |s| && s[r.value].name == name &&
                        forall j :: 0 <= j < r.value ==> s[j].name != name
    ensures r.None? ==> forall j :: 0 <= j < |s| ==> s[j].name != name
  {
    if s == [] then None
    else if s[0].name == name then Some(0)
    else match FindStore(s[1..], name)
      case None => None
      case Some(j) => Some(j + 1)
  }

  /** Index of the first shoe of model `model` within a store. */
  function FindShoe(shoes: seq<Shoe>, model: string): (r: Option<nat>)
    ensures r.Some? ==> r.value < |shoes| && shoes[r.value].model == model &&
                        forall j :: 0 <= j < r.value ==> shoes[j].model != model
    ensures r.None? ==> forall j :: 0 <= j < |shoes| ==> shoes[j].model != model
  {
    if shoes == [] then None
    else if shoes[0].model == model then Some(0)
    else match FindShoe(shoes[1..], model)
      case None => None
      case Some(j) => Some(j + 1)
  }

  /** Find or create the shoe `model` and overwrite its inventory. */
  function SetShoe(shoes: seq<Shoe>, model: string, inventory: int): seq<Shoe>
  {
    match FindShoe(shoes, model)
    case None => shoes + [Shoe(model, inventory)]
    case Some(k) => shoes[k := Shoe(model, inventory)]
  }

  /** Lines 36-38 of `handle_message`. */
  function Upsert(s: Snapshot, r: Reading): Snapshot
  {
    match FindStore(s, r.store)
    case None => s + [StoreEntry(r.store, [Shoe(r.model, r.inventory)])]
    case Some(i) => s[i := StoreEntry(s[i].name, SetShoe(s[i].shoes, r.model, r.inventory))]
  }

  /** The inventory a query by store name, then by model, finds. */
  function Lookup(s: Snapshot, store: string, model: string): Option<int>
  {
    match FindStore(s, store)
    case None => None
    case Some(i) =>
      match FindShoe(s[i].shoes, model)
      case None => None
      case Some(k) => Some(s[i].shoes[k].inventory)
  }

  /** Where the upserted shoe ends up: its old place, or last. */
  lemma SetShoeFound(shoes: seq<Shoe>, model: string, inventory: int)
    ensures var t := SetShoe(shoes, model, inventory);
      FindShoe(t, model) == Some(if FindShoe(shoes, model).None? then |shoes| else FindShoe(shoes, model).value) &&
      t[FindShoe(t, model).value] == Shoe(model, inventory)
  {
    var t := SetShoe(shoes, model, inventory);
    var a, b := FindShoe(t, model), FindShoe(shoes, model);
    if b.None? {
      assert t[|shoes|].model == model;
      if a.Some? { assert a.value == |shoes|; }
    } else {
      assert t[b.value].model == model;
      if a.Some? { assert !(a.value < b.value) && !(b.value < a.value); }
    }
  }

  /** `FindShoe` is determined by where the model first occurs. */
  lemma FindShoeIs(shoes: seq<Shoe>, m: string, r: Option<nat>)
    requires r.Some? ==> r.value < |shoes| && shoes[r.value].model == m &&
                         forall j :: 0 <= j < r.value ==> shoes[j].model != m
    requires r.None? ==> forall j :: 0 <= j < |shoes| ==> shoes[j].model != m
    ensures FindShoe(shoes, m) == r
  {
    var a := FindShoe(shoes, m);
    if a.Some? && r.Some? {
      assert !(a.value < r.value) && !(r.value < a.value);
    }
  }

  /** Other models are found where they were, with the same entry. */
  lemma SetShoeOther(shoes: seq<Shoe>, model: string, inventory: int, m: string)
    requires m != model
    ensures var t := SetShoe(shoes, model, inventory);
      FindShoe(t, m) == FindShoe(shoes, m) &&
      (FindShoe(shoes, m).Some? ==> t[FindShoe(shoes, m).value] == shoes[FindShoe(shoes, m).value])
  {
    var t := SetShoe(shoes, model, inventory);
    assert |t| >= |shoes|;
    assert forall j :: 0 <= j < |shoes| ==> (t[j] == shoes[j] || t[j].model == model);
    assert |t| > |shoes| ==> t[|shoes|].model == model;
    FindShoeIs(t, m, FindShoe(shoes, m));
  }

  lemma UpsertFindStore(s: Snapshot, r: Reading, name: string)
    ensures var t := Upsert(s, r);
      FindStore(t, name) == (if name == r.store && FindStore(s, name).None? then Some(|s|) else FindStore(s, name))
  {
    var t := Upsert(s, r);
    var a, b := FindStore(t, name), FindStore(s, name);
    assert |t| >= |s| && forall j :: 0 <= j < |s| ==> t[j].name == s[j].name;
    if FindStore(s, r.store).None? {
      assert t[|s|].name == r.store;
    }
    if b.Some? {
      assert t[b.value].name == name;
      assert a.Some? && !(a.value < b.value) && !(b.value < a.value);
    } else if a.Some? {
      assert name == r.store;
    }
  }

  /** After an upsert, the pair it names holds exactly the reading's count:
      the old count is overwritten, never added to. */
  lemma {:induction false} UpsertStores(s: Snapshot, r: Reading)
    ensures Lookup(Upsert(s, r), r.store, r.model) == Some(r.inventory)
  {
    var t := Upsert(s, r);
    UpsertFindStore(s, r, r.store);
    match FindStore(s, r.store)
    case None =>
    case Some(i) =>
      SetShoeFound(s[i].shoes, r.model, r.inventory);
  }

  /** Every other (store, model) pair reads as it did before. */
  lemma {:induction false} UpsertFrame(s: Snapshot, r: Reading, store: string, model: string)
    requires store != r.store || model != r.model
    ensures Lookup(Upsert(s, r), store, model) == Lookup(s, store, model)
  {
    var t := Upsert(s, r);
    UpsertFindStore(s, r, store);
    if store != r.store {
      match FindStore(s, store)
      case None =>
      case Some(i) =>
        assert FindStore(s, r.store) != Some(i);
        assert t[i] == s[i];
    } else {
      match FindStore(s, r.store)
      case None =>
      case Some(i) =>
        SetShoeOther(s[i].shoes, r.model, r.inventory, model);
    }
  }

  /** Applying the same reading twice gives the snapshot applying it once
      gives. */
  lemma {:induction false} UpsertIdempotent(s: Snapshot, r: Reading)
    ensures Upsert(Upsert(s, r), r) == Upsert(s, r)
  {
    var t := Upsert(s, r);
    UpsertFindStore(s, r, r.store);
    match FindStore(s, r.store)
    case None =>
      var i := |s|;
      assert t[i].shoes == [Shoe(r.model, r.inventory)];
      assert SetShoe(t[i].shoes, r.model, r.inventory) == t[i].shoes;
      assert Upsert(t, r) == t[i := t[i]] == t;
    case Some(i) =>
      SetShoeFound(s[i].shoes, r.model, r.inventory);
      var k := FindShoe(t[i].shoes, r.model).value;
      assert t[i].shoes[k] == Shoe(r.model, r.inventory);
      assert SetShoe(t[i].shoes, r.model, r.inventory) == t[i].shoes;
      assert Upsert(t, r) == t[i := t[i]] == t;
  }

  /** Stores keep their order; an unseen store is appended last. */
  lemma {:induction false} UpsertStoreOrder(s: Snapshot, r: Reading)
    ensures Names(Upsert(s, r)) ==
      if r.store in Names(s) then Names(s) else Names(s) + [r.store]
    ensures r.store !in Names(s) ==>
      Upsert(s, r) == s + [StoreEntry(r.store, [Shoe(r.model, r.inventory)])]
  {
    match FindStore(s, r.store)
    case None =>
      assert r.store !in Names(s);
    case Some(i) =>
      assert Names(s)[i] == r.store;
  }

  /** Within the reading's store, models keep their order; an unseen model is
      appended last. Every other store is untouched. */
  lemma {:induction false} UpsertShoeOrder(s: Snapshot, r: Reading, i: nat)
    requires i < |s| && FindStore(s, r.store) == Some(i)
    ensures |Upsert(s, r)| == |s|
    ensures forall j :: 0 <= j < |s| && j != i ==> Upsert(s, r)[j] == s[j]
    ensures Upsert(s, r)[i].name == s[i].name
    ensures Models(Upsert(s, r)[i].shoes) ==
      if r.model in Models(s[i].shoes) then Models(s[i].shoes) else Models(s[i].shoes) + [r.model]
  {
    var shoes := s[i].shoes;
    match FindShoe(shoes, r.model)
    case None =>
      assert r.model !in Models(shoes);
      assert Models(shoes + [Shoe(r.model, r.inventory)]) == Models(shoes) + [r.model];
    case Some(k) =>
      assert Models(shoes)[k] == r.model;
      assert Models(shoes[k := Shoe(r.model, r.inventory)]) == Models(shoes);
  }

  /** (store, model) stays a key of the snapshot. */
  lemma {:induction false} UpsertKeepsKeys(s: Snapshot, r: Reading)
    requires UniqueKeys(s)
    ensures UniqueKeys(Upsert(s, r))
  {
    var t := Upsert(s, r);
    UpsertStoreOrder(s, r);
    match FindStore(s, r.store)
    case None =>
      assert Names(t) == Names(s) + [r.store];
      assert Models(t[|s|].shoes) == [r.model];
    case Some(i) =>
      UpsertShoeOrder(s, r, i);
  }
}
