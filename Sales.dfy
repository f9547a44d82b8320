/** The dashboard's `SalesComponent`: the summary figures (`updateSummary`)
    and the series behind its charts (`updateCharts`), derived from the
    inventory snapshot the service holds. */
module Sales {
  import opened Wire
  import opened InsertionMap
  import Aggregation

  // ---------------------------------------------------------------------
  // Sums

  /** Sum of the inventories of some shoes. */
  function ShoesTotal(shoes: seq<Shoe>): int
  {
    if shoes == [] then 0 else ShoesTotal(shoes[..|shoes| - 1]) + shoes[|shoes| - 1].inventory
  }

  /** Sum of every shoe's inventory across all stores. */
  function TotalInventory(data: Snapshot): int
  {
    if data == [] then 0 else TotalInventory(data[..|data| - 1]) + ShoesTotal(data[|data| - 1].shoes)
  }

  /** All shoes, store after store. */
  function FlatShoes(data: Snapshot): seq<Shoe>
  {
    if data == [] then [] else FlatShoes(data[..|data| - 1]) + data[|data| - 1].shoes
  }

  /** Sum of the inventories of the shoes of model `m`. */
  function ModelSum(shoes: seq<Shoe>, m: string): int
  {
    if shoes == [] then 0
    else ModelSum(shoes[..|shoes| - 1], m) + (if shoes[|shoes| - 1].model == m then shoes[|shoes| - 1].inventory else 0)
  }

  lemma {:induction false} ModelSumAppend(xs: seq<Shoe>, ys: seq<Shoe>, m: string)
    ensures ModelSum(xs + ys, m) == ModelSum(xs, m) + ModelSum(ys, m)
  {
    if ys == [] {
      assert xs + ys == xs;
    } else {
      assert (xs + ys)[..|xs + ys| - 1] == xs + ys[..|ys| - 1];
      ModelSumAppend(xs, ys[..|ys| - 1], m);
    }
  }

  // ---------------------------------------------------------------------
  // The dictionaries `updateSummary` accumulates

  /** `modelCount[shoe.model] = (modelCount[shoe.model] || 0) + shoe.inventory`
      for each shoe in turn. */
  function CountFrom(d: Dict, shoes: seq<Shoe>): Dict
  {
    if shoes == [] then d
    else
      var prev := CountFrom(d, shoes[..|shoes| - 1]);
      var shoe := shoes[|shoes| - 1];
      Put(prev, shoe.model, GetOrZero(prev, shoe.model) + shoe.inventory)
  }

  /** `modelCount` after every store. */
  function ModelCounts(data: Snapshot): Dict
  {
    if data == [] then Empty() else CountFrom(ModelCounts(data[..|data| - 1]), data[|data| - 1].shoes)
  }

  /** `storeInventory` after every store: each store's total under its
      name; a later store of the same name overwrites. */
  function StoreTotals(data: Snapshot): Dict
  {
    if data == [] then Empty()
    else Put(StoreTotals(data[..|data| - 1]), data[|data| - 1].name, ShoesTotal(data[|data| - 1].shoes))
  }

  lemma {:induction false} CountFromValid(d: Dict, shoes: seq<Shoe>)
    requires Valid(d)
    ensures Valid(CountFrom(d, shoes))
  {
    if shoes != [] {
      var n := |shoes| - 1;
      CountFromValid(d, shoes[..n]);
      var prev := CountFrom(d, shoes[..n]);
      PutValid(prev, shoes[n].model, GetOrZero(prev, shoes[n].model) + shoes[n].inventory);
    }
  }

  /** Both dictionaries list each key once. */
  lemma {:induction false} SummaryDictsValid(data: Snapshot)
    ensures Valid(ModelCounts(data)) && Valid(StoreTotals(data))
  {
    if data != [] {
      var n := |data| - 1;
      SummaryDictsValid(data[..n]);
      CountFromValid(ModelCounts(data[..n]), data[n].shoes);
      PutValid(StoreTotals(data[..n]), data[n].name, ShoesTotal(data[n].shoes));
    }
  }

  lemma {:induction false} CountFromValue(d: Dict, shoes: seq<Shoe>, m: string)
    ensures GetOrZero(CountFrom(d, shoes), m) == GetOrZero(d, m) + ModelSum(shoes, m)
    ensures m in CountFrom(d, shoes).vals <==> m in d.vals || m in Models(shoes)
  {
    if shoes != [] {
      var n := |shoes| - 1;
      CountFromValue(d, shoes[..n], m);
      assert Models(shoes) == Models(shoes[..n]) + [shoes[n].model];
    }
  }

  lemma {:induction false} FlatShoesModelCounts(data: Snapshot, m: string)
    ensures GetOrZero(ModelCounts(data), m) == ModelSum(FlatShoes(data), m)
    ensures m in ModelCounts(data).vals <==> m in Models(FlatShoes(data))
  {
    if data != [] {
      var n := |data| - 1;
      FlatShoesModelCounts(data[..n], m);
      CountFromValue(ModelCounts(data[..n]), data[n].shoes, m);
      ModelSumAppend(FlatShoes(data[..n]), data[n].shoes, m);
      assert Models(FlatShoes(data)) == Models(FlatShoes(data[..n])) + Models(data[n].shoes);
    }
  }

  /** `modelCount[m]` is the sum, over all stores, of the inventories of the
      shoes of model `m`, and `m` is a key exactly when some shoe has it. */
  lemma ModelCountIsSum(data: Snapshot, m: string)
    ensures GetOrZero(ModelCounts(data), m) == ModelSum(FlatShoes(data), m)
    ensures m in ModelCounts(data).keys <==> exists i, k :: 0 <= i < |data| && 0 <= k < |data[i].shoes| && data[i].shoes[k].model == m
  {
    FlatShoesModelCounts(data, m);
    FlatShoesMembers(data, m);
    SummaryDictsValid(data);
  }

  lemma {:induction false} FlatShoesMembers(data: Snapshot, m: string)
    ensures m in Models(FlatShoes(data)) <==>
      exists i, k :: 0 <= i < |data| && 0 <= k < |data[i].shoes| && data[i].shoes[k].model == m
  {
    if data != [] {
      var n := |data| - 1;
      FlatShoesMembers(data[..n], m);
      assert Models(FlatShoes(data)) == Models(FlatShoes(data[..n])) + Models(data[n].shoes);
      if m in Models(FlatShoes(data)) {
        if m in Models(FlatShoes(data[..n])) {
          var i, k :| 0 <= i < n && 0 <= k < |data[..n][i].shoes| && data[..n][i].shoes[k].model == m;
          assert data[i] == data[..n][i];
        } else {
          var k :| 0 <= k < |data[n].shoes| && Models(data[n].shoes)[k] == m;
          assert data[n].shoes[k].model == m;
        }
      }
      if exists i, k :: 0 <= i < |data| && 0 <= k < |data[i].shoes| && data[i].shoes[k].model == m {
        var i, k :| 0 <= i < |data| && 0 <= k < |data[i].shoes| && data[i].shoes[k].model == m;
        if i < n {
          assert data[..n][i] == data[i];
        } else {
          assert Models(data[n].shoes)[k] == m;
        }
      }
    }
  }

  /** The entry of a store name holds the total of the last store with that
      name. */
  lemma {:induction false} StoreTotalsLastWins(data: Snapshot, i: nat)
    requires i < |data|
    requires forall j :: i < j < |data| ==> data[j].name != data[i].name
    ensures Get(StoreTotals(data), data[i].name) == Some(ShoesTotal(data[i].shoes))
  {
    var n := |data| - 1;
    if i < n {
      assert forall j :: i < j < n ==> data[..n][j] == data[j];
      StoreTotalsLastWins(data[..n], i);
    }
  }

  /** The keys are the store names in first-seen order. */
  lemma {:induction false} StoreTotalsKeys(data: Snapshot)
    ensures StoreTotals(data).keys == Dedup(Names(data))
  {
    if data != [] {
      var n := |data| - 1;
      StoreTotalsKeys(data[..n]);
      SummaryDictsValid(data[..n]);
      assert Names(data)[..n] == Names(data[..n]);
      DedupMembers(Names(data[..n]));
    }
  }

  // ---------------------------------------------------------------------
  // `getTopModel`, `getStoreWithHighestInventory`, `getStoreWithLowestInventory`

  datatype Direction = Highest | Lowest

  /** The comparison of the reducer: `>` for the highest, `<` for the
      lowest; a comparison involving `undefined` is false. */
  predicate Beats(dir: Direction, a: Option<int>, b: Option<int>)
  {
    a.Some? && b.Some? && (if dir == Highest then a.value > b.value else a.value < b.value)
  }

  /** `Object.keys(d).reduce((a, b) => d[a] OP d[b] ? a : b, '')` over the
      first keys of `ks`. */
  function Reduce(d: Dict, ks: seq<string>, dir: Direction): (r: string)
    ensures r == "" || r in ks
  {
    if ks == [] then ""
    else
      var a := Reduce(d, ks[..|ks| - 1], dir);
      var b := ks[|ks| - 1];
      if Beats(dir, Get(d, a), Get(d, b)) then a else b
  }

  /** The key the getters return. `getTopModel` and
      `getStoreWithHighestInventory` are the same reduction with `>`. */
  function Best(d: Dict, dir: Direction): (r: string)
    ensures r == "" || r in d.keys
  {
    Reduce(d, d.keys, dir)
  }

  /** Key `i` holds an optimal value and beats every key listed after it:
      the last key with an optimal value. */
  ghost predicate LastOptimal(d: Dict, i: int, dir: Direction)
  {
    && 0 <= i < |d.keys|
    && (forall q :: 0 <= q < |d.keys| ==> !Beats(dir, Get(d, d.keys[q]), Get(d, d.keys[i])))
    && (forall q :: i < q < |d.keys| ==> Beats(dir, Get(d, d.keys[i]), Get(d, d.keys[q])))
  }

  /** Among the first `j` keys, key `i` holds an optimal value and beats
      every later one. */
  ghost predicate LastOptimalIn(d: Dict, j: nat, dir: Direction, i: int)
    requires j <= |d.keys|
  {
    && 0 <= i < j
    && (forall q :: 0 <= q < j ==> !Beats(dir, Get(d, d.keys[q]), Get(d, d.keys[i])))
    && (forall q :: i < q < j ==> Beats(dir, Get(d, d.keys[i]), Get(d, d.keys[q])))
  }

  /** '' is a key not among the first `j` keys, and its value beats them
      all, so the reduction still holds its initial value. */
  ghost predicate InitialLeads(d: Dict, j: nat, dir: Direction)
    requires j <= |d.keys|
  {
    "" in d.vals && "" !in d.keys[..j] && forall q :: 0 <= q < j ==> Beats(dir, Get(d, ""), Get(d, d.keys[q]))
  }

  /** What the reduction holds after the first `j` keys. */
  ghost predicate ReduceState(d: Dict, j: nat, dir: Direction, r: string)
    requires j <= |d.keys|
  {
    || (exists i :: LastOptimalIn(d, j, dir, i) && r == d.keys[i])
    || (r == "" && InitialLeads(d, j, dir))
    || (j == 0 && r == "" && "" !in d.vals)
  }

  lemma StepFromOptimal(d: Dict, p: nat, dir: Direction, i: int)
    requires Valid(d) && p < |d.keys| && LastOptimalIn(d, p, dir, i)
    ensures Beats(dir, Get(d, d.keys[i]), Get(d, d.keys[p])) ==> LastOptimalIn(d, p + 1, dir, i)
    ensures !Beats(dir, Get(d, d.keys[i]), Get(d, d.keys[p])) ==> LastOptimalIn(d, p + 1, dir, p)
  {
    assert forall q :: 0 <= q <= p ==> d.keys[q] in d.vals;
  }

  lemma StepFromInitial(d: Dict, p: nat, dir: Direction)
    requires Valid(d) && p < |d.keys| && InitialLeads(d, p, dir)
    ensures Beats(dir, Get(d, ""), Get(d, d.keys[p])) ==> InitialLeads(d, p + 1, dir)
    ensures !Beats(dir, Get(d, ""), Get(d, d.keys[p])) ==> LastOptimalIn(d, p + 1, dir, p)
  {
    assert forall q :: 0 <= q <= p ==> d.keys[q] in d.vals;
    assert d.keys[..p + 1] == d.keys[..p] + [d.keys[p]];
  }

  lemma {:induction false} ReducePrefix(d: Dict, j: nat, dir: Direction)
    requires Valid(d) && j <= |d.keys|
    ensures ReduceState(d, j, dir, Reduce(d, d.keys[..j], dir))
  {
    if j > 0 {
      var p := j - 1;
      ReducePrefix(d, p, dir);
      assert d.keys[..j][..p] == d.keys[..p];
      var a := Reduce(d, d.keys[..p], dir);
      var b := d.keys[p];
      var r := Reduce(d, d.keys[..j], dir);
      assert r == if Beats(dir, Get(d, a), Get(d, b)) then a else b;
      if i :| LastOptimalIn(d, p, dir, i) && a == d.keys[i] {
        StepFromOptimal(d, p, dir, i);
      } else if a == "" && InitialLeads(d, p, dir) {
        StepFromInitial(d, p, dir);
      } else {
        assert LastOptimalIn(d, 1, dir, 0);
      }
    }
  }

  /** The getters return '' for an empty dictionary and otherwise the last
      key, in insertion order, with the highest (or lowest) value. */
  lemma BestIsLastOptimal(d: Dict, dir: Direction)
    requires Valid(d)
    ensures d.keys == [] ==> Best(d, dir) == ""
    ensures d.keys != [] ==> exists i :: LastOptimal(d, i, dir) && Best(d, dir) == d.keys[i]
  {
    var n := |d.keys|;
    ReducePrefix(d, n, dir);
    assert d.keys[..n] == d.keys;
    if "" in d.vals {
      assert "" in d.keys;
    }
  }

  /** What the summary's three names are: for each dictionary, '' when it
      is empty, otherwise its last key (in insertion order) holding the
      highest, or for the lowest store the lowest, value. */
  lemma SummaryPicks(data: Snapshot)
    ensures ModelCounts(data).keys == [] ==> Best(ModelCounts(data), Highest) == ""
    ensures ModelCounts(data).keys != [] ==>
      exists i :: LastOptimal(ModelCounts(data), i, Highest) && Best(ModelCounts(data), Highest) == ModelCounts(data).keys[i]
    ensures StoreTotals(data).keys != [] ==>
      exists i :: LastOptimal(StoreTotals(data), i, Highest) && Best(StoreTotals(data), Highest) == StoreTotals(data).keys[i]
    ensures StoreTotals(data).keys != [] ==>
      exists i :: LastOptimal(StoreTotals(data), i, Lowest) && Best(StoreTotals(data), Lowest) == StoreTotals(data).keys[i]
    ensures data != [] <==> StoreTotals(data).keys != []
  {
    SummaryDictsValid(data);
    BestIsLastOptimal(ModelCounts(data), Highest);
    BestIsLastOptimal(StoreTotals(data), Highest);
    BestIsLastOptimal(StoreTotals(data), Lowest);
    StoreTotalsKeys(data);
    DedupMembers(Names(data));
    if data != [] {
      assert Names(data)[0] in Names(data);
    }
  }

  // ---------------------------------------------------------------------
  // `updateCharts`

  /** `[...new Set(xs)]` built from `acc`: each element not yet present is
      appended, in order. */
  function DedupFrom(acc: seq<string>, xs: seq<string>): seq<string>
  {
    if xs == [] then acc
    else
      var r := DedupFrom(acc, xs[..|xs| - 1]);
      if xs[|xs| - 1] in r then r else r + [xs[|xs| - 1]]
  }

  function Dedup(xs: seq<string>): seq<string>
  {
    DedupFrom([], xs)
  }

  lemma {:induction false} DedupFromMembers(acc: seq<string>, xs: seq<string>)
    requires Distinct(acc)
    ensures Distinct(DedupFrom(acc, xs))
    ensures forall x :: x in DedupFrom(acc, xs) <==> x in acc || x in xs
  {
    if xs != [] {
      var n := |xs| - 1;
      DedupFromMembers(acc, xs[..n]);
      assert xs == xs[..n] + [xs[n]];
    }
  }

  /** No duplicates, and exactly the elements of the input. */
  lemma DedupMembers(xs: seq<string>)
    ensures Distinct(Dedup(xs))
    ensures forall x :: x in Dedup(xs) <==> x in xs
  {
    DedupFromMembers([], xs);
  }

  /** Position of the first occurrence. */
  function FirstIndex(xs: seq<string>, x: string): (p: nat)
    requires x in xs
    ensures p < |xs| && xs[p] == x && x !in xs[..p]
  {
    if xs[0] == x then 0 else 1 + FirstIndex(xs[1..], x)
  }

  lemma FirstIndexPrefix(xs: seq<string>, n: nat, x: string)
    requires n <= |xs| && x in xs[..n]
    ensures FirstIndex(xs, x) == FirstIndex(xs[..n], x)
  {
    var q := FirstIndex(xs[..n], x);
    assert xs[q] == x;
  }

  /** Elements come out in the order of their first occurrence. */
  lemma {:induction false} DedupFirstSeen(xs: seq<string>)
    ensures forall i, j :: 0 <= i < j < |Dedup(xs)| ==>
      Dedup(xs)[i] in xs && Dedup(xs)[j] in xs &&
      FirstIndex(xs, Dedup(xs)[i]) < FirstIndex(xs, Dedup(xs)[j])
  {
    if xs != [] {
      var n := |xs| - 1;
      var init := xs[..n];
      DedupFirstSeen(init);
      DedupMembers(init);
      var d := Dedup(init);
      forall x | x in d ensures x in xs && FirstIndex(xs, x) == FirstIndex(init, x) {
        FirstIndexPrefix(xs, n, x);
      }
      if xs[n] !in d {
        assert xs[n] !in init;
        assert FirstIndex(xs, xs[n]) == n by {
          assert xs[..n] == init;
        }
        var e := Dedup(xs);
        assert e == d + [xs[n]];
        forall i, j | 0 <= i < j < |e|
          ensures e[i] in xs && e[j] in xs && FirstIndex(xs, e[i]) < FirstIndex(xs, e[j])
        {
          assert e[i] == d[i];
          if j < |d| {
            assert e[j] == d[j];
          } else {
            assert FirstIndex(init, d[i]) < n;
          }
        }
      } else {
        assert Dedup(xs) == d;
        forall i, j | 0 <= i < j < |d|
          ensures d[i] in xs && d[j] in xs && FirstIndex(xs, d[i]) < FirstIndex(xs, d[j])
        {
          assert FirstIndex(init, d[i]) < FirstIndex(init, d[j]);
        }
      }
    } else {
      assert Dedup(xs) == [];
    }
  }

  /** `models`: the distinct shoe models in first-seen order. */
  function DistinctModels(data: Snapshot): (ms: seq<string>)
    ensures Distinct(ms)
    ensures forall m :: m in ms <==> m in Models(FlatShoes(data))
  {
    DedupMembers(Models(FlatShoes(data)));
    Dedup(Models(FlatShoes(data)))
  }

  /** `store.shoes.find(s => s.model === model)?.inventory || 0`. */
  function FirstInventory(shoes: seq<Shoe>, m: string): (v: int)
    ensures (forall k :: 0 <= k < |shoes| ==> shoes[k].model != m) ==> v == 0
    ensures forall k :: 0 <= k < |shoes| && shoes[k].model == m && m !in Models(shoes[..k]) ==>
      v == shoes[k].inventory
  {
    match Aggregation.FindShoe(shoes, m)
    case None => 0
    case Some(k) => shoes[k].inventory
  }

  /** `data.reduce((sum, store) => sum + FirstInventory(store.shoes, m), 0)`. */
  function StoreSum(data: Snapshot, m: string): int
  {
    if data == [] then 0 else StoreSum(data[..|data| - 1], m) + FirstInventory(data[|data| - 1].shoes, m)
  }

  function Sum(xs: seq<int>): int
  {
    if xs == [] then 0 else Sum(xs[..|xs| - 1]) + xs[|xs| - 1]
  }

  /** One `{name: model, data: [...]}` entry of `storeInventory`. */
  datatype Series = Series(name: string, data: seq<int>)

  /** What `updateCharts` derives: `stores`, `models`, `storeInventory`,
      `aggregatedInventory`. */
  datatype Charts = Charts(stores: seq<string>, models: seq<string>, storeInventory: seq<Series>, aggregated: seq<int>)

  function ModelSeries(data: Snapshot, m: string): (s: Series)
    ensures s.name == m && |s.data| == |data|
    ensures forall i :: 0 <= i < |data| ==> s.data[i] == FirstInventory(data[i].shoes, m)
  {
    Series(m, seq(|data|, i requires 0 <= i < |data| => FirstInventory(data[i].shoes, m)))
  }

  lemma {:induction false} StoreSumIsSeriesSum(data: Snapshot, m: string)
    ensures StoreSum(data, m) == Sum(ModelSeries(data, m).data)
  {
    if data != [] {
      var n := |data| - 1;
      StoreSumIsSeriesSum(data[..n], m);
      assert ModelSeries(data, m).data[..n] == ModelSeries(data[..n], m).data;
    }
  }

  /** The derivations of `updateCharts`: `stores` the store names in order;
      `models` the distinct models in first-seen order; for each model a
      series with, per store, the inventory of that store's first shoe of
      the model or 0; each aggregated value the sum over the stores of those
      values. Empty data gives empty charts. */
  function UpdateCharts(data: Snapshot): (c: Charts)
    ensures c.stores == Names(data)
    ensures c.models == DistinctModels(data)
    ensures |c.storeInventory| == |c.models| == |c.aggregated|
    ensures forall i :: 0 <= i < |c.models| ==>
      && c.storeInventory[i].name == c.models[i]
      && |c.storeInventory[i].data| == |data|
      && (forall j :: 0 <= j < |data| ==> c.storeInventory[i].data[j] == FirstInventory(data[j].shoes, c.models[i]))
      && c.aggregated[i] == StoreSum(data, c.models[i])
      && c.aggregated[i] == Sum(c.storeInventory[i].data)
    ensures data == [] ==> c == Charts([], [], [], [])
  {
    if data == [] then Charts([], [], [], [])
    else
      var models := DistinctModels(data);
      var storeInventory := seq(|models|, i requires 0 <= i < |models| => ModelSeries(data, models[i]));
      var aggregated := seq(|models|, i requires 0 <= i < |models| => StoreSum(data, models[i]));
      assert forall i :: 0 <= i < |models| ==> aggregated[i] == Sum(storeInventory[i].data) by {
        forall i | 0 <= i < |models| ensures aggregated[i] == Sum(storeInventory[i].data) {
          StoreSumIsSeriesSum(data, models[i]);
        }
      }
      Charts(Names(data), models, storeInventory, aggregated)
  }

  /** Within a store without repeated models, the first shoe of a model is
      all of that model. */
  lemma {:induction false} FirstInventoryIsModelSum(shoes: seq<Shoe>, m: string)
    requires Distinct(Models(shoes))
    ensures FirstInventory(shoes, m) == ModelSum(shoes, m)
  {
    if shoes != [] {
      var n := |shoes| - 1;
      var init := shoes[..n];
      assert Models(init) == Models(shoes)[..n];
      FirstInventoryIsModelSum(init, m);
      if shoes[n].model == m {
        assert forall j :: 0 <= j < n ==> init[j].model != m by {
          forall j | 0 <= j < n ensures init[j].model != m {
            assert Models(shoes)[j] != Models(shoes)[n];
          }
        }
        assert Aggregation.FindShoe(init, m) == None;
        Aggregation.FindShoeIs(shoes, m, Some(n));
      } else {
        Aggregation.FindShoeIs(shoes, m, Aggregation.FindShoe(init, m));
      }
    }
  }

  lemma {:induction false} StoreSumIsModelSum(data: Snapshot, m: string)
    requires UniqueKeys(data)
    ensures StoreSum(data, m) == ModelSum(FlatShoes(data), m)
  {
    if data != [] {
      var n := |data| - 1;
      assert UniqueKeys(data[..n]) by {
        assert Names(data[..n]) == Names(data)[..n];
      }
      StoreSumIsModelSum(data[..n], m);
      FirstInventoryIsModelSum(data[n].shoes, m);
      ModelSumAppend(FlatShoes(data[..n]), data[n].shoes, m);
    }
  }

  /** When (store, model) is a key of the snapshot, the chart's aggregated
      value for a model equals that model's `modelCount` in the summary, and
      `models` lists the keys of `modelCount` in the same order. */
  lemma ChartsAgreeWithSummary(data: Snapshot)
    requires UniqueKeys(data)
    ensures UpdateCharts(data).models == ModelCounts(data).keys
    ensures forall i :: 0 <= i < |UpdateCharts(data).models| ==>
      UpdateCharts(data).aggregated[i] == GetOrZero(ModelCounts(data), UpdateCharts(data).models[i])
  {
    ModelCountKeys(data);
    var c := UpdateCharts(data);
    forall i | 0 <= i < |c.models|
      ensures c.aggregated[i] == GetOrZero(ModelCounts(data), c.models[i])
    {
      StoreSumIsModelSum(data, c.models[i]);
      FlatShoesModelCounts(data, c.models[i]);
    }
  }

  lemma {:induction false} CountFromKeys(d: Dict, shoes: seq<Shoe>)
    requires Valid(d)
    ensures CountFrom(d, shoes).keys == DedupFrom(d.keys, Models(shoes))
  {
    if shoes != [] {
      var n := |shoes| - 1;
      CountFromKeys(d, shoes[..n]);
      CountFromValid(d, shoes[..n]);
      assert Models(shoes)[..n] == Models(shoes[..n]);
    }
  }

  lemma {:induction false} DedupFromAppend(acc: seq<string>, xs: seq<string>, ys: seq<string>)
    ensures DedupFrom(acc, xs + ys) == DedupFrom(DedupFrom(acc, xs), ys)
  {
    if ys == [] {
      assert xs + ys == xs;
    } else {
      var n := |ys| - 1;
      assert (xs + ys)[..|xs + ys| - 1] == xs + ys[..n];
      DedupFromAppend(acc, xs, ys[..n]);
    }
  }

  /** `modelCount`'s keys are the models in first-seen order. */
  lemma {:induction false} ModelCountKeys(data: Snapshot)
    ensures ModelCounts(data).keys == DistinctModels(data)
  {
    if data != [] {
      var n := |data| - 1;
      ModelCountKeys(data[..n]);
      SummaryDictsValid(data[..n]);
      CountFromKeys(ModelCounts(data[..n]), data[n].shoes);
      assert Models(FlatShoes(data)) == Models(FlatShoes(data[..n])) + Models(data[n].shoes);
      DedupFromAppend([], Models(FlatShoes(data[..n])), Models(data[n].shoes));
    }
  }

  lemma StoreStep(data: Snapshot, i: nat)
    requires i < |data|
    ensures TotalInventory(data[..i + 1]) == TotalInventory(data[..i]) + ShoesTotal(data[i].shoes)
    ensures ModelCounts(data[..i + 1]) == CountFrom(ModelCounts(data[..i]), data[i].shoes)
    ensures StoreTotals(data[..i + 1]) == Put(StoreTotals(data[..i]), data[i].name, ShoesTotal(data[i].shoes))
  {
    assert data[..i + 1][..i] == data[..i];
  }

  lemma ShoeStep(d: Dict, shoes: seq<Shoe>, k: nat)
    requires k < |shoes|
    ensures ShoesTotal(shoes[..k + 1]) == ShoesTotal(shoes[..k]) + shoes[k].inventory
    ensures CountFrom(d, shoes[..k + 1]) == CountFrom(d, shoes[..k] + [shoes[k]])
  {
    assert shoes[..k + 1] == shoes[..k] + [shoes[k]];
  }

  lemma CountStep(d: Dict, xs: seq<Shoe>, shoe: Shoe)
    ensures CountFrom(d, xs + [shoe]) ==
      Put(CountFrom(d, xs), shoe.model, GetOrZero(CountFrom(d, xs), shoe.model) + shoe.inventory)
  {
    var ys := xs + [shoe];
    assert ys != [] && ys[|ys| - 1] == shoe && ys[..|ys| - 1] == xs;
  }

  // ---------------------------------------------------------------------
  // The component's summary fields

  class SalesComponent {
    var totalInventory: int
    var topModel: string
    var highestInventoryStore: string
    var lowestInventoryStore: string

    constructor ()
      ensures totalInventory == 0 && topModel == ""
      ensures highestInventoryStore == "" && lowestInventoryStore == ""
    {
      totalInventory := 0;
      topModel, highestInventoryStore, lowestInventoryStore := "", "", "";
    }

    /** `resetSummary`. */
    method ResetSummary()
      modifies this
      ensures totalInventory == 0 && topModel == ""
      ensures highestInventoryStore == "" && lowestInventoryStore == ""
    {
      totalInventory := 0;
      topModel := "";
      highestInventoryStore := "";
      lowestInventoryStore := "";
    }

    /** `updateSummary`: the nested loops over stores and shoes, then the
        getters. */
    method UpdateSummary(data: Snapshot)
      modifies this
      ensures totalInventory == TotalInventory(data)
      ensures topModel == Best(ModelCounts(data), Highest)
      ensures highestInventoryStore == Best(StoreTotals(data), Highest)
      ensures lowestInventoryStore == Best(StoreTotals(data), Lowest)
      ensures data == [] ==>
        totalInventory == 0 && topModel == "" && highestInventoryStore == "" && lowestInventoryStore == ""
    {
      if |data| == 0 {
        ResetSummary();
        return;
      }
      var total := 0;
      var modelCount := Empty();
      var storeInventory := Empty();
      var i := 0;
      while i < |data|
        invariant 0 <= i <= |data|
        invariant total == TotalInventory(data[..i])
        invariant modelCount == ModelCounts(data[..i])
        invariant storeInventory == StoreTotals(data[..i])
      {
        var store := data[i];
        var storeTotal := 0;
        var k := 0;
        while k < |store.shoes|
          invariant 0 <= k <= |store.shoes|
          invariant storeTotal == ShoesTotal(store.shoes[..k])
          invariant total == TotalInventory(data[..i]) + storeTotal
          invariant modelCount == CountFrom(ModelCounts(data[..i]), store.shoes[..k])
        {
          var shoe := store.shoes[k];
          total := total + shoe.inventory;
          storeTotal := storeTotal + shoe.inventory;
          modelCount := Put(modelCount, shoe.model, GetOrZero(modelCount, shoe.model) + shoe.inventory);
          ShoeStep(ModelCounts(data[..i]), store.shoes, k);
          CountStep(ModelCounts(data[..i]), store.shoes[..k], shoe);
          k := k + 1;
        }
        assert store.shoes[..k] == store.shoes;
        storeInventory := Put(storeInventory, store.name, storeTotal);
        StoreStep(data, i);
        i := i + 1;
      }
      assert data[..i] == data;
      totalInventory := total;
      topModel := Best(modelCount, Highest);
      highestInventoryStore := Best(storeInventory, Highest);
      lowestInventoryStore := Best(storeInventory, Lowest);
    }
  }
}
