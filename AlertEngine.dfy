/** `generate_alerts`: a pure map from a snapshot to its low-inventory
    alerts, in snapshot order. */
module AlertEngine {
  import opened Wire
  import Decimal

  /** A shoe below this count raises an alert. */
  const LowThreshold := 10
  /** A shoe below this count raises a "high" alert, otherwise "medium". */
  const HighThreshold := 3

  function Severity(inventory: int): (sev: string)
    ensures sev == "high" <==> inventory < HighThreshold
    ensures sev == "medium" <==> inventory >= HighThreshold
  {
    if inventory < HighThreshold then "high" else "medium"
  }

  /** The alert for a low shoe of store `store`. */
  function LowAlert(store: string, shoe: Shoe): Alert
  {
    Alert("Low inventory for " + shoe.model + " at " + store + ": " +
          Decimal.IntToString(shoe.inventory) + " units",
          Severity(shoe.inventory))
  }

  /** The `filter_map` over one store's shoes. */
  function StoreAlerts(store: string, shoes: seq<Shoe>): seq<Alert>
  {
    if shoes == [] then []
    else (if shoes[0].inventory >= LowThreshold then [] else [LowAlert(store, shoes[0])]) +
         StoreAlerts(store, shoes[1..])
  }

  /** The `flat_map` over the stores. */
  function GenerateAlerts(s: Snapshot): seq<Alert>
  {
    if s == [] then [] else StoreAlerts(s[0].name, s[0].shoes) + GenerateAlerts(s[1..])
  }

  // Reference definition: list every (store, shoe) pair in iteration order,
  // then keep the low ones.

  function Pairs(store: string, shoes: seq<Shoe>): seq<(string, Shoe)>
  {
    if shoes == [] then [] else Pairs(store, shoes[..|shoes| - 1]) + [(store, shoes[|shoes| - 1])]
  }

  function Flat(s: Snapshot): seq<(string, Shoe)>
  {
    if s == [] then [] else Flat(s[..|s| - 1]) + Pairs(s[|s| - 1].name, s[|s| - 1].shoes)
  }

  function LowOnly(ps: seq<(string, Shoe)>): seq<Alert>
  {
    if ps == [] then []
    else LowOnly(ps[..|ps| - 1]) +
         (var (store, shoe) := ps[|ps| - 1];
          if shoe.inventory < LowThreshold then [LowAlert(store, shoe)] else [])
  }

  lemma {:induction false} StoreAlertsAppend(store: string, xs: seq<Shoe>, ys: seq<Shoe>)
    ensures StoreAlerts(store, xs + ys) == StoreAlerts(store, xs) + StoreAlerts(store, ys)
  {
    if xs == [] {
      assert xs + ys == ys;
    } else {
      assert (xs + ys)[1..] == xs[1..] + ys;
      StoreAlertsAppend(store, xs[1..], ys);
    }
  }

  /** Alerts of consecutive parts of a snapshot come out in that order. */
  lemma {:induction false} GenerateAlertsAppend(a: Snapshot, b: Snapshot)
    ensures GenerateAlerts(a + b) == GenerateAlerts(a) + GenerateAlerts(b)
  {
    if a == [] {
      assert a + b == b;
    } else {
      assert (a + b)[1..] == a[1..] + b;
      GenerateAlertsAppend(a[1..], b);
    }
  }

  lemma {:induction false} LowOnlyAppend(ps: seq<(string, Shoe)>, qs: seq<(string, Shoe)>)
    ensures LowOnly(ps + qs) == LowOnly(ps) + LowOnly(qs)
  {
    if qs == [] {
      assert ps + qs == ps;
    } else {
      assert (ps + qs)[..|ps + qs| - 1] == ps + qs[..|qs| - 1];
      LowOnlyAppend(ps, qs[..|qs| - 1]);
    }
  }

  lemma {:induction false} StoreAlertsAreLowOnly(store: string, shoes: seq<Shoe>)
    ensures StoreAlerts(store, shoes) == LowOnly(Pairs(store, shoes))
  {
    if shoes != [] {
      var n := |shoes| - 1;
      StoreAlertsAppend(store, shoes[..n], [shoes[n]]);
      assert shoes[..n] + [shoes[n]] == shoes;
      StoreAlertsAreLowOnly(store, shoes[..n]);
      LowOnlyAppend(Pairs(store, shoes[..n]), [(store, shoes[n])]);
      assert LowOnly([(store, shoes[n])]) == StoreAlerts(store, [shoes[n]]);
    }
  }

  /** Every low shoe yields exactly one alert and every other shoe none, in
      the order stores and then shoes are iterated. */
  lemma {:induction false} AlertsFollowSnapshot(s: Snapshot)
    ensures GenerateAlerts(s) == LowOnly(Flat(s))
  {
    if s != [] {
      var n := |s| - 1;
      var last := s[n];
      GenerateAlertsAppend(s[..n], [last]);
      assert s[..n] + [last] == s;
      assert GenerateAlerts([last]) == StoreAlerts(last.name, last.shoes);
      AlertsFollowSnapshot(s[..n]);
      StoreAlertsAreLowOnly(last.name, last.shoes);
      LowOnlyAppend(Flat(s[..n]), Pairs(last.name, last.shoes));
    }
  }

  lemma {:induction false} StoreAlertsComplete(store: string, shoes: seq<Shoe>, k: nat)
    requires k < |shoes| && shoes[k].inventory < LowThreshold
    ensures LowAlert(store, shoes[k]) in StoreAlerts(store, shoes)
  {
    if k > 0 {
      StoreAlertsComplete(store, shoes[1..], k - 1);
    }
  }

  /** Every shoe below the threshold is reported. */
  lemma {:induction false} AlertsComplete(s: Snapshot, i: nat, k: nat)
    requires i < |s| && k < |s[i].shoes| && s[i].shoes[k].inventory < LowThreshold
    ensures LowAlert(s[i].name, s[i].shoes[k]) in GenerateAlerts(s)
  {
    if i == 0 {
      StoreAlertsComplete(s[0].name, s[0].shoes, k);
    } else {
      AlertsComplete(s[1..], i - 1, k);
    }
  }

  lemma {:induction false} StoreAlertsSound(store: string, shoes: seq<Shoe>, a: Alert)
    requires a in StoreAlerts(store, shoes)
    ensures exists k :: 0 <= k < |shoes| && shoes[k].inventory < LowThreshold && a == LowAlert(store, shoes[k])
  {
    if shoes[0].inventory < LowThreshold && a == LowAlert(store, shoes[0]) {
    } else {
      StoreAlertsSound(store, shoes[1..], a);
      var k :| 0 <= k < |shoes[1..]| && shoes[1..][k].inventory < LowThreshold && a == LowAlert(store, shoes[1..][k]);
      assert shoes[k + 1] == shoes[1..][k];
    }
  }

  /** Every alert reports a shoe of the snapshot below the threshold, with
      the severity its count calls for. */
  lemma {:induction false} AlertsSound(s: Snapshot, a: Alert)
    requires a in GenerateAlerts(s)
    ensures exists i, k ::
      && 0 <= i < |s| && 0 <= k < |s[i].shoes|
      && s[i].shoes[k].inventory < LowThreshold && a == LowAlert(s[i].name, s[i].shoes[k])
      && (a.severity == "high" <==> s[i].shoes[k].inventory < HighThreshold)
  {
    if a in StoreAlerts(s[0].name, s[0].shoes) {
      StoreAlertsSound(s[0].name, s[0].shoes, a);
      var k :| 0 <= k < |s[0].shoes| && s[0].shoes[k].inventory < LowThreshold && a == LowAlert(s[0].name, s[0].shoes[k]);
      assert a.severity == "high" <==> s[0].shoes[k].inventory < HighThreshold;
    } else {
      AlertsSound(s[1..], a);
      var i, k :| 0 <= i < |s[1..]| && 0 <= k < |s[1..][i].shoes| &&
        s[1..][i].shoes[k].inventory < LowThreshold && a == LowAlert(s[1..][i].name, s[1..][i].shoes[k]) &&
        (a.severity == "high" <==> s[1..][i].shoes[k].inventory < HighThreshold);
      assert s[i + 1] == s[1..][i];
    }
  }

  /** The alerts of the snapshot built from readings (A, X, 5), (A, Y, 15),
      (B, X, 2): one "medium" for X at A, then one "high" for X at B. */
  lemma ThreeReadingsAlerts()
    ensures GenerateAlerts([StoreEntry("A", [Shoe("X", 5), Shoe("Y", 15)]), StoreEntry("B", [Shoe("X", 2)])]) ==
      [Alert("Low inventory for X at A: 5 units", "medium"),
       Alert("Low inventory for X at B: 2 units", "high")]
  {
    assert Decimal.IntToString(5) == "5";
    assert Decimal.IntToString(2) == "2";
    assert LowAlert("A", Shoe("X", 5)) == Alert("Low inventory for X at A: 5 units", "medium");
    assert LowAlert("B", Shoe("X", 2)) == Alert("Low inventory for X at B: 2 units", "high");
    assert StoreAlerts("A", [Shoe("Y", 15)]) == [];
    assert StoreAlerts("A", [Shoe("X", 5), Shoe("Y", 15)]) == [LowAlert("A", Shoe("X", 5))];
    assert StoreAlerts("B", [Shoe("X", 2)]) == [LowAlert("B", Shoe("X", 2))];
  }
}
