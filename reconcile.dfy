/** The resources-and-materials step of the guided flow. The plan lists
    items per category, each with an estimated cost; the items are gathered
    into rows, and when their costs add up to more than 60% of the cost the
    models predicted, every cost is cut by its share of the excess, but
    never below 1. */
module Reconcile {
  import opened Wrappers

  /** An item as parsed from the plan; each field may be missing. */
  datatype MaterialItem = MaterialItem(item: Option<string>, quantity: Option<string>, cost: Option<real>)

  /** One category of "Resources & Materials" and its items, in plan order. */
  datatype Category = Category(name: string, items: seq<MaterialItem>)

  /** A row of materials_rows. */
  datatype MaterialRow = MaterialRow(category: string, item: string, quantity: string, cost: real)

  /** The share of the predicted total that the materials may take. */
  const ThresholdShare: real := 0.6

  /** The row of one item: a missing name is "", a missing quantity "N/A",
      a missing cost 0. */
  function ItemRow(category: string, it: MaterialItem): (r: MaterialRow)
    ensures r.category == category
    ensures r.item == (if it.item.Some? then it.item.value else "")
    ensures r.quantity == (if it.quantity.Some? then it.quantity.value else "N/A")
    ensures r.cost == (if it.cost.Some? then it.cost.value else 0.0)
  {
    MaterialRow(category, it.item.GetOr(""), it.quantity.GetOr("N/A"), it.cost.GetOr(0.0))
  }

  /** The rows of one category, in item order. */
  function CategoryRows(c: Category): (r: seq<MaterialRow>)
    ensures |r| == |c.items|
    ensures forall k :: 0 <= k < |r| ==> r[k] == ItemRow(c.name, c.items[k])
    decreases |c.items|
  {
    if c.items == [] then []
    else CategoryRows(Category(c.name, c.items[..|c.items| - 1])) + [ItemRow(c.name, c.items[|c.items| - 1])]
  }

  /** All rows: the categories in plan order, each with its items in order. */
  function AllRows(resources: seq<Category>): (r: seq<MaterialRow>)
    ensures |r| == ItemCount(resources)
  {
    if resources == [] then []
    else AllRows(resources[..|resources| - 1]) + CategoryRows(resources[|resources| - 1])
  }

  /** The number of items over all categories. */
  function ItemCount(resources: seq<Category>): nat
  {
    if resources == [] then 0
    else ItemCount(resources[..|resources| - 1]) + |resources[|resources| - 1].items|
  }

  /** sum(row["Estimated Cost"] for row in rows) */
  function SumCosts(rows: seq<MaterialRow>): real
  {
    if rows == [] then 0.0 else SumCosts(rows[..|rows| - 1]) + rows[|rows| - 1].cost
  }

  /** When every cost is at least $1, the sum is at least the number of rows. */
  lemma {:induction false} SumCostsAtLeastCount(rows: seq<MaterialRow>)
    requires forall k :: 0 <= k < |rows| ==> rows[k].cost >= 1.0
    ensures SumCosts(rows) >= |rows| as real
  {
    if rows != [] {
      var init := rows[..|rows| - 1];
      assert forall k :: 0 <= k < |init| ==> init[k] == rows[k];
      SumCostsAtLeastCount(init);
    }
  }

  /** Each cost in `costs` is the cost of the row at the same place. */
  predicate CostsMatch(rows: seq<MaterialRow>, costs: seq<real>)
  {
    |costs| == |rows| && forall k :: 0 <= k < |rows| ==> costs[k] == rows[k].cost
  }

  /** Appending a row together with its cost keeps the costs matched. */
  lemma CostsMatchAppend(rows: seq<MaterialRow>, costs: seq<real>, row: MaterialRow, cost: real)
    requires CostsMatch(rows, costs) && row.cost == cost
    ensures CostsMatch(rows + [row], costs + [cost])
  {
    assert forall k :: 0 <= k < |rows| ==> (rows + [row])[k] == rows[k] && (costs + [cost])[k] == costs[k];
  }

  /** The inner loop: appends one row per item of a category to
      materials_rows, and its cost to raw_costs. */
  method AppendCategory(c: Category, rows0: seq<MaterialRow>, costs0: seq<real>)
    returns (rows: seq<MaterialRow>, rawCosts: seq<real>)
    requires CostsMatch(rows0, costs0)
    ensures rows == rows0 + CategoryRows(c)
    ensures CostsMatch(rows, rawCosts)
  {
    rows, rawCosts := rows0, costs0;
    var j := 0;
    while j < |c.items|
      invariant 0 <= j <= |c.items|
      invariant rows == rows0 + CategoryRows(Category(c.name, c.items[..j]))
      invariant CostsMatch(rows, rawCosts)
    {
      var it := c.items[j];
      var cost := it.cost.GetOr(0.0);
      var row := MaterialRow(c.name, it.item.GetOr(""), it.quantity.GetOr("N/A"), cost);
      assert row == ItemRow(c.name, it);
      assert c.items[..j + 1][..j] == c.items[..j];
      assert CategoryRows(Category(c.name, c.items[..j + 1]))
        == CategoryRows(Category(c.name, c.items[..j])) + [row];
      CostsMatchAppend(rows, rawCosts, row, cost);
      rawCosts := rawCosts + [cost];
      rows := rows + [row];
      j := j + 1;
    }
    assert c.items[..j] == c.items;
    assert Category(c.name, c.items) == c;
  }

  /** The nested loop that gathers materials_rows and raw_costs. */
  method CollectMaterials(resources: seq<Category>) returns (rows: seq<MaterialRow>, rawCosts: seq<real>)
    ensures rows == AllRows(resources)
    ensures |rawCosts| == |rows| && forall k :: 0 <= k < |rows| ==> rawCosts[k] == rows[k].cost
  {
    rows, rawCosts := [], [];
    var i := 0;
    while i < |resources|
      invariant 0 <= i <= |resources|
      invariant rows == AllRows(resources[..i])
      invariant CostsMatch(rows, rawCosts)
    {
      rows, rawCosts := AppendCategory(resources[i], rows, rawCosts);
      assert resources[..i + 1][..i] == resources[..i];
      i := i + 1;
    }
    assert resources[..i] == resources;
  }

  /** One adjusted cost: less its share of the excess delta, at least 1.
      With no positive total to share by, nothing is subtracted, but the
      floor of 1 still applies. */
  function Adjusted(cost: real, originalTotal: real, delta: real): (r: real)
    ensures r >= 1.0
  {
    var adjustment := if originalTotal > 0.0 then (cost / originalTotal) * delta else 0.0;
    if cost - adjustment >= 1.0 then cost - adjustment else 1.0
  }

  /** Every row with its cost replaced by cut(cost), in order. */
  function MapCosts(rows: seq<MaterialRow>, cut: real -> real): (r: seq<MaterialRow>)
    ensures |r| == |rows|
  {
    if rows == [] then []
    else
      var last := rows[|rows| - 1];
      MapCosts(rows[..|rows| - 1], cut) + [last.(cost := cut(last.cost))]
  }

  /** The adjustment of one cost, as a function of the cost. */
  function Cut(originalTotal: real, delta: real): real -> real
  {
    c => Adjusted(c, originalTotal, delta)
  }

  /** Every row with its cost adjusted, in order. */
  function AdjustAll(rows: seq<MaterialRow>, originalTotal: real, delta: real): (r: seq<MaterialRow>)
    ensures |r| == |rows|
  {
    MapCosts(rows, Cut(originalTotal, delta))
  }

  /** The rows after step 3, given the models' total cost. */
  function Reconciled(rows: seq<MaterialRow>, mlTotal: real): (r: seq<MaterialRow>)
    ensures |r| == |rows|
  {
    var total := SumCosts(rows);
    var threshold := ThresholdShare * mlTotal;
    if total > threshold then AdjustAll(rows, total, total - threshold) else rows
  }

  /** Row k of the mapped rows is row k with its cost cut; nothing else
      about a row changes. */
  lemma {:induction false} MapCostsAt(rows: seq<MaterialRow>, cut: real -> real)
    ensures forall k :: 0 <= k < |rows| ==> MapCosts(rows, cut)[k] == rows[k].(cost := cut(rows[k].cost))
  {
    if rows != [] {
      MapCostsAt(rows[..|rows| - 1], cut);
    }
  }

  /** Row k of the adjusted rows is row k with its cost adjusted. */
  lemma AdjustAllAt(rows: seq<MaterialRow>, originalTotal: real, delta: real)
    ensures forall k :: 0 <= k < |rows| ==>
      AdjustAll(rows, originalTotal, delta)[k] == rows[k].(cost := Adjusted(rows[k].cost, originalTotal, delta))
  {
    MapCostsAt(rows, Cut(originalTotal, delta));
  }

  /** Step 3 on materials_rows, in place. */
  method ReconcileCosts(rows: array<MaterialRow>, mlTotal: real)
    modifies rows
    ensures rows[..] == Reconciled(old(rows[..]), mlTotal)
  {
    var resourceTotal := SumCosts(rows[..]);
    var threshold := ThresholdShare * mlTotal;
    if resourceTotal > threshold {
      var delta := resourceTotal - threshold;
      var originalTotal := SumCosts(rows[..]);
      ghost var before := rows[..];
      for i := 0 to rows.Length
        invariant forall k :: 0 <= k < i ==> rows[k] == before[k].(cost := Adjusted(before[k].cost, originalTotal, delta))
        invariant forall k :: i <= k < rows.Length ==> rows[k] == before[k]
      {
        var originalCost := rows[i].cost;
        rows[i] := rows[i].(cost := Adjusted(originalCost, originalTotal, delta));
      }
      AdjustAllAt(before, originalTotal, delta);
      assert rows[..] == AdjustAll(before, originalTotal, delta);
    }
  }

  /** Steps 2 and 3: gather the rows, then reconcile them with the models'
      total. */
  method Materials(resources: seq<Category>, mlTotal: real) returns (result: seq<MaterialRow>)
    ensures result == Reconciled(AllRows(resources), mlTotal)
  {
    var rows, rawCosts := CollectMaterials(resources);
    var table := new MaterialRow[|rows|](k requires 0 <= k < |rows| => rows[k]);
    assert table[..] == rows;
    ReconcileCosts(table, mlTotal);
    result := table[..];
  }

  // ---------------------------------------------------------------------
  // Properties of the reconciliation

  /** Within the threshold, every cost is left as it was. */
  lemma UnchangedWithinThreshold(rows: seq<MaterialRow>, mlTotal: real)
    requires SumCosts(rows) <= ThresholdShare * mlTotal
    ensures Reconciled(rows, mlTotal) == rows
  {
  }

  /** Reconciling keeps the number of rows, their order, and every field
      other than the cost; over the threshold, every cost is at least 1. */
  lemma ReconcileKeepsRows(rows: seq<MaterialRow>, mlTotal: real)
    ensures var r := Reconciled(rows, mlTotal);
      && |r| == |rows|
      && forall k :: 0 <= k < |r| ==>
           r[k].category == rows[k].category && r[k].item == rows[k].item && r[k].quantity == rows[k].quantity
    ensures SumCosts(rows) > ThresholdShare * mlTotal ==>
      forall k :: 0 <= k < |rows| ==> Reconciled(rows, mlTotal)[k].cost >= 1.0
  {
    var total := SumCosts(rows);
    AdjustAllAt(rows, total, total - ThresholdShare * mlTotal);
  }

  /** Every cost is at least `least`. With least = total / threshold no
      proportional cut leaves less than 1, so no row is raised to the floor. */
  predicate NoFloorHit(rows: seq<MaterialRow>, least: real)
  {
    forall k :: 0 <= k < |rows| ==> rows[k].cost >= least
  }

  /** Multiplication by f, as a function of the cost. */
  function Times(f: real): real -> real
  {
    c => c * f
  }

  /** Every cost multiplied by f, nothing else changed. */
  function ScaleAll(rows: seq<MaterialRow>, f: real): (r: seq<MaterialRow>)
    ensures |r| == |rows|
  {
    MapCosts(rows, Times(f))
  }

  /** Scaling every cost by f scales the sum by f. */
  lemma ScaleAllSum(rows: seq<MaterialRow>, f: real)
    ensures SumCosts(ScaleAll(rows, f)) == SumCosts(rows) * f
  {
    MapCostsAbove(rows, Times(f), f);
    MapCostsBelow(rows, Times(f), f);
  }

  /** With f * total == threshold, cutting a cost by its share of the
      excess leaves f times the cost; the floor can only raise that, and
      leaves it alone when it is at least 1. */
  lemma AdjustedVsScaled(c: real, total: real, threshold: real, f: real)
    requires total > 0.0 && f * total == threshold
    ensures Adjusted(c, total, total - threshold) >= c * f
    ensures c * f >= 1.0 ==> Adjusted(c, total, total - threshold) == c * f
  {
    calc {
      c / total * (total - threshold);
      c / total * total - c / total * threshold;
      c - c / total * (f * total);
      c - c * f;
    }
  }

  /** A cost of at least `least`, times f with least * f == 1, is at least 1. */
  lemma AboveFloor(c: real, least: real, f: real)
    requires f > 0.0 && least * f == 1.0 && c >= least
    ensures c * f >= 1.0
  {
  }

  /** A cut that is exactly scaling by f on costs of at least `least`
      maps rows whose costs are all at least `least` to the scaled rows. */
  lemma {:induction false} MapCostsScales(rows: seq<MaterialRow>, cut: real -> real, f: real, least: real)
    requires forall c :: c >= least ==> cut(c) == c * f
    requires NoFloorHit(rows, least)
    ensures MapCosts(rows, cut) == ScaleAll(rows, f)
  {
    if rows != [] {
      var last := rows[|rows| - 1];
      MapCostsScales(rows[..|rows| - 1], cut, f, least);
      assert last.cost >= least;
      assert cut(last.cost) == Times(f)(last.cost);
    }
  }

  /** A cut that never goes below f times the cost gives costs that add up
      to at least f times the original sum. */
  lemma {:induction false} MapCostsAbove(rows: seq<MaterialRow>, cut: real -> real, f: real)
    requires forall c :: cut(c) >= c * f
    ensures SumCosts(MapCosts(rows, cut)) >= SumCosts(rows) * f
  {
    if rows != [] {
      var n := |rows|;
      MapCostsAbove(rows[..n - 1], cut, f);
      var r := MapCosts(rows, cut);
      assert r[..n - 1] == MapCosts(rows[..n - 1], cut);
      assert SumCosts(rows) * f == SumCosts(rows[..n - 1]) * f + rows[n - 1].cost * f;
    }
  }

  /** A cut that never goes above f times the cost gives costs that add up
      to at most f times the original sum. */
  lemma {:induction false} MapCostsBelow(rows: seq<MaterialRow>, cut: real -> real, f: real)
    requires forall c :: cut(c) <= c * f
    ensures SumCosts(MapCosts(rows, cut)) <= SumCosts(rows) * f
  {
    if rows != [] {
      var n := |rows|;
      MapCostsBelow(rows[..n - 1], cut, f);
      var r := MapCosts(rows, cut);
      assert r[..n - 1] == MapCosts(rows[..n - 1], cut);
      assert SumCosts(rows) * f == SumCosts(rows[..n - 1]) * f + rows[n - 1].cost * f;
    }
  }

  /** Without the floor, adjusting is scaling by f. */
  lemma AdjustAllScales(rows: seq<MaterialRow>, total: real, threshold: real, f: real, least: real)
    requires total > 0.0 && f * total == threshold
    requires f > 0.0 && least * f == 1.0 && NoFloorHit(rows, least)
    ensures AdjustAll(rows, total, total - threshold) == ScaleAll(rows, f)
  {
    var cut := Cut(total, total - threshold);
    forall c | c >= least
      ensures cut(c) == c * f
    {
      AdjustedVsScaled(c, total, threshold, f);
      AboveFloor(c, least, f);
    }
    MapCostsScales(rows, cut, f, least);
  }

  /** With the floor, the adjusted costs add up to at least f times the
      original sum. */
  lemma AdjustAllAboveScale(rows: seq<MaterialRow>, total: real, threshold: real, f: real)
    requires total > 0.0 && f * total == threshold
    ensures SumCosts(AdjustAll(rows, total, total - threshold)) >= SumCosts(rows) * f
  {
    var cut := Cut(total, total - threshold);
    forall c
      ensures cut(c) >= c * f
    {
      AdjustedVsScaled(c, total, threshold, f);
    }
    MapCostsAbove(rows, cut, f);
  }

  /** The costs scaled by f, with f * total == threshold, add up to the
      threshold. */
  lemma ScaledSumIs(rows: seq<MaterialRow>, total: real, threshold: real, f: real)
    requires total == SumCosts(rows) && f * total == threshold
    ensures SumCosts(ScaleAll(rows, f)) == threshold
  {
    ScaleAllSum(rows, f);
  }

  lemma Reciprocals(total: real, threshold: real)
    requires total > 0.0 && threshold > 0.0
    ensures threshold / total > 0.0
    ensures threshold / total * total == threshold
    ensures total / threshold * (threshold / total) == 1.0
  {
  }

  /** Over the threshold and with no row hitting the floor (every cost at
      least total / threshold), reconciling scales every cost by
      threshold / total: each row keeps its share of the total. */
  lemma ProportionalWithoutFloor(rows: seq<MaterialRow>, mlTotal: real)
    requires var total := SumCosts(rows);
      total > ThresholdShare * mlTotal > 0.0
      && NoFloorHit(rows, total / (ThresholdShare * mlTotal))
    ensures Reconciled(rows, mlTotal) == ScaleAll(rows, ThresholdShare * mlTotal / SumCosts(rows))
  {
    var total, threshold := SumCosts(rows), ThresholdShare * mlTotal;
    Reciprocals(total, threshold);
    AdjustAllScales(rows, total, threshold, threshold / total, total / threshold);
  }

  /** Over the threshold and with no row hitting the floor, the reconciled
      costs add up to exactly the threshold. */
  lemma ExactWithoutFloor(rows: seq<MaterialRow>, mlTotal: real)
    requires var total := SumCosts(rows);
      total > ThresholdShare * mlTotal > 0.0
      && NoFloorHit(rows, total / (ThresholdShare * mlTotal))
    ensures SumCosts(Reconciled(rows, mlTotal)) == ThresholdShare * mlTotal
  {
    var total, threshold := SumCosts(rows), ThresholdShare * mlTotal;
    ProportionalWithoutFloor(rows, mlTotal);
    Reciprocals(total, threshold);
    ScaledSumIs(rows, total, threshold, threshold / total);
  }

  /** Over the threshold, with a positive total, the reconciled costs add
      up to at least the threshold: the floor can only add. */
  lemma AtLeastThreshold(rows: seq<MaterialRow>, mlTotal: real)
    requires var total := SumCosts(rows);
      total > ThresholdShare * mlTotal && total > 0.0
    ensures SumCosts(Reconciled(rows, mlTotal)) >= ThresholdShare * mlTotal
  {
    var total, threshold := SumCosts(rows), ThresholdShare * mlTotal;
    assert threshold / total * total == threshold;
    AdjustAllAboveScale(rows, total, threshold, threshold / total);
  }

  /** Costs of 100, 200 and 700 against a predicted 1000: the threshold is
      600, the excess 400, and the costs become 60, 120 and 420. */
  lemma ExampleReconciliation()
    ensures var rows := [MaterialRow("Steel", "Beams", "N/A", 100.0),
                         MaterialRow("Steel", "Rebar", "N/A", 200.0),
                         MaterialRow("Labor", "Crew", "N/A", 700.0)];
      var r := Reconciled(rows, 1000.0);
      r[0].cost == 60.0 && r[1].cost == 120.0 && r[2].cost == 420.0
  {
    var rows := [MaterialRow("Steel", "Beams", "N/A", 100.0),
                 MaterialRow("Steel", "Rebar", "N/A", 200.0),
                 MaterialRow("Labor", "Crew", "N/A", 700.0)];
    assert rows[..1][..0] == [];
    assert rows[..2][..1] == rows[..1];
    assert rows[..|rows| - 1] == rows[..2];
    assert SumCosts(rows[..1]) == 100.0;
    assert SumCosts(rows[..2]) == 300.0;
    assert SumCosts(rows) == 1000.0;
    AdjustAllAt(rows, 1000.0, 400.0);
    assert Adjusted(100.0, 1000.0, 400.0) == 60.0;
    assert Adjusted(200.0, 1000.0, 400.0) == 120.0;
    assert Adjusted(700.0, 1000.0, 400.0) == 420.0;
  }
}
