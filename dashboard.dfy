/**
 * The dashboard's figures: total stock, the three stock alert lists, and
 * the top-selling medicines by quantity, tallied over the receipts of the
 * chosen period.
 */
module Dashboard {
  import opened Wrappers
  import opened Views
  import Lists
  import Sorting
  import StockBands

  // ------------------------------------------------------------------ period

  /** `filteredReceipts`: receipts created at or after the start of the period. */
  function ReceiptsFrom(receipts: seq<ReceiptView>, from: int): (r: seq<ReceiptView>)
    ensures forall x :: x in r <==> x in receipts && x.createdAt.ms >= from
  {
    Lists.Filter(receipts, (x: ReceiptView) => x.createdAt.ms >= from)
  }

  // ------------------------------------------------------------------ alerts

  datatype Alert = Alert(id: int, name: string, genericName: string, stock: int, isCritical: bool, status: string)

  /** The status the low-stock list computes for each entry. */
  function AlertStatus(stock: int): string
  {
    if stock < 25 then "Critical" else if stock < 100 then "Low" else "Normal"
  }

  predicate ByStock(a: MedicineView, b: MedicineView) { a.totalStock <= b.totalStock }

  lemma ByStockTotalPreorder()
    ensures Sorting.TotalPreorder(ByStock)
  {
  }

  /** `filter(band).sort((a, b) => a.totalStock - b.totalStock)`. */
  function SortedBand(meds: seq<MedicineView>, band: MedicineView -> bool): (r: seq<MedicineView>)
    ensures Sorting.SortedBy(r, ByStock)
    ensures multiset(r) == multiset(Lists.Filter(meds, band))
    ensures forall m :: m in r <==> m in meds && band(m)
  {
    ByStockTotalPreorder();
    Sorting.SortByKeepsMembers(Lists.Filter(meds, band), ByStock);
    Sorting.SortBy(Lists.Filter(meds, band), ByStock)
  }

  /** `.map(med => ({ ... }))`: one alert per medicine, in the same order. */
  function AlertsOf(ms: seq<MedicineView>, mk: MedicineView -> Alert): (r: seq<Alert>)
    ensures |r| == |ms|
    ensures forall k :: 0 <= k < |ms| ==> r[k] == mk(ms[k])
  {
    seq(|ms|, k requires 0 <= k < |ms| => mk(ms[k]))
  }

  /** The entry `lowStockAlerts` builds for one medicine. */
  function LowAlert(m: MedicineView): Alert
  {
    Alert(m.id, m.name, m.genericName, m.totalStock, m.totalStock < 25, AlertStatus(m.totalStock))
  }

  /** The entry `criticalStockAlerts` builds for one medicine. */
  function CriticalAlert(m: MedicineView): Alert
  {
    Alert(m.id, m.name, m.genericName, m.totalStock, true, "Critical")
  }

  /** The entry `outOfStockAlerts` builds for one medicine. */
  function OutAlert(m: MedicineView): Alert
  {
    Alert(m.id, m.name, m.genericName, m.totalStock, true, "Out Of Stock")
  }

  /** `a` is the alert `mk` builds for some medicine of `meds` in the band. */
  ghost predicate BuiltFrom(a: Alert, meds: seq<MedicineView>, band: MedicineView -> bool, mk: MedicineView -> Alert)
  {
    exists m :: m in meds && band(m) && a == mk(m)
  }

  /**
   * The alerts built from a band's sorted medicines: every alert comes from a
   * medicine of `meds` in the band, and every such medicine has its alert.
   */
  lemma AlertsFromBand(meds: seq<MedicineView>, band: MedicineView -> bool, mk: MedicineView -> Alert,
                       sorted: seq<MedicineView>, r: seq<Alert>)
    requires forall m :: m in sorted <==> m in meds && band(m)
    requires |r| == |sorted| && forall k :: 0 <= k < |r| ==> r[k] == mk(sorted[k])
    ensures forall k :: 0 <= k < |r| ==> BuiltFrom(r[k], meds, band, mk)
    ensures forall m :: m in meds && band(m) ==> mk(m) in r
  {
    forall k | 0 <= k < |r|
      ensures BuiltFrom(r[k], meds, band, mk)
    {
      var m := sorted[k];
      assert m in sorted;
      assert m in meds && band(m) && r[k] == mk(m);
    }
    forall m | m in meds && band(m)
      ensures mk(m) in r
    {
      var k :| 0 <= k < |sorted| && sorted[k] == m;
      assert r[k] == mk(m);
    }
  }

  /** `lowStockAlerts`: stock 25..99, fewest first; its "Critical" case never arises. */
  function LowStockAlerts(meds: seq<MedicineView>): (r: seq<Alert>)
    ensures |r| == StockBands.Count(meds, StockBands.Low)
    ensures forall k :: 0 <= k < |r| ==> 25 <= r[k].stock < 100 && r[k].status == "Low" && !r[k].isCritical
    ensures forall i, j :: 0 <= i < j < |r| ==> r[i].stock <= r[j].stock
    ensures forall k :: 0 <= k < |r| ==> BuiltFrom(r[k], meds, StockBands.Low, LowAlert)
    ensures forall m :: m in meds && StockBands.Low(m) ==> LowAlert(m) in r
  {
    var sorted := SortedBand(meds, StockBands.Low);
    assert |sorted| == |Lists.Filter(meds, StockBands.Low)| by {
      assert |multiset(sorted)| == |multiset(Lists.Filter(meds, StockBands.Low))|;
    }
    assert forall k :: 0 <= k < |sorted| ==> StockBands.Low(sorted[k]) by {
      assert forall k :: 0 <= k < |sorted| ==> sorted[k] in sorted;
    }
    var r := AlertsOf(sorted, LowAlert);
    AlertsFromBand(meds, StockBands.Low, LowAlert, sorted, r);
    r
  }

  /** `criticalStockAlerts`: stock 1..24, fewest first. */
  function CriticalStockAlerts(meds: seq<MedicineView>): (r: seq<Alert>)
    ensures |r| == StockBands.Count(meds, StockBands.Critical)
    ensures forall k :: 0 <= k < |r| ==> 1 <= r[k].stock < 25 && r[k].status == "Critical" && r[k].isCritical
    ensures forall i, j :: 0 <= i < j < |r| ==> r[i].stock <= r[j].stock
    ensures forall k :: 0 <= k < |r| ==> BuiltFrom(r[k], meds, StockBands.Critical, CriticalAlert)
    ensures forall m :: m in meds && StockBands.Critical(m) ==> CriticalAlert(m) in r
  {
    var sorted := SortedBand(meds, StockBands.Critical);
    assert |sorted| == |Lists.Filter(meds, StockBands.Critical)| by {
      assert |multiset(sorted)| == |multiset(Lists.Filter(meds, StockBands.Critical))|;
    }
    assert forall k :: 0 <= k < |sorted| ==> StockBands.Critical(sorted[k]) by {
      assert forall k :: 0 <= k < |sorted| ==> sorted[k] in sorted;
    }
    var r := AlertsOf(sorted, CriticalAlert);
    AlertsFromBand(meds, StockBands.Critical, CriticalAlert, sorted, r);
    r
  }

  /** `outOfStockAlerts`: stock exactly 0, in list order. */
  function OutOfStockAlerts(meds: seq<MedicineView>): (r: seq<Alert>)
    ensures |r| == StockBands.Count(meds, StockBands.OutOfStock)
    ensures forall k :: 0 <= k < |r| ==> r[k].stock == 0 && r[k].status == "Out Of Stock" && r[k].isCritical
    ensures forall k :: 0 <= k < |r| ==> BuiltFrom(r[k], meds, StockBands.OutOfStock, OutAlert)
    ensures forall m :: m in meds && StockBands.OutOfStock(m) ==> OutAlert(m) in r
  {
    var zero := Lists.Filter(meds, StockBands.OutOfStock);
    assert forall k :: 0 <= k < |zero| ==> zero[k].totalStock == 0 by {
      assert forall k :: 0 <= k < |zero| ==> zero[k] in zero;
    }
    var r := AlertsOf(zero, OutAlert);
    AlertsFromBand(meds, StockBands.OutOfStock, OutAlert, zero, r);
    r
  }

  /**
   * The out-of-stock list keeps the medicines' list order: a medicine added at
   * the end of the list adds its alert, if any, at the end.
   */
  lemma OutOfStockAlertsAppend(meds: seq<MedicineView>, m: MedicineView)
    ensures OutOfStockAlerts(meds + [m]) == OutOfStockAlerts(meds) + (if m.totalStock == 0 then [OutAlert(m)] else [])
  {
    Lists.FilterAppend(meds, [m], StockBands.OutOfStock);
    assert Lists.Filter([m], StockBands.OutOfStock) == if m.totalStock == 0 then [m] else [] by {
      assert [m][1..] == [];
    }
  }

  /** The low-stock card lists only alerts above 25. */
  function ShownLowAlerts(alerts: seq<Alert>): (r: seq<Alert>)
    ensures forall a :: a in r <==> a in alerts && a.stock > 25
  {
    Lists.Filter(alerts, (a: Alert) => a.stock > 25)
  }

  /** So a medicine with exactly 25 units is counted as low stock but never listed. */
  lemma ShownLowDropsExactly25(meds: seq<MedicineView>, a: Alert)
    requires a in LowStockAlerts(meds)
    ensures a !in ShownLowAlerts(LowStockAlerts(meds)) <==> a.stock == 25
  {
  }

  // ------------------------------------------------------------ top sellers

  datatype Sale = Sale(medicineId: int, name: string, quantity: int)

  /** A line is tallied when its batch names a medicine id and a medicine name (both truthy). */
  predicate Counted(x: ReceiptItemView)
  {
    x.batch.Some? && x.batch.value.medicineId.Some? && x.batch.value.medicineId.value != 0
    && x.batch.value.medicineName.Some? && x.batch.value.medicineName.value != ""
  }

  function IdOf(x: ReceiptItemView): int
    requires Counted(x)
  {
    x.batch.value.medicineId.value
  }

  /** Every line of the receipts, receipt after receipt. */
  function Lines(rs: seq<ReceiptView>): seq<ReceiptItemView>
  {
    if rs == [] then [] else Lines(rs[..|rs| - 1]) + rs[|rs| - 1].items
  }

  /** The units of medicine `id` on the tallied lines. */
  function Sold(xs: seq<ReceiptItemView>, id: int): int
  {
    if xs == [] then 0
    else
      var x := xs[|xs| - 1];
      Sold(xs[..|xs| - 1], id) + (if Counted(x) && IdOf(x) == id then x.quantity else 0)
  }

  /** The medicine ids of the tallied lines, each once, in order of first appearance. */
  function Seen(xs: seq<ReceiptItemView>): seq<int>
  {
    if xs == [] then []
    else
      var x := xs[|xs| - 1];
      var before := Seen(xs[..|xs| - 1]);
      if Counted(x) && IdOf(x) !in before then before + [IdOf(x)] else before
  }

  /** The medicine name on the first tallied line of `id`. */
  function FirstName(xs: seq<ReceiptItemView>, id: int): string
  {
    if xs == [] then ""
    else
      var x := xs[|xs| - 1];
      if id in Seen(xs[..|xs| - 1]) then FirstName(xs[..|xs| - 1], id)
      else if Counted(x) && IdOf(x) == id then x.batch.value.medicineName.value
      else ""
  }

  /** `Array.from(medicineSales.values())`: one sale per medicine, in order of first appearance. */
  function SalesTable(xs: seq<ReceiptItemView>): (r: seq<Sale>)
    ensures |r| == |Seen(xs)|
    ensures forall k :: 0 <= k < |r| ==> r[k] == Sale(Seen(xs)[k], FirstName(xs, Seen(xs)[k]), Sold(xs, Seen(xs)[k]))
  {
    var ids := Seen(xs);
    seq(|ids|, k requires 0 <= k < |ids| => Sale(ids[k], FirstName(xs, ids[k]), Sold(xs, ids[k])))
  }

  /** An id appears among the sales exactly when some tallied line names it, and at most once. */
  lemma {:induction false} SeenExactly(xs: seq<ReceiptItemView>)
    ensures Lists.Distinct(Seen(xs))
    ensures forall id :: id in Seen(xs) <==> exists k :: 0 <= k < |xs| && Counted(xs[k]) && IdOf(xs[k]) == id
  {
    if xs != [] {
      var p := xs[..|xs| - 1];
      SeenExactly(p);
      forall id
        ensures id in Seen(xs) <==> exists k :: 0 <= k < |xs| && Counted(xs[k]) && IdOf(xs[k]) == id
      {
        if id in Seen(p) {
          var k :| 0 <= k < |p| && Counted(p[k]) && IdOf(p[k]) == id;
          assert xs[k] == p[k];
        }
        if exists k :: 0 <= k < |xs| && Counted(xs[k]) && IdOf(xs[k]) == id {
          var k :| 0 <= k < |xs| && Counted(xs[k]) && IdOf(xs[k]) == id;
          if k < |p| {
            assert p[k] == xs[k];
          }
        }
      }
    }
  }

  /** A medicine no tallied line names has sold nothing. */
  lemma {:induction false} UnseenSoldNothing(xs: seq<ReceiptItemView>, id: int)
    requires id !in Seen(xs)
    ensures Sold(xs, id) == 0
  {
    if xs != [] {
      UnseenSoldNothing(xs[..|xs| - 1], id);
    }
  }

  /** The map and the insertion order of the loop describe the sales of the lines `xs`. */
  ghost predicate Tally(xs: seq<ReceiptItemView>, m: map<int, Sale>, order: seq<int>)
  {
    order == Seen(xs)
    && (forall id :: id in m <==> id in order)
    && (forall id :: id in m ==> m[id] == Sale(id, FirstName(xs, id), Sold(xs, id)))
  }

  lemma TallyStep(xs: seq<ReceiptItemView>, x: ReceiptItemView, m: map<int, Sale>, order: seq<int>)
    requires Tally(xs, m, order)
    ensures Counted(x) ==>
      var id := IdOf(x);
      var cur := if id in m then m[id] else Sale(id, x.batch.value.medicineName.value, 0);
      Tally(xs + [x], m[id := cur.(quantity := cur.quantity + x.quantity)], if id in m then order else order + [id])
    ensures !Counted(x) ==> Tally(xs + [x], m, order)
  {
    var ys := xs + [x];
    assert ys[..|xs|] == xs;
    if Counted(x) && IdOf(x) !in m {
      UnseenSoldNothing(xs, IdOf(x));
    }
  }

  /** One line of the inner `forEach`: a tallied line adds its units to its medicine's entry, made on first sight. */
  method TallyLine(ghost xs: seq<ReceiptItemView>, x: ReceiptItemView, m0: map<int, Sale>, order0: seq<int>)
    returns (m: map<int, Sale>, order: seq<int>)
    requires Tally(xs, m0, order0)
    ensures Tally(xs + [x], m, order)
  {
    TallyStep(xs, x, m0, order0);
    m, order := m0, order0;
    if Counted(x) {
      var id := x.batch.value.medicineId.value;
      var cur := if id in m then m[id] else Sale(id, x.batch.value.medicineName.value, 0);
      if id !in m {
        order := order + [id];
      }
      m := m[id := cur.(quantity := cur.quantity + x.quantity)];
    }
  }

  /** The inner `forEach`: one receipt's lines added to the tally. */
  method TallyLines(ghost xs: seq<ReceiptItemView>, items: seq<ReceiptItemView>, m0: map<int, Sale>, order0: seq<int>)
    returns (m: map<int, Sale>, order: seq<int>)
    requires Tally(xs, m0, order0)
    ensures Tally(xs + items, m, order)
  {
    m, order := m0, order0;
    assert xs + items[..0] == xs;
    for j := 0 to |items|
      invariant Tally(xs + items[..j], m, order)
    {
      m, order := TallyLine(xs + items[..j], items[j], m, order);
      assert xs + items[..j + 1] == xs + items[..j] + [items[j]];
    }
    assert items[..|items|] == items;
  }

  /** `Array.from(medicineSales.values())`, given the insertion order of the keys. */
  method Values(m: map<int, Sale>, order: seq<int>) returns (sales: seq<Sale>)
    requires forall t :: 0 <= t < |order| ==> order[t] in m
    ensures |sales| == |order|
    ensures forall t :: 0 <= t < |order| ==> sales[t] == m[order[t]]
  {
    sales := [];
    for k := 0 to |order|
      invariant |sales| == k
      invariant forall t :: 0 <= t < k ==> sales[t] == m[order[t]]
    {
      sales := sales + [m[order[k]]];
    }
  }

  /** A tally of all the lines, read off in insertion order, is the sales table. */
  lemma TallyIsTable(xs: seq<ReceiptItemView>, m: map<int, Sale>, order: seq<int>)
    requires Tally(xs, m, order)
    ensures forall t :: 0 <= t < |order| ==> order[t] in m
    ensures |order| == |SalesTable(xs)|
    ensures forall t :: 0 <= t < |order| ==> SalesTable(xs)[t] == m[order[t]]
  {
    forall t | 0 <= t < |order|
      ensures order[t] in m
    {
      var id := order[t];
      assert id in order;
      assert id in m <==> id in order;
    }
  }

  /** The nested `forEach` over the receipts and their lines, filling `medicineSales`. */
  method TopSelling(receipts: seq<ReceiptView>) returns (sales: seq<Sale>)
    ensures sales == SalesTable(Lines(receipts))
  {
    var m: map<int, Sale> := map[];
    var order: seq<int> := [];
    for i := 0 to |receipts|
      invariant Tally(Lines(receipts[..i]), m, order)
    {
      assert receipts[..i + 1][..i] == receipts[..i];
      m, order := TallyLines(Lines(receipts[..i]), receipts[i].items, m, order);
    }
    assert receipts[..|receipts|] == receipts;
    TallyIsTable(Lines(receipts), m, order);
    sales := Values(m, order);
  }

  predicate MoreSold(a: Sale, b: Sale) { a.quantity >= b.quantity }

  lemma MoreSoldTotalPreorder()
    ensures Sorting.TotalPreorder(MoreSold)
  {
  }

  /**
   * The "quantity" tab: best sellers first, ten of them when there are more;
   * every seller left out sold no more than any seller shown.
   */
  function TopByQuantity(sales: seq<Sale>): (r: seq<Sale>)
    ensures |r| == if |sales| <= 10 then |sales| else 10
    ensures forall i, j :: 0 <= i < j < |r| ==> r[i].quantity >= r[j].quantity
    ensures multiset(r) <= multiset(sales)
    ensures |sales| <= 10 ==> multiset(r) == multiset(sales)
    ensures forall s, t :: s in r && t in multiset(sales) - multiset(r) ==> s.quantity >= t.quantity
  {
    MoreSoldTotalPreorder();
    var sorted := Sorting.SortBy(sales, MoreSold);
    Sorting.SortByLength(sales, MoreSold);
    var n := if |sorted| <= 10 then |sorted| else 10;
    Sorting.PrefixSorted(sorted, MoreSold, n);
    PrefixOutsellsRest(sorted, n);
    assert multiset(sales) - multiset(sorted[..n]) == multiset(sorted[n..]);
    sorted[..n]
  }

  /** In a list sorted best seller first, the first `n` outsell the rest. */
  lemma PrefixOutsellsRest(sorted: seq<Sale>, n: nat)
    requires Sorting.SortedBy(sorted, MoreSold) && n <= |sorted|
    ensures multiset(sorted) == multiset(sorted[..n]) + multiset(sorted[n..])
    ensures forall s, t :: s in sorted[..n] && t in multiset(sorted[n..]) ==> s.quantity >= t.quantity
  {
    assert sorted == sorted[..n] + sorted[n..];
    forall s, t | s in sorted[..n] && t in multiset(sorted[n..])
      ensures s.quantity >= t.quantity
    {
      var i :| 0 <= i < n && sorted[i] == s;
      assert t in sorted[n..];
      var j :| 0 <= j < |sorted[n..]| && sorted[n..][j] == t;
      assert sorted[n + j] == t;
      assert MoreSold(sorted[i], sorted[n + j]);
    }
  }
}
