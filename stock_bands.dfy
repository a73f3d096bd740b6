/**
 * The stock bands the dashboard and the inventory page count: critical
 * (1..24), low (25..99) and out of stock (0), and the total stock.
 */
module StockBands {
  import Lists
  import opened Views

  predicate Critical(m: MedicineView) { 1 <= m.totalStock < 25 }
  predicate Low(m: MedicineView) { 25 <= m.totalStock < 100 }
  predicate OutOfStock(m: MedicineView) { m.totalStock == 0 }
  /** Stock of 100 and more, or a negative stock: counted in no band. */
  predicate Unbanded(m: MedicineView) { m.totalStock >= 100 || m.totalStock < 0 }

  /** `medicines.filter(band).length`. */
  function Count(meds: seq<MedicineView>, band: MedicineView -> bool): (r: nat)
    ensures r <= |meds|
  {
    |Lists.Filter(meds, band)|
  }

  function Stock(m: MedicineView): int { m.totalStock }

  /** `medicines.reduce((sum, med) => sum + med.totalStock, 0)`. */
  function TotalStock(meds: seq<MedicineView>): (r: int)
    ensures meds == [] ==> r == 0
    ensures (forall k :: 0 <= k < |meds| ==> meds[k].totalStock >= 0) ==> r >= 0
  {
    if forall k :: 0 <= k < |meds| ==> meds[k].totalStock >= 0 then
      Lists.SumNonNegative(meds, Stock);
      Lists.Sum(meds, Stock)
    else Lists.Sum(meds, Stock)
  }

  function Member(b: bool): nat { if b then 1 else 0 }

  /** Every medicine is in exactly one of the three bands or in none. */
  lemma BandsDisjoint(m: MedicineView)
    ensures Member(Critical(m)) + Member(Low(m)) + Member(OutOfStock(m)) + Member(Unbanded(m)) == 1
  {
  }

  /** So the three counts and the unbanded ones add up to the number of medicines. */
  lemma {:induction false} CountsAddUp(meds: seq<MedicineView>)
    ensures Count(meds, Critical) + Count(meds, Low) + Count(meds, OutOfStock) + Count(meds, Unbanded) == |meds|
  {
    if meds != [] {
      CountsAddUp(meds[1..]);
      BandsDisjoint(meds[0]);
    }
  }
}
