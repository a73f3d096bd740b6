/**
 * The view-batches modal (`ViewBatchesModal`): every batch fetched is narrowed
 * to the viewed medicine, then to the expired or the unexpired ones.
 */
module ViewBatchesModal {
  import opened Wrappers
  import opened Views
  import InventoryUI

  /** `props.showExpired ?? payload?.showExpired ?? false`. */
  function ShowExpired(prop: Option<bool>, payload: Option<InventoryUI.ViewBatchesPayload>): (r: bool)
    ensures prop.Some? ==> r == prop.value
    ensures prop.None? && payload.Some? && payload.value.showExpired.Some? ==> r == payload.value.showExpired.value
    ensures r ==> prop == Some(true) || (prop.None? && payload.Some? && payload.value.showExpired == Some(true))
  {
    if prop.Some? then prop.value
    else if payload.Some? && payload.value.showExpired.Some? then payload.value.showExpired.value
    else false
  }

  /** The batches of the viewed medicine; with no medicine, none. */
  function ForMedicine(data: seq<BatchView>, medicine: Option<MedicineView>): (r: seq<BatchView>)
    ensures |r| <= |data|
    ensures forall b :: b in r <==> b in data && medicine.Some? && b.medicineId == medicine.value.id
  {
    if data == [] then []
    else
      var rest := ForMedicine(data[1..], medicine);
      if medicine.Some? && data[0].medicineId == medicine.value.id then [data[0]] + rest else rest
  }

  /** Whether the modal shows a batch: expiry before `now` in expired mode, at or after it otherwise. */
  predicate Listed(b: BatchView, showExpired: bool, now: int)
  {
    b.expiry.Some? && (if showExpired then b.expiry.value.ms < now else b.expiry.value.ms >= now)
  }

  /** `getFilteredBatches`. */
  function Filtered(batches: seq<BatchView>, showExpired: bool, now: int): (r: seq<BatchView>)
    ensures |r| <= |batches|
    ensures forall b :: b in r <==> b in batches && Listed(b, showExpired, now)
  {
    if batches == [] then []
    else
      var rest := Filtered(batches[1..], showExpired, now);
      if Listed(batches[0], showExpired, now) then [batches[0]] + rest else rest
  }

  /** The batches with a readable expiry date. */
  function Dated(batches: seq<BatchView>): (r: seq<BatchView>)
    ensures forall b :: b in r <==> b in batches && b.expiry.Some?
  {
    if batches == [] then []
    else
      var rest := Dated(batches[1..]);
      if batches[0].expiry.Some? then [batches[0]] + rest else rest
  }

  /**
   * The two modes split the dated batches between them, each exactly once;
   * a batch whose expiry does not parse is in neither.
   */
  lemma {:induction false} ModesPartition(batches: seq<BatchView>, now: int)
    ensures multiset(Filtered(batches, true, now)) + multiset(Filtered(batches, false, now)) == multiset(Dated(batches))
    ensures forall b :: !(b in Filtered(batches, true, now) && b in Filtered(batches, false, now))
  {
    if batches != [] {
      ModesPartition(batches[1..], now);
    }
  }

  /** The body of the modal. */
  datatype Body = Loading | NoBatches | Rows(batches: seq<BatchView>)

  function BodyOf(loading: bool, data: seq<BatchView>, medicine: Option<MedicineView>, showExpired: bool, now: int): (r: Body)
    ensures loading <==> r == Loading
    ensures r == NoBatches <==> !loading && ForMedicine(data, medicine) == []
    ensures r.Rows? ==> r.batches == Filtered(ForMedicine(data, medicine), showExpired, now)
  {
    var batches := ForMedicine(data, medicine);
    if loading then Loading
    else if batches == [] then NoBatches
    else Rows(Filtered(batches, showExpired, now))
  }

  /**
   * "No batches found" depends only on the medicine having batches: a medicine
   * whose batches are all on the other side of the filter gets an empty list
   * instead, in whichever mode shows none of them.
   */
  lemma EmptyListWithoutMessage(b: BatchView, medicine: MedicineView, now: int)
    requires b.medicineId == medicine.id && b.expiry.Some?
    ensures var showExpired := b.expiry.value.ms >= now;
      BodyOf(false, [b], Some(medicine), showExpired, now) == Rows([])
  {
    assert ForMedicine([b], Some(medicine)) == [b];
  }
}
