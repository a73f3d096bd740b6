/**
 * The dispense page: which medicines it lists, the cart totals, the
 * quantity typed into a cart line, and the request it sends to complete a
 * dispense.
 */
module DispensePage {
  import opened Wrappers
  import opened Views
  import Lists
  import QuantityLimits
  import DispenseStore
  import DispenseService

  /** A medicine as the page receives it, with its batches when loaded. */
  datatype ListedMedicine = ListedMedicine(medicine: MedicineView, batches: Option<seq<BatchView>>)

  function Quantity(b: BatchView): int { b.quantity }

  /** A batch whose expiry instant is at or after `now`; an unreadable date never is. */
  predicate NotExpired(b: BatchView, now: int) { b.expiry.Some? && b.expiry.value.ms >= now }

  /** The batches that have not expired, in order. */
  function Live(bs: seq<BatchView>, now: int): (r: seq<BatchView>)
    ensures forall b :: b in r <==> b in bs && NotExpired(b, now)
    ensures (forall k :: 0 <= k < |bs| ==> !NotExpired(bs[k], now)) ==> r == []
  {
    var live := (b: BatchView) => NotExpired(b, now);
    if forall k :: 0 <= k < |bs| ==> !NotExpired(bs[k], now) then
      Lists.FilterNone(bs, live);
      Lists.Filter(bs, live)
    else Lists.Filter(bs, live)
  }

  /** The units in the medicine's batches that have not expired. */
  function NonExpiredStock(m: ListedMedicine, now: int): (r: int)
    ensures m.batches.None? ==> r == 0
    ensures m.batches.Some? ==> r == Lists.Sum(Live(m.batches.value, now), Quantity)
  {
    if m.batches.None? then 0 else Lists.Sum(Live(m.batches.value, now), Quantity)
  }

  /** `filteredData`: the medicines that can still be dispensed. */
  function Dispensable(meds: seq<ListedMedicine>, now: int): (r: seq<ListedMedicine>)
    ensures forall m :: m in r <==> m in meds && NonExpiredStock(m, now) > 0
    ensures |r| <= |meds|
  {
    Lists.Filter(meds, m => NonExpiredStock(m, now) > 0)
  }

  /** A medicine without batches, or whose batches have all expired, is not listed. */
  lemma NothingLeftNotListed(m: ListedMedicine, meds: seq<ListedMedicine>, now: int)
    requires m.batches.None? || forall k :: 0 <= k < |m.batches.value| ==> !NotExpired(m.batches.value[k], now)
    ensures m !in Dispensable(meds, now)
  {
  }

  /** Non-negative quantities: listed exactly when some batch is unexpired and not empty. */
  lemma ListedIffSomeStock(m: ListedMedicine, now: int)
    requires m.batches.Some?
    requires forall k :: 0 <= k < |m.batches.value| ==> m.batches.value[k].quantity >= 0
    ensures NonExpiredStock(m, now) > 0 <==>
      exists k :: 0 <= k < |m.batches.value| && NotExpired(m.batches.value[k], now) && m.batches.value[k].quantity > 0
  {
    var bs := m.batches.value;
    var live := Live(bs, now);
    assert forall k :: 0 <= k < |live| ==> live[k] in bs by {
      assert forall k :: 0 <= k < |live| ==> live[k] in live;
    }
    forall k | 0 <= k < |live|
      ensures live[k].quantity >= 0
    {
      var j :| 0 <= j < |bs| && bs[j] == live[k];
    }
    Lists.SumNonNegative(live, Quantity);
    if exists k :: 0 <= k < |bs| && NotExpired(bs[k], now) && bs[k].quantity > 0 {
      var k :| 0 <= k < |bs| && NotExpired(bs[k], now) && bs[k].quantity > 0;
      assert bs[k] in live;
      var j :| 0 <= j < |live| && live[j] == bs[k];
    }
    if NonExpiredStock(m, now) > 0 {
      var j :| 0 <= j < |live| && Quantity(live[j]) != 0;
      var k :| 0 <= k < |bs| && bs[k] == live[j];
    }
  }

  // ----------------------------------------------------------------- totals

  function ItemQuantity(item: DispenseStore.CartItem): int { item.quantity }

  datatype Totals = Totals(totalItems: nat, totalQuantity: int)

  /** The cart summary: the number of lines and the units over all of them. */
  function TotalsOf(items: seq<DispenseStore.CartItem>): (r: Totals)
    ensures r.totalItems == |items|
    ensures r.totalQuantity == Lists.Sum(items, ItemQuantity)
    ensures items == [] ==> r == Totals(0, 0)
  {
    Totals(|items|, Lists.Sum(items, ItemQuantity))
  }

  /** Adding a medicine not yet in the cart adds one line of one unit. */
  lemma AddNewTotals(items: seq<DispenseStore.CartItem>, p: DispenseStore.Pick)
    requires p.id !in DispenseStore.Ids(items)
    ensures TotalsOf(DispenseStore.Added(items, p)) == Totals(|items| + 1, TotalsOf(items).totalQuantity + 1)
  {
    Lists.SumAppend(items, [DispenseStore.NewItem(p)], ItemQuantity);
  }

  /** Adding a medicine already in the cart keeps the number of lines. */
  lemma AddAgainTotals(items: seq<DispenseStore.CartItem>, p: DispenseStore.Pick)
    requires p.id in DispenseStore.Ids(items)
    ensures TotalsOf(DispenseStore.Added(items, p)).totalItems == |items|
  {
  }

  // ------------------------------------------------------------ quantities

  /** The quantity box: 0 or a value that is not a number (`None`) reads as 1, then `[1, stock]`. */
  function TypedQuantity(input: Option<int>, totalStock: Option<int>): (r: int)
    ensures r >= 1
    ensures totalStock.Some? && totalStock.value >= 1 ==> r <= totalStock.value
    ensures input.Some? && input.value != 0 ==> r == QuantityLimits.Clamp(input.value, totalStock)
    ensures (input.None? || input.value == 0) ==> r == QuantityLimits.Clamp(1, totalStock)
  {
    var raw := if input.Some? && input.value != 0 then input.value else 1;
    QuantityLimits.Clamp(raw, totalStock)
  }

  /** What the box computes is what the cart stores: the store's own clamp leaves it as it is. */
  lemma TypedQuantityStored(items: seq<DispenseStore.CartItem>, k: nat, input: Option<int>)
    requires k < |items|
    ensures DispenseStore.WithQuantity(items, items[k].pick.id, TypedQuantity(input, items[k].pick.totalStock))[k].quantity
         == TypedQuantity(input, items[k].pick.totalStock)
  {
    var raw := if input.Some? && input.value != 0 then input.value else 1;
    QuantityLimits.ClampIdempotent(raw, items[k].pick.totalStock);
  }

  // ---------------------------------------------------------- completing

  /** The request body: the patient's name and one (medicine, quantity) pair per cart line. */
  datatype Payload = Payload(patientName: string, items: seq<DispenseService.DispenseItem>)

  function RequestItem(item: DispenseStore.CartItem): DispenseService.DispenseItem
  {
    DispenseService.DispenseItem(item.pick.id, item.quantity)
  }

  /** `handleCompleteDispense`: nothing for an empty cart; an empty name becomes the walk-in customer. */
  function CompleteRequest(patientName: string, items: seq<DispenseStore.CartItem>): (r: Option<Payload>)
    ensures items == [] <==> r.None?
    ensures r.Some? ==> r.value.patientName == (if patientName == "" then DispenseService.WalkInCustomer else patientName)
    ensures r.Some? ==> r.value.patientName != ""
    ensures r.Some? ==> |r.value.items| == |items|
    ensures r.Some? ==> forall k :: 0 <= k < |items| ==>
      r.value.items[k].medicineId == items[k].pick.id && r.value.items[k].quantity == items[k].quantity
  {
    if items == [] then None
    else
      Some(Payload(if patientName == "" then DispenseService.WalkInCustomer else patientName,
                   seq(|items|, k requires 0 <= k < |items| => RequestItem(items[k]))))
  }

  /** The request's units are the cart's total, so the receipt's item count equals it. */
  lemma RequestCarriesTotal(patientName: string, items: seq<DispenseStore.CartItem>)
    requires items != []
    ensures Lists.Sum(CompleteRequest(patientName, items).value.items, DispenseService.Quantity) == TotalsOf(items).totalQuantity
  {
    SumMapped(CompleteRequest(patientName, items).value.items, items);
  }

  lemma {:induction false} SumMapped(xs: seq<DispenseService.DispenseItem>, items: seq<DispenseStore.CartItem>)
    requires |xs| == |items|
    requires forall k :: 0 <= k < |items| ==> xs[k].quantity == items[k].quantity
    ensures Lists.Sum(xs, DispenseService.Quantity) == Lists.Sum(items, ItemQuantity)
  {
    if xs != [] {
      SumMapped(xs[1..], items[1..]);
    }
  }

  /** The page's own state around the cart store. */
  class Page {
    var search: string
    var patientName: string
    var completedReceipt: Option<int>
    var showReceiptModal: bool
    const cart: DispenseStore.Cart

    constructor (cart: DispenseStore.Cart)
      ensures this.cart == cart
      ensures search == "" && patientName == "" && completedReceipt.None? && !showReceiptModal
    {
      this.cart := cart;
      search, patientName, completedReceipt, showReceiptModal := "", "", None, false;
    }

    /** `handleAddMedicine`: the medicine goes to the cart and the search is cleared. */
    method AddMedicine(p: DispenseStore.Pick)
      requires cart.Valid()
      modifies this, cart
      ensures cart.Valid() && cart.selectedItems == DispenseStore.Added(old(cart.selectedItems), p)
      ensures search == ""
      ensures patientName == old(patientName) && completedReceipt == old(completedReceipt) && showReceiptModal == old(showReceiptModal)
    {
      cart.AddItem(p);
      search := "";
    }

    /** A successful dispense: the receipt is shown and the cart emptied. */
    method DispenseSucceeded(receiptId: int)
      modifies this, cart
      ensures cart.Valid() && cart.selectedItems == []
      ensures completedReceipt == Some(receiptId) && showReceiptModal
      ensures search == old(search) && patientName == old(patientName)
    {
      completedReceipt := Some(receiptId);
      showReceiptModal := true;
      cart.ResetItems();
    }
  }
}
