/**
 * The inventory page's modal state (`useInventoryUI`): for each modal an
 * open flag and the payload it shows, the search text, the selected row
 * and the flag that asks the medicine list to refetch.
 */
module InventoryUI {
  import opened Wrappers
  import opened Views

  /** `ViewBatchesPayload`; `batches` is `None` when it is not an array. */
  datatype ViewBatchesPayload = ViewBatchesPayload(medicine: MedicineView, batches: Option<seq<BatchView>>, showExpired: Option<bool>)

  /** `EditBatchPayload`. */
  datatype EditBatchPayload = EditBatchPayload(medicine: Option<MedicineView>, batch: BatchView)

  /** `AdjustStockPayload`. */
  datatype AdjustStockPayload = AdjustStockPayload(medicine: MedicineView, batch: Option<BatchView>)

  /** `UpdateMedicineBatchPayload`: the fields a batch update carries; `None` is an absent key. */
  datatype BatchPatch = BatchPatch(batchNumber: Option<string>, quantity: Option<int>, expiry: Option<Option<Stamp>>)

  /** `Partial<Medicine>`: `None` is an absent key. */
  datatype MedicinePatch = MedicinePatch(
    id: Option<int>, name: Option<string>, genericName: Option<string>, categoryId: Option<Option<int>>,
    unitId: Option<Option<int>>, price: Option<int>, supplier: Option<string>, imageUrl: Option<Option<string>>,
    totalStock: Option<int>, nearestExpired: Option<Option<Stamp>>, isActive: Option<bool>)

  /** The whole store, so that an action can be said to change only its own fields. */
  datatype UIState = UIState(
    search: string, selectedId: Option<int>,
    viewBatchesOpen: bool, viewBatchesPayload: Option<ViewBatchesPayload>,
    editMedicineOpen: bool, editMedicinePayload: Option<MedicineView>,
    editBatchOpen: bool, editBatchPayload: Option<EditBatchPayload>,
    adjustStockOpen: bool, adjustStockPayload: Option<AdjustStockPayload>,
    deleteMedicineOpen: bool, deleteMedicineId: Option<int>,
    shouldRefetchMedicines: bool)

  /** Every modal is open exactly when it holds a payload. */
  predicate Paired(s: UIState)
  {
    && (s.viewBatchesOpen <==> s.viewBatchesPayload.Some?)
    && (s.editMedicineOpen <==> s.editMedicinePayload.Some?)
    && (s.editBatchOpen <==> s.editBatchPayload.Some?)
    && (s.adjustStockOpen <==> s.adjustStockPayload.Some?)
    && (s.deleteMedicineOpen <==> s.deleteMedicineId.Some?)
  }

  function Pick<T>(patched: Option<T>, current: T): (r: T)
    ensures patched.Some? ==> r == patched.value
    ensures patched.None? ==> r == current
  {
    if patched.Some? then patched.value else current
  }

  /** A batch the update is about: both batch numbers are non-empty and equal. */
  predicate Matches(b: BatchView, p: BatchPatch)
  {
    b.batchNumber != "" && p.batchNumber.Some? && p.batchNumber.value != "" && b.batchNumber == p.batchNumber.value
  }

  /** `{ ...b, ...updated }`: the keys the update carries replace the batch's. */
  function MergeBatch(b: BatchView, p: BatchPatch): (r: BatchView)
    ensures r.id == b.id && r.medicineName == b.medicineName && r.medicineId == b.medicineId
    ensures p.batchNumber.Some? ==> r.batchNumber == p.batchNumber.value
    ensures p.batchNumber.None? ==> r.batchNumber == b.batchNumber
    ensures p.quantity.Some? ==> r.quantity == p.quantity.value
    ensures p.quantity.None? ==> r.quantity == b.quantity
    ensures p.expiry.Some? ==> r.expiry == p.expiry.value
    ensures p.expiry.None? ==> r.expiry == b.expiry
  {
    b.(batchNumber := Pick(p.batchNumber, b.batchNumber),
       quantity := Pick(p.quantity, b.quantity),
       expiry := Pick(p.expiry, b.expiry))
  }

  /** A merged batch still matches the update, and merging it again changes nothing. */
  lemma MergeBatchIdempotent(b: BatchView, p: BatchPatch)
    ensures Matches(b, p) ==> Matches(MergeBatch(b, p), p)
    ensures MergeBatch(MergeBatch(b, p), p) == MergeBatch(b, p)
  {
  }

  /** The `map` of `updateBatchInView`: count and order kept, only matching batches merged. */
  function MergeBatches(bs: seq<BatchView>, p: BatchPatch): (r: seq<BatchView>)
    ensures |r| == |bs|
    ensures forall k :: 0 <= k < |bs| ==> r[k] == if Matches(bs[k], p) then MergeBatch(bs[k], p) else bs[k]
    ensures forall k :: 0 <= k < |bs| ==> r[k].id == bs[k].id
  {
    if bs == [] then [] else [if Matches(bs[0], p) then MergeBatch(bs[0], p) else bs[0]] + MergeBatches(bs[1..], p)
  }

  /** An update without a batch number touches no batch. */
  lemma NoNumberNoChange(bs: seq<BatchView>, p: BatchPatch)
    requires p.batchNumber.None? || p.batchNumber == Some("")
    ensures MergeBatches(bs, p) == bs
  {
  }

  /** Replaying the same update leaves the view as the first one left it. */
  lemma MergeBatchesIdempotent(bs: seq<BatchView>, p: BatchPatch)
    ensures MergeBatches(MergeBatches(bs, p), p) == MergeBatches(bs, p)
  {
    var once := MergeBatches(bs, p);
    forall k | 0 <= k < |bs|
      ensures MergeBatches(once, p)[k] == once[k]
    {
      MergeBatchIdempotent(bs[k], p);
    }
  }

  /** `updateBatchInView` on the payload: nothing without a payload or a batch array; the medicine stays. */
  function BatchInView(v: Option<ViewBatchesPayload>, p: BatchPatch): (r: Option<ViewBatchesPayload>)
    ensures v.None? || v.value.batches.None? ==> r == v
    ensures v.Some? && v.value.batches.Some? ==>
      r == Some(v.value.(batches := Some(MergeBatches(v.value.batches.value, p))))
    ensures r.Some? <==> v.Some?
    ensures r.Some? ==> r.value.medicine == v.value.medicine && r.value.showExpired == v.value.showExpired
  {
    if v.None? || v.value.batches.None? then v
    else Some(v.value.(batches := Some(MergeBatches(v.value.batches.value, p))))
  }

  /**
   * `{ ...payload.medicine, ...updatedMedicine }`: every field the patch
   * carries replaces the medicine's, every other field stays.
   */
  function MergeMedicine(m: MedicineView, p: MedicinePatch): (r: MedicineView)
    ensures r.id == if p.id.Some? then p.id.value else m.id
    ensures r.name == if p.name.Some? then p.name.value else m.name
    ensures r.genericName == if p.genericName.Some? then p.genericName.value else m.genericName
    ensures r.categoryId == if p.categoryId.Some? then p.categoryId.value else m.categoryId
    ensures r.unitId == if p.unitId.Some? then p.unitId.value else m.unitId
    ensures r.price == if p.price.Some? then p.price.value else m.price
    ensures r.supplier == if p.supplier.Some? then p.supplier.value else m.supplier
    ensures r.imageUrl == if p.imageUrl.Some? then p.imageUrl.value else m.imageUrl
    ensures r.totalStock == if p.totalStock.Some? then p.totalStock.value else m.totalStock
    ensures r.nearestExpired == if p.nearestExpired.Some? then p.nearestExpired.value else m.nearestExpired
    ensures r.isActive == if p.isActive.Some? then p.isActive.value else m.isActive
    ensures p == MedicinePatch(None, None, None, None, None, None, None, None, None, None, None) ==> r == m
  {
    MedicineView(
      Pick(p.id, m.id), Pick(p.name, m.name), Pick(p.genericName, m.genericName), Pick(p.categoryId, m.categoryId),
      Pick(p.unitId, m.unitId), Pick(p.price, m.price), Pick(p.supplier, m.supplier), Pick(p.imageUrl, m.imageUrl),
      Pick(p.totalStock, m.totalStock), Pick(p.nearestExpired, m.nearestExpired), Pick(p.isActive, m.isActive))
  }

  /** Merging the same fields twice is merging them once. */
  lemma MergeMedicineIdempotent(m: MedicineView, p: MedicinePatch)
    ensures MergeMedicine(MergeMedicine(m, p), p) == MergeMedicine(m, p)
  {
  }

  /** `updateMedicineInView` on the payload: nothing without a payload; the batches stay. */
  function MedicineInView(v: Option<ViewBatchesPayload>, p: MedicinePatch): (r: Option<ViewBatchesPayload>)
    ensures v.None? ==> r.None?
    ensures v.Some? ==> r == Some(v.value.(medicine := MergeMedicine(v.value.medicine, p)))
    ensures r.Some? ==> r.value.batches == v.value.batches && r.value.showExpired == v.value.showExpired
  {
    if v.None? then None else Some(v.value.(medicine := MergeMedicine(v.value.medicine, p)))
  }

  class Store {
    var search: string
    var selectedId: Option<int>
    var viewBatchesOpen: bool
    var viewBatchesPayload: Option<ViewBatchesPayload>
    var editMedicineOpen: bool
    var editMedicinePayload: Option<MedicineView>
    var editBatchOpen: bool
    var editBatchPayload: Option<EditBatchPayload>
    var adjustStockOpen: bool
    var adjustStockPayload: Option<AdjustStockPayload>
    var deleteMedicineOpen: bool
    var deleteMedicineId: Option<int>
    var shouldRefetchMedicines: bool

    function State(): UIState
      reads this
    {
      UIState(search, selectedId, viewBatchesOpen, viewBatchesPayload, editMedicineOpen, editMedicinePayload,
              editBatchOpen, editBatchPayload, adjustStockOpen, adjustStockPayload, deleteMedicineOpen,
              deleteMedicineId, shouldRefetchMedicines)
    }

    predicate Valid()
      reads this
    {
      Paired(State())
    }

    constructor ()
      ensures Valid()
      ensures State() == UIState("", None, false, None, false, None, false, None, false, None, false, None, false)
    {
      search, selectedId := "", None;
      viewBatchesOpen, viewBatchesPayload := false, None;
      editMedicineOpen, editMedicinePayload := false, None;
      editBatchOpen, editBatchPayload := false, None;
      adjustStockOpen, adjustStockPayload := false, None;
      deleteMedicineOpen, deleteMedicineId := false, None;
      shouldRefetchMedicines := false;
    }

    method SetSearch(v: string)
      requires Valid()
      modifies this
      ensures Valid() && State() == old(State()).(search := v)
    {
      search := v;
    }

    method SetSelectedId(id: Option<int>)
      requires Valid()
      modifies this
      ensures Valid() && State() == old(State()).(selectedId := id)
    {
      selectedId := id;
    }

    method OpenViewBatches(p: ViewBatchesPayload)
      requires Valid()
      modifies this
      ensures Valid() && State() == old(State()).(viewBatchesOpen := true, viewBatchesPayload := Some(p))
    {
      viewBatchesOpen, viewBatchesPayload := true, Some(p);
    }

    method CloseViewBatches()
      requires Valid()
      modifies this
      ensures Valid() && State() == old(State()).(viewBatchesOpen := false, viewBatchesPayload := None)
    {
      viewBatchesOpen, viewBatchesPayload := false, None;
    }

    method OpenEditMedicine(m: MedicineView)
      requires Valid()
      modifies this
      ensures Valid() && State() == old(State()).(editMedicineOpen := true, editMedicinePayload := Some(m))
    {
      editMedicineOpen, editMedicinePayload := true, Some(m);
    }

    method CloseEditMedicine()
      requires Valid()
      modifies this
      ensures Valid() && State() == old(State()).(editMedicineOpen := false, editMedicinePayload := None)
    {
      editMedicineOpen, editMedicinePayload := false, None;
    }

    method OpenEditBatch(p: EditBatchPayload)
      requires Valid()
      modifies this
      ensures Valid() && State() == old(State()).(editBatchOpen := true, editBatchPayload := Some(p))
    {
      editBatchOpen, editBatchPayload := true, Some(p);
    }

    method CloseEditBatch()
      requires Valid()
      modifies this
      ensures Valid() && State() == old(State()).(editBatchOpen := false, editBatchPayload := None)
    {
      editBatchOpen, editBatchPayload := false, None;
    }

    /** `updateBatchInView`: only the viewed payload's batches change. */
    method UpdateBatchInView(p: BatchPatch)
      requires Valid()
      modifies this
      ensures Valid() && State() == old(State()).(viewBatchesPayload := BatchInView(old(viewBatchesPayload), p))
    {
      viewBatchesPayload := BatchInView(viewBatchesPayload, p);
    }

    /** `updateMedicineInView`: only the viewed payload's medicine changes. */
    method UpdateMedicineInView(p: MedicinePatch)
      requires Valid()
      modifies this
      ensures Valid() && State() == old(State()).(viewBatchesPayload := MedicineInView(old(viewBatchesPayload), p))
    {
      viewBatchesPayload := MedicineInView(viewBatchesPayload, p);
    }

    method OpenAdjustStock(p: AdjustStockPayload)
      requires Valid()
      modifies this
      ensures Valid() && State() == old(State()).(adjustStockOpen := true, adjustStockPayload := Some(p))
    {
      adjustStockOpen, adjustStockPayload := true, Some(p);
    }

    method CloseAdjustStock()
      requires Valid()
      modifies this
      ensures Valid() && State() == old(State()).(adjustStockOpen := false, adjustStockPayload := None)
    {
      adjustStockOpen, adjustStockPayload := false, None;
    }

    method OpenDeleteMedicine(id: int)
      requires Valid()
      modifies this
      ensures Valid() && State() == old(State()).(deleteMedicineOpen := true, deleteMedicineId := Some(id))
    {
      deleteMedicineOpen, deleteMedicineId := true, Some(id);
    }

    method CloseDeleteMedicine()
      requires Valid()
      modifies this
      ensures Valid() && State() == old(State()).(deleteMedicineOpen := false, deleteMedicineId := None)
    {
      deleteMedicineOpen, deleteMedicineId := false, None;
    }

    method TriggerRefetchMedicines()
      requires Valid()
      modifies this
      ensures Valid() && State() == old(State()).(shouldRefetchMedicines := true)
    {
      shouldRefetchMedicines := true;
    }

    method ResetRefetchMedicinesTrigger()
      requires Valid()
      modifies this
      ensures Valid() && State() == old(State()).(shouldRefetchMedicines := false)
    {
      shouldRefetchMedicines := false;
    }
  }
}
