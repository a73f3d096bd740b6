/**
 * The form that tops up an existing batch: the medicine and batch
 * choice, the additional-quantity box, and the update it sends.
 */
module AddToBatchForm {
  import opened Wrappers
  import opened Views
  import Text
  import Lists
  import BatchesService
  import AddBatchToMedicineForm

  /** The batches listed for the chosen medicine whose number contains the search, ignoring case. */
  function FilteredBatches(batches: seq<BatchView>, selected: Option<MedicineView>, search: string): (r: seq<BatchView>)
    ensures selected.None? ==> r == []
    ensures selected.Some? ==> forall b :: b in r <==>
      b in batches && b.medicineId == selected.value.id && Text.IncludesIgnoringCase(b.batchNumber, search)
  {
    if selected.None? then []
    else Lists.Filter(batches, (b: BatchView) => b.medicineId == selected.value.id && Text.IncludesIgnoringCase(b.batchNumber, search))
  }

  /** `k` is the first position in `bs` holding a batch with this id. */
  predicate FirstBatchAt(bs: seq<BatchView>, id: int, k: int)
  {
    0 <= k < |bs| && bs[k].id == id && forall j :: 0 <= j < k ==> bs[j].id != id
  }

  /** `filteredBatches.find(b => b.id === id)`, with `None` for `batch || null`. */
  function FindBatch(bs: seq<BatchView>, id: int): (r: Option<BatchView>)
    ensures r.None? <==> forall k :: 0 <= k < |bs| ==> bs[k].id != id
    ensures r.Some? ==> r.value.id == id && exists k :: FirstBatchAt(bs, id, k) && bs[k] == r.value
  {
    if bs == [] then None
    else if bs[0].id == id then
      assert FirstBatchAt(bs, id, 0);
      Some(bs[0])
    else
      var r := FindBatch(bs[1..], id);
      if r.Some? then
        var k :| FirstBatchAt(bs[1..], id, k) && bs[1..][k] == r.value;
        forall j | 0 <= j < k + 1
          ensures bs[j].id != id
        {
          if j > 0 { assert bs[j] == bs[1..][j - 1]; }
        }
        assert FirstBatchAt(bs, id, k + 1);
        r
      else
        assert forall k :: 0 <= k < |bs| ==> bs[k].id != id by {
          forall k | 0 <= k < |bs| ensures bs[k].id != id {
            if k > 0 { assert bs[k] == bs[1..][k - 1]; }
          }
        }
        r
  }

  /**
   * The additional-quantity box: `Math.max(0, parseInt(v) || 0)`, with
   * `None` for text that does not start with a number.
   */
  function AdditionalInput(parsed: Option<int>): (r: nat)
    ensures parsed.Some? && parsed.value >= 0 ==> r == parsed.value
    ensures parsed.None? || parsed.value < 0 ==> r == 0
  {
    if parsed.Some? && parsed.value > 0 then parsed.value else 0
  }

  /** `UpdateMedicineBatchPayload` with only a quantity. */
  datatype Update = Update(batchId: int, quantity: int)

  /**
   * `handleSubmit`: no batch or nothing to add is refused; otherwise the
   * batch's quantity plus the additional amount.
   */
  function SubmitUpdate(selected: Option<BatchView>, additional: int): (r: Option<Update>)
    ensures r.None? <==> selected.None? || additional <= 0
    ensures r.Some? ==> r.value.batchId == selected.value.id && r.value.quantity == selected.value.quantity + additional
    ensures r.Some? ==> r.value.quantity > selected.value.quantity
  {
    if selected.None? || additional <= 0 then None
    else Some(Update(selected.value.id, selected.value.quantity + additional))
  }

  /** The backend logs the top-up as an increase by exactly the amount added. */
  lemma TopUpLogsIncrease(selected: BatchView, additional: int, user: Option<int>)
    requires additional > 0
    ensures var u := SubmitUpdate(Some(selected), additional).value;
      var log := BatchesService.AdjustLog(u.batchId, selected.quantity, Some(u.quantity), user);
      log.Some? && log.value.action == BatchesService.IncreaseAction && log.value.quantityChange == additional
  {
  }

  class Form {
    var selectedMedicine: Option<MedicineView>
    var selectedBatch: Option<BatchView>
    var additional: int
    var searchTerm: string
    var medicineSearch: string

    constructor ()
      ensures selectedMedicine.None? && selectedBatch.None? && additional == 0 && searchTerm == "" && medicineSearch == ""
    {
      selectedMedicine, selectedBatch, additional, searchTerm, medicineSearch := None, None, 0, "", "";
    }

    /** `handleMedicineSelect`: the chosen batch and the batch search are reset. */
    method SelectMedicine(meds: seq<MedicineView>, id: int)
      modifies this
      ensures selectedMedicine == AddBatchToMedicineForm.Find(meds, id)
      ensures selectedBatch.None? && searchTerm == ""
      ensures additional == old(additional) && medicineSearch == old(medicineSearch)
    {
      selectedMedicine := AddBatchToMedicineForm.Find(meds, id);
      selectedBatch, searchTerm := None, "";
    }

    /** The batch select: the first listed batch with the chosen id, or none. */
    method SelectBatch(filtered: seq<BatchView>, id: int)
      modifies this
      ensures selectedBatch == FindBatch(filtered, id)
      ensures selectedMedicine == old(selectedMedicine) && additional == old(additional)
      ensures searchTerm == old(searchTerm) && medicineSearch == old(medicineSearch)
    {
      selectedBatch := FindBatch(filtered, id);
    }

    method SetAdditional(parsed: Option<int>)
      modifies this
      ensures additional == AdditionalInput(parsed) && additional >= 0
      ensures selectedMedicine == old(selectedMedicine) && selectedBatch == old(selectedBatch)
      ensures searchTerm == old(searchTerm) && medicineSearch == old(medicineSearch)
    {
      additional := AdditionalInput(parsed);
    }

    /** A sent update that succeeds resets the whole form. */
    method Submit(succeeds: bool) returns (sent: Option<Update>)
      modifies this
      ensures sent == SubmitUpdate(old(selectedBatch), old(additional))
      ensures sent.Some? && succeeds ==>
        selectedMedicine.None? && selectedBatch.None? && additional == 0 && searchTerm == "" && medicineSearch == ""
      ensures sent.None? || !succeeds ==>
        selectedMedicine == old(selectedMedicine) && selectedBatch == old(selectedBatch) && additional == old(additional)
        && searchTerm == old(searchTerm) && medicineSearch == old(medicineSearch)
    {
      sent := SubmitUpdate(selectedBatch, additional);
      if sent.Some? && succeeds {
        selectedMedicine, selectedBatch, additional, searchTerm, medicineSearch := None, None, 0, "", "";
      }
    }
  }
}
