/**
 * The form that adds new batches to a medicine already on file: the
 * medicine search and choice, the batch drafts, the check before sending,
 * and the sequence of requests it sends.
 */
module AddBatchToMedicineForm {
  import opened Wrappers
  import opened Views
  import Text
  import Lists
  import BatchDrafts

  predicate Listed(m: MedicineView, meds: seq<MedicineView>, search: string)
  {
    m in meds && (Text.IncludesIgnoringCase(m.name, search) || Text.IncludesIgnoringCase(m.genericName, search))
  }

  /** `filteredMedicines`: all for a blank search, else name or generic name contains it, ignoring case. */
  function FilteredMedicines(meds: seq<MedicineView>, search: string): (r: seq<MedicineView>)
    ensures Text.IsBlank(search) ==> r == meds
    ensures !Text.IsBlank(search) ==> forall m :: m in r <==> Listed(m, meds, search)
  {
    if Text.IsBlank(search) then meds
    else Lists.Filter(meds, (m: MedicineView) => Text.IncludesIgnoringCase(m.name, search) || Text.IncludesIgnoringCase(m.genericName, search))
  }

  /** `k` is the first index holding a medicine with that id. */
  predicate FirstAt(meds: seq<MedicineView>, id: int, k: int)
  {
    0 <= k < |meds| && meds[k].id == id && forall j :: 0 <= j < k ==> meds[j].id != id
  }

  /** `medicines.find(m => m.id === id)`: the first medicine with that id. */
  function Find(meds: seq<MedicineView>, id: int): (r: Option<MedicineView>)
    ensures r.None? <==> forall k :: 0 <= k < |meds| ==> meds[k].id != id
    ensures r.Some? ==> r.value.id == id && exists k :: FirstAt(meds, id, k) && meds[k] == r.value
  {
    if meds == [] then None
    else if meds[0].id == id then Some(meds[0])
    else
      var r := Find(meds[1..], id);
      if r.Some? then
        var k :| FirstAt(meds[1..], id, k) && meds[1..][k] == r.value;
        assert meds[k + 1] == r.value;
        forall j | 0 <= j < k + 1
          ensures meds[j].id != id
        {
          if j > 0 { assert meds[j] == meds[1..][j - 1]; }
        }
        assert FirstAt(meds, id, k + 1);
        r
      else
        assert forall k :: 0 <= k < |meds| ==> meds[k].id != id by {
          forall k | 0 <= k < |meds| ensures meds[k].id != id {
            if k > 0 { assert meds[k] == meds[1..][k - 1]; }
          }
        }
        r
  }

  /** `validateForm`: a medicine, at least one draft, and every draft complete. */
  predicate ReadyToSend(selected: Option<MedicineView>, batches: seq<BatchDrafts.Draft>)
  {
    selected.Some? && |batches| > 0 && forall k :: 0 <= k < |batches| ==> BatchDrafts.Complete(batches[k])
  }

  /** A freshly added draft must be filled in before the form can be sent. */
  lemma AddedBlankBlocks(selected: Option<MedicineView>, batches: seq<BatchDrafts.Draft>)
    ensures !ReadyToSend(selected, batches + [BatchDrafts.Blank])
  {
    BatchDrafts.BlankIncomplete();
    assert (batches + [BatchDrafts.Blank])[|batches|] == BatchDrafts.Blank;
  }

  /** `AddBatchToMedicinePayload`: one request per draft, all for the chosen medicine. */
  datatype Request = Request(medicineId: int, batchNumber: string, quantity: int, expiryDate: string)

  function RequestFor(medicineId: int, d: BatchDrafts.Draft): Request
  {
    Request(medicineId, d.batchNumber, d.quantity, d.expiryDate)
  }

  /** The server refuses one of the `n` requests. */
  predicate Refused(failsAt: Option<nat>, n: nat) { failsAt.Some? && failsAt.value < n }

  /** How many of the `n` requests are sent: up to and including a refused one. */
  function Attempted(failsAt: Option<nat>, n: nat): (r: nat)
    ensures r <= n
  {
    if Refused(failsAt, n) then failsAt.value + 1 else n
  }

  /** `sent` is `before` followed by one request per draft, for the first `n` drafts, in order. */
  ghost predicate SentInOrder(before: seq<Request>, sent: seq<Request>, id: int, batches: seq<BatchDrafts.Draft>, n: nat)
  {
    n <= |batches| && |sent| == |before| + n && sent[..|before|] == before &&
    forall k :: 0 <= k < n ==> sent[|before| + k] == RequestFor(id, batches[k])
  }

  class Form {
    var selected: Option<MedicineView>
    var batches: seq<BatchDrafts.Draft>
    var search: string
    /** The requests sent so far, in order. */
    var sent: seq<Request>

    constructor ()
      ensures selected.None? && batches == [] && search == "" && sent == []
    {
      selected, batches, search, sent := None, [], "", [];
    }

    /** `handleMedicineSelect`: the first medicine with that id (or none), and no drafts. */
    method SelectMedicine(meds: seq<MedicineView>, id: int)
      modifies this
      ensures selected == Find(meds, id) && batches == []
      ensures search == old(search) && sent == old(sent)
    {
      selected := Find(meds, id);
      batches := [];
    }

    method SetSearch(s: string)
      modifies this
      ensures search == s && selected == old(selected) && batches == old(batches) && sent == old(sent)
    {
      search := s;
    }

    method AddBatch()
      modifies this
      ensures batches == old(batches) + [BatchDrafts.Blank]
      ensures selected == old(selected) && search == old(search) && sent == old(sent)
    {
      batches := batches + [BatchDrafts.Blank];
    }

    method RemoveBatch(index: int)
      modifies this
      ensures batches == BatchDrafts.RemovedAt(old(batches), index)
      ensures selected == old(selected) && search == old(search) && sent == old(sent)
    {
      batches := BatchDrafts.RemovedAt(batches, index);
    }

    method UpdateBatch(index: nat, f: BatchDrafts.Field)
      requires index < |batches|
      modifies this
      ensures batches == BatchDrafts.UpdatedAt(old(batches), index, f)
      ensures selected == old(selected) && search == old(search) && sent == old(sent)
    {
      batches := BatchDrafts.UpdatedAt(batches, index, f);
    }

    /**
     * `handleSubmit`. An incomplete form sends nothing. Otherwise one
     * request per draft, in list order; `failsAt` is the index of the first
     * request the server refuses, if any. The requests before it stay
     * sent, the form is kept as it was, and the result is false. When all
     * succeed the choice, the drafts and the search are reset.
     */
    method Submit(failsAt: Option<nat>) returns (ok: bool)
      modifies this
      ensures !ReadyToSend(old(selected), old(batches)) ==> !ok && sent == old(sent)
      ensures !ok ==> selected == old(selected) && batches == old(batches) && search == old(search)
      ensures ReadyToSend(old(selected), old(batches)) ==>
        (ok <==> !Refused(failsAt, |old(batches)|)) &&
        SentInOrder(old(sent), sent, old(selected).value.id, old(batches), Attempted(failsAt, |old(batches)|))
      ensures ok ==> selected.None? && batches == [] && search == ""
    {
      if !ReadyToSend(selected, batches) {
        return false;
      }
      var id := selected.value.id;
      ghost var before := sent;
      ok := true;
      var i := 0;
      while i < |batches| && ok
        invariant selected == old(selected) && batches == old(batches) && search == old(search)
        invariant 0 <= i <= |batches|
        invariant ok <==> !(failsAt.Some? && failsAt.value < i)
        invariant SentInOrder(before, sent, id, batches, i)
        invariant !ok ==> failsAt.Some? && i == failsAt.value + 1
      {
        sent := sent + [RequestFor(id, batches[i])];
        if failsAt == Some(i) {
          ok := false;
        }
        i := i + 1;
      }
      if ok {
        selected, batches, search := None, [], "";
      }
    }
  }
}
