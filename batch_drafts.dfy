/**
 * The editable list of new batches both medicine forms keep: `addBatch`,
 * `removeBatch` and `updateBatch`.
 */
module BatchDrafts {
  import Text

  /** `CreateMedicineBatchPayload` as the form edits it; the expiry is still the typed text. */
  datatype Draft = Draft(batchNumber: string, quantity: int, expiryDate: string)

  /** One field of a draft with its new value. */
  datatype Field = BatchNumber(s: string) | Quantity(q: int) | ExpiryDate(d: string)

  /** The draft `addBatch` appends. */
  const Blank := Draft("", 0, "")

  /** `{ ...batch, [field]: value }`. */
  function Set(d: Draft, f: Field): (r: Draft)
    ensures r.batchNumber == (if f.BatchNumber? then f.s else d.batchNumber)
    ensures r.quantity == (if f.Quantity? then f.q else d.quantity)
    ensures r.expiryDate == (if f.ExpiryDate? then f.d else d.expiryDate)
  {
    match f
    case BatchNumber(s) => d.(batchNumber := s)
    case Quantity(q) => d.(quantity := q)
    case ExpiryDate(e) => d.(expiryDate := e)
  }

  /** `batches.filter((_, i) => i !== index)`: the draft at `index` goes, the others keep their order. */
  function RemovedAt(ds: seq<Draft>, index: int): (r: seq<Draft>)
    ensures 0 <= index < |ds| ==> r == ds[..index] + ds[index + 1..]
    ensures !(0 <= index < |ds|) ==> r == ds
  {
    if ds == [] then []
    else
      var rest := RemovedAt(ds[1..], index - 1);
      if index == 0 then
        assert ds[1..] == ds[..0] + ds[1..];
        rest
      else
        assert 0 < index < |ds| ==> ds[1..][..index - 1] == ds[1..index];
        [ds[0]] + rest
  }

  /** `updateBatch`: one field of the draft at `index`; everything else as it was. */
  function UpdatedAt(ds: seq<Draft>, index: nat, f: Field): (r: seq<Draft>)
    requires index < |ds|
    ensures |r| == |ds|
    ensures r[index] == Set(ds[index], f)
    ensures forall k :: 0 <= k < |ds| && k != index ==> r[k] == ds[k]
  {
    ds[index := Set(ds[index], f)]
  }

  /** Removing the draft just added gives back the list. */
  lemma RemoveAddedBlank(ds: seq<Draft>)
    ensures RemovedAt(ds + [Blank], |ds|) == ds
  {
    assert (ds + [Blank])[..|ds|] == ds;
  }

  /** Setting a field to the value it already has changes nothing. */
  lemma SetSameValue(d: Draft)
    ensures Set(d, BatchNumber(d.batchNumber)) == d
    ensures Set(d, Quantity(d.quantity)) == d
    ensures Set(d, ExpiryDate(d.expiryDate)) == d
  {
  }

  /** A draft ready to send: a batch number that is not blank, a positive quantity, an expiry. */
  predicate Complete(d: Draft)
  {
    Text.Trim(d.batchNumber) != "" && d.quantity > 0 && d.expiryDate != ""
  }

  /** The blank draft is never complete: each one added must be filled in. */
  lemma BlankIncomplete()
    ensures !Complete(Blank)
  {
  }
}
