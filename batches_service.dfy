/**
 * The batch ledger (`MedicineBatchesService`): creating a batch writes an
 * `IN` stock log, correcting its quantity writes an `IN,ADJUST` or
 * `OUT,ADJUST` log with the size of the change, and a batch may only be
 * deleted once it holds no stock.
 */
module BatchesService {
  import opened Wrappers
  import opened Ledger
  import Text

  /** `CreateMedicineBatchDto`. */
  datatype CreateBatchDto = CreateBatchDto(medicineId: int, batchNumber: string, quantity: int, expiry: int)

  /** `UpdateMedicineBatchDto`: every field may be left out. */
  datatype UpdateBatchDto = UpdateBatchDto(batchNumber: Option<string>, quantity: Option<int>, expiry: Option<int>)

  /** The errors the service throws: "Medicine not found", "Batch not found", "Cannot delete batch with stock". */
  datatype BatchError = MedicineNotFound | BatchNotFound | BatchHasStock | BatchReferenced

  const InAction: string := "IN"
  const NewBatchNote: string := "New batch"
  const IncreaseAction: string := "IN,ADJUST"
  const DecreaseAction: string := "OUT,ADJUST"

  /** The log written for a batch received into stock. */
  function ReceiveLog(batchId: int, quantity: int, user: Option<int>): (r: StockLog)
    ensures r.batchId == Some(batchId) && r.quantityChange == quantity
    ensures r.action == InAction && r.note == Some(NewBatchNote) && r.createdBy == user
  {
    StockLog(Some(batchId), InAction, quantity, Some(NewBatchNote), user)
  }

  /** `Object.assign(batch, data)`: the fields the update carries replace the stored ones. */
  function ApplyUpdate(b: Batch, d: UpdateBatchDto): (r: Batch)
    ensures r.id == b.id && r.medicineId == b.medicineId
    ensures d.batchNumber.None? ==> r.batchNumber == b.batchNumber
    ensures d.batchNumber.Some? ==> r.batchNumber == d.batchNumber.value
    ensures d.quantity.None? ==> r.quantity == b.quantity
    ensures d.quantity.Some? ==> r.quantity == d.quantity.value
    ensures d.expiry.None? ==> r.expiry == b.expiry
    ensures d.expiry.Some? ==> r.expiry == d.expiry.value
  {
    b.(batchNumber := d.batchNumber.GetOr(b.batchNumber),
       quantity := d.quantity.GetOr(b.quantity),
       expiry := d.expiry.GetOr(b.expiry))
  }

  /** Applying the same update twice changes nothing more; an empty update changes nothing. */
  lemma ApplyUpdateIdempotent(b: Batch, d: UpdateBatchDto)
    ensures ApplyUpdate(ApplyUpdate(b, d), d) == ApplyUpdate(b, d)
    ensures d == UpdateBatchDto(None, None, None) ==> ApplyUpdate(b, d) == b
  {
  }

  /** The note "Increase: 5 → 8" or "Decrease: 8 → 5". */
  function AdjustNote(word: string, before: int, after: int): (r: string)
    ensures Text.StartsWith(r, word + ": ")
  {
    word + ": " + Text.IntToString(before) + " → " + Text.IntToString(after)
  }

  /**
   * The log a quantity correction writes, if any: none when the update
   * leaves the quantity out or repeats it; otherwise the size of the
   * change, tagged by its direction.
   */
  function AdjustLog(batchId: int, before: int, after: Option<int>, user: Option<int>): (r: Option<StockLog>)
    ensures r.None? <==> after.None? || after.value == before
    ensures r.Some? ==> r.value.batchId == Some(batchId) && r.value.createdBy == user && r.value.quantityChange > 0
    ensures r.Some? ==> (r.value.action == IncreaseAction <==> after.value > before)
    ensures r.Some? ==> (r.value.action == DecreaseAction <==> after.value < before)
    ensures r.Some? && after.value > before ==> r.value.note == Some(AdjustNote("Increase", before, after.value))
    ensures r.Some? && after.value < before ==> r.value.note == Some(AdjustNote("Decrease", before, after.value))
  {
    if after.None? || after.value == before then None
    else
      var delta := after.value - before;
      if delta > 0 then Some(StockLog(Some(batchId), IncreaseAction, delta, Some(AdjustNote("Increase", before, after.value)), user))
      else Some(StockLog(Some(batchId), DecreaseAction, -delta, Some(AdjustNote("Decrease", before, after.value)), user))
  }

  /** Replaying a correction log on the old quantity gives the new one. */
  lemma AdjustLogReplays(batchId: int, before: int, after: int, user: Option<int>)
    requires after != before
    ensures var log := AdjustLog(batchId, before, Some(after), user).value;
      after == (if log.action == IncreaseAction then before + log.quantityChange else before - log.quantityChange)
  {
  }

  /** Changing rows without changing their ids keeps the identity column consistent. */
  lemma SameIdsKeepFresh(bs: seq<Batch>, bs': seq<Batch>, next: int)
    requires BatchIdsFresh(bs, next)
    requires |bs'| == |bs| && forall k :: 0 <= k < |bs| ==> bs'[k].id == bs[k].id
    ensures BatchIdsFresh(bs', next)
  {
  }

  /** Deleting a row keeps the identity column consistent. */
  lemma RemoveKeepsFresh(bs: seq<Batch>, k: nat, next: int)
    requires k < |bs| && BatchIdsFresh(bs, next)
    ensures BatchIdsFresh(bs[..k] + bs[k + 1..], next)
  {
    var r := bs[..k] + bs[k + 1..];
    forall i, j | 0 <= i < j < |r|
      ensures r[i].id != r[j].id
    {
      var i' := if i < k then i else i + 1;
      var j' := if j < k then j else j + 1;
      assert r[i] == bs[i'] && r[j] == bs[j'];
    }
    forall i | 0 <= i < |r|
      ensures 1 <= r[i].id < next
    {
      assert r[i] == bs[if i < k then i else i + 1];
    }
  }

  /** After deleting its row, a batch id is found no more. */
  lemma RemoveForgets(bs: seq<Batch>, k: nat, next: int)
    requires k < |bs| && BatchIdsFresh(bs, next)
    ensures FindBatch(bs[..k] + bs[k + 1..], bs[k].id).None?
  {
    var r := bs[..k] + bs[k + 1..];
    forall i | 0 <= i < |r|
      ensures r[i].id != bs[k].id
    {
      assert r[i] == bs[if i < k then i else i + 1];
    }
  }

  /** `createBatch`: a new batch of a known medicine, and its `IN` log. */
  method CreateBatch(db: Database, dto: CreateBatchDto, userId: Option<int>) returns (r: Result<Batch, BatchError>)
    modifies db
    ensures db.medicines == old(db.medicines) && db.receipts == old(db.receipts)
    ensures db.receiptItems == old(db.receiptItems) && db.users == old(db.users)
    ensures db.nextMedicineId == old(db.nextMedicineId) && db.nextReceiptId == old(db.nextReceiptId)
    ensures FindMedicine(old(db.medicines), dto.medicineId).None? ==>
      && r == Failure(MedicineNotFound)
      && db.batches == old(db.batches) && db.logs == old(db.logs) && db.nextBatchId == old(db.nextBatchId)
    ensures FindMedicine(old(db.medicines), dto.medicineId).Some? ==>
      var b := Batch(old(db.nextBatchId), dto.medicineId, dto.batchNumber, dto.quantity, dto.expiry);
      && r == Success(b)
      && db.batches == old(db.batches) + [b]
      && db.logs == old(db.logs) + [ReceiveLog(b.id, dto.quantity, ResolveUser(userId, old(db.users)))]
      && db.nextBatchId == old(db.nextBatchId) + 1
    ensures old(db.Valid()) ==> db.Valid()
  {
    if FindMedicine(db.medicines, dto.medicineId).None? {
      return Failure(MedicineNotFound);
    }
    var b := Batch(db.nextBatchId, dto.medicineId, dto.batchNumber, dto.quantity, dto.expiry);
    db.batches := db.batches + [b];
    db.nextBatchId := db.nextBatchId + 1;
    var user := ResolveUser(userId, db.users);
    db.logs := db.logs + [ReceiveLog(b.id, dto.quantity, user)];
    r := Success(b);
  }

  /** `updateBatch`: apply the update to the stored batch and log a quantity correction. */
  method UpdateBatch(db: Database, batchId: int, dto: UpdateBatchDto, userId: Option<int>) returns (r: Result<Batch, BatchError>)
    modifies db
    ensures db.medicines == old(db.medicines) && db.receipts == old(db.receipts)
    ensures db.receiptItems == old(db.receiptItems) && db.users == old(db.users)
    ensures db.nextMedicineId == old(db.nextMedicineId) && db.nextBatchId == old(db.nextBatchId)
    ensures db.nextReceiptId == old(db.nextReceiptId)
    ensures FindBatch(old(db.batches), batchId).None? ==>
      r == Failure(BatchNotFound) && db.batches == old(db.batches) && db.logs == old(db.logs)
    ensures FindBatch(old(db.batches), batchId).Some? ==>
      var k := FindBatch(old(db.batches), batchId).value;
      var b := ApplyUpdate(old(db.batches)[k], dto);
      var log := AdjustLog(batchId, old(db.batches)[k].quantity, dto.quantity, ResolveUser(userId, old(db.users)));
      && r == Success(b)
      && db.batches == old(db.batches)[k := b]
      && db.logs == old(db.logs) + (if log.Some? then [log.value] else [])
    ensures old(db.Valid()) ==> db.Valid()
  {
    var found := FindBatch(db.batches, batchId);
    if found.None? {
      return Failure(BatchNotFound);
    }
    var k := found.value;
    var before := db.batches[k].quantity;
    var b := ApplyUpdate(db.batches[k], dto);
    ghost var old_batches := db.batches;
    db.batches := db.batches[k := b];
    if old(db.Valid()) {
      SameIdsKeepFresh(old_batches, db.batches, db.nextBatchId);
    }
    var log := AdjustLog(batchId, before, dto.quantity, ResolveUser(userId, db.users));
    if log.Some? {
      db.logs := db.logs + [log.value];
    }
    r := Success(b);
  }

  /**
   * `removeBatch`: only an empty batch is deleted, and only while no receipt
   * line names it (the foreign key refuses the delete otherwise); its logs
   * keep their rows without the reference.
   */
  method RemoveBatch(db: Database, batchId: int) returns (err: Option<BatchError>)
    modifies db
    ensures db.medicines == old(db.medicines) && db.receipts == old(db.receipts)
    ensures db.receiptItems == old(db.receiptItems) && db.users == old(db.users)
    ensures db.nextMedicineId == old(db.nextMedicineId) && db.nextBatchId == old(db.nextBatchId)
    ensures db.nextReceiptId == old(db.nextReceiptId)
    ensures FindBatch(old(db.batches), batchId).None? ==>
      err == Some(BatchNotFound) && db.batches == old(db.batches) && db.logs == old(db.logs)
    ensures FindBatch(old(db.batches), batchId).Some? ==>
      var k := FindBatch(old(db.batches), batchId).value;
      if old(db.batches)[k].quantity > 0 then
        err == Some(BatchHasStock) && db.batches == old(db.batches) && db.logs == old(db.logs)
      else if Referenced(old(db.receiptItems), {batchId}) then
        err == Some(BatchReferenced) && db.batches == old(db.batches) && db.logs == old(db.logs)
      else
        && err.None?
        && db.batches == old(db.batches)[..k] + old(db.batches)[k + 1..]
        && db.logs == DetachLogs(old(db.logs), {batchId})
    ensures err.None? ==> forall i :: 0 <= i < |db.receiptItems| ==> db.receiptItems[i].batchId != batchId
    ensures old(db.Valid()) ==> db.Valid()
    ensures old(db.Valid()) && err.None? ==> FindBatch(db.batches, batchId).None?
  {
    var found := FindBatch(db.batches, batchId);
    if found.None? {
      return Some(BatchNotFound);
    }
    var k := found.value;
    if db.batches[k].quantity > 0 {
      return Some(BatchHasStock);
    }
    if Referenced(db.receiptItems, {batchId}) {
      return Some(BatchReferenced);
    }
    ghost var old_batches := db.batches;
    db.batches := db.batches[..k] + db.batches[k + 1..];
    if old(db.Valid()) {
      RemoveKeepsFresh(old_batches, k, db.nextBatchId);
      RemoveForgets(old_batches, k, db.nextBatchId);
    }
    db.logs := DetachLogs(db.logs, {batchId});
    err := None;
  }
}
