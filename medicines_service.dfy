/**
 * The medicine catalogue (`MedicinesService`): the inventory summary splits
 * each medicine's batches into an expired and a non-expired view with their
 * stock and nearest expiry; creating a medicine receives its opening
 * batches; a medicine may only be deleted once its batches hold no stock.
 */
module MedicinesService {
  import opened Wrappers
  import opened Ledger
  import BatchesService
  import CategoryService
  import UnitsService

  /** A medicine with the batches of one view, their stock and their nearest expiry. */
  datatype Summary = Summary(medicine: Medicine, batches: seq<Batch>, totalStock: int, nearestExpired: Option<int>)

  /** `CreateMedicineDto`; the batches' own `medicineId` is not used. */
  datatype CreateMedicineDto = CreateMedicineDto(
    name: string,
    genericName: Option<string>,
    categoryId: int,
    unitId: int,
    price: Option<int>,
    supplier: Option<string>,
    imageUrl: Option<string>,
    batches: seq<BatchesService.CreateBatchDto>)

  /** `UpdateMedicineDto`: the name is required, every other field may be left out. */
  datatype UpdateMedicineDto = UpdateMedicineDto(
    name: string,
    genericName: Option<string>,
    categoryId: Option<int>,
    unitId: Option<int>,
    price: Option<int>,
    supplier: Option<string>,
    imageUrl: Option<string>)

  datatype MedicineError =
    | UnitNotFound            // "Unit not found"
    | CategoryNotFound        // "Category not found"
    | MedicineNotFound        // "Medicine not found"
    | MedicineHasStock        // "Cannot delete medicine with stock"
    | BatchesReferenced       // the foreign key of receipt_items refuses the cascade

  // ------------------------------------------------------------ summary

  /**
   * The expired view keeps `expiry < now`, the other `expiry >= now`, where
   * `now` is the `Ledger.ClockDay` of the clock.
   */
  predicate InView(b: Batch, expired: bool, now: int)
  {
    if expired then b.expiry < now else b.expiry >= now
  }

  /** The medicine's batches that fall in the view, in table order. */
  function ViewBatches(bs: seq<Batch>, medicineId: int, expired: bool, now: int): (r: seq<Batch>)
    ensures |r| <= |bs|
    ensures forall b :: b in r <==> b in bs && b.medicineId == medicineId && InView(b, expired, now)
  {
    if bs == [] then []
    else
      var rest := ViewBatches(bs[1..], medicineId, expired, now);
      if bs[0].medicineId == medicineId && InView(bs[0], expired, now) then [bs[0]] + rest else rest
  }

  /** All of the medicine's batches, expired or not. */
  function BatchesOf(bs: seq<Batch>, medicineId: int): (r: seq<Batch>)
    ensures forall b :: b in r <==> b in bs && b.medicineId == medicineId
  {
    if bs == [] then []
    else
      var rest := BatchesOf(bs[1..], medicineId);
      if bs[0].medicineId == medicineId then [bs[0]] + rest else rest
  }

  /** `batches.reduce((a, b) => a + b.quantity, 0)`. */
  function Stock(bs: seq<Batch>): int
  {
    if bs == [] then 0 else bs[0].quantity + Stock(bs[1..])
  }

  /** The earliest expiry among the batches, or none for no batches. */
  function NearestExpiry(bs: seq<Batch>): (r: Option<int>)
    ensures r.None? <==> bs == []
    ensures r.Some? ==> exists k :: 0 <= k < |bs| && bs[k].expiry == r.value
    ensures r.Some? ==> forall k :: 0 <= k < |bs| ==> r.value <= bs[k].expiry
  {
    if bs == [] then None
    else
      var rest := NearestExpiry(bs[1..]);
      if rest.Some? && rest.value < bs[0].expiry then
        assert forall k :: 1 <= k < |bs| ==> bs[k] == bs[1..][k - 1];
        rest
      else
        assert forall k :: 1 <= k < |bs| ==> bs[k] == bs[1..][k - 1];
        Some(bs[0].expiry)
  }

  /** One medicine under one view. */
  function Summarize(m: Medicine, bs: seq<Batch>, expired: bool, now: int): (r: Summary)
    ensures r.medicine == m && r.batches == ViewBatches(bs, m.id, expired, now)
    ensures r.totalStock == Stock(r.batches)
    ensures r.nearestExpired == NearestExpiry(r.batches)
  {
    var view := ViewBatches(bs, m.id, expired, now);
    Summary(m, view, Stock(view), NearestExpiry(view))
  }

  /**
   * `findAllWithSummary`: every medicine in the non-expired view; in the
   * expired view only those with expired stock left.
   */
  function FindAllWithSummary(meds: seq<Medicine>, bs: seq<Batch>, expired: bool, now: int): (r: seq<Summary>)
    ensures !expired ==> |r| == |meds| && forall k :: 0 <= k < |meds| ==> r[k] == Summarize(meds[k], bs, false, now)
    ensures expired ==> forall s :: s in r <==> (exists m :: m in meds && s == Summarize(m, bs, true, now)) && s.totalStock > 0
  {
    if meds == [] then []
    else
      var s := Summarize(meds[0], bs, expired, now);
      var rest := FindAllWithSummary(meds[1..], bs, expired, now);
      assert forall m :: m in meds <==> m == meds[0] || m in meds[1..];
      if !expired || s.totalStock > 0 then [s] + rest else rest
  }

  /** Splitting by view loses no stock: the two views' stock adds up to the medicine's whole stock. */
  lemma {:induction false} ViewsSplitStock(bs: seq<Batch>, medicineId: int, now: int)
    ensures Stock(ViewBatches(bs, medicineId, true, now)) + Stock(ViewBatches(bs, medicineId, false, now))
         == Stock(BatchesOf(bs, medicineId))
  {
    if bs != [] {
      ViewsSplitStock(bs[1..], medicineId, now);
    }
  }

  /** Every batch of the medicine is in exactly one of the two views. */
  lemma ViewsPartition(bs: seq<Batch>, medicineId: int, now: int, b: Batch)
    requires b in BatchesOf(bs, medicineId)
    ensures b in ViewBatches(bs, medicineId, true, now) <==> b !in ViewBatches(bs, medicineId, false, now)
  {
  }

  /** With no negative batch, a medicine has no stock exactly when each of its batches is empty. */
  lemma {:induction false} NoStockMeansEmpty(bs: seq<Batch>)
    requires forall k :: 0 <= k < |bs| ==> bs[k].quantity >= 0
    ensures Stock(bs) >= 0
    ensures Stock(bs) == 0 <==> forall k :: 0 <= k < |bs| ==> bs[k].quantity == 0
  {
    if bs != [] {
      NoStockMeansEmpty(bs[1..]);
      assert forall k :: 1 <= k < |bs| ==> bs[k] == bs[1..][k - 1];
    }
  }

  // ------------------------------------------------------------ create

  /** The opening batches of a new medicine, numbered from `firstId`. */
  function OpeningBatches(dtos: seq<BatchesService.CreateBatchDto>, medicineId: int, firstId: int): (r: seq<Batch>)
    ensures |r| == |dtos|
    ensures forall k :: 0 <= k < |dtos| ==>
      r[k] == Batch(firstId + k, medicineId, dtos[k].batchNumber, dtos[k].quantity, dtos[k].expiry)
  {
    if dtos == [] then []
    else OpeningBatches(dtos[..|dtos| - 1], medicineId, firstId)
         + [Batch(firstId + |dtos| - 1, medicineId, dtos[|dtos| - 1].batchNumber, dtos[|dtos| - 1].quantity, dtos[|dtos| - 1].expiry)]
  }

  /** One `IN`/"New batch" log per opening batch, with its quantity. */
  function OpeningLogs(dtos: seq<BatchesService.CreateBatchDto>, firstId: int, user: Option<int>): (r: seq<StockLog>)
    ensures |r| == |dtos|
    ensures forall k :: 0 <= k < |dtos| ==> r[k] == BatchesService.ReceiveLog(firstId + k, dtos[k].quantity, user)
  {
    if dtos == [] then []
    else OpeningLogs(dtos[..|dtos| - 1], firstId, user) + [BatchesService.ReceiveLog(firstId + |dtos| - 1, dtos[|dtos| - 1].quantity, user)]
  }

  /** Each opening batch is logged with the quantity it was received with. */
  lemma OpeningLogsMatchBatches(dtos: seq<BatchesService.CreateBatchDto>, medicineId: int, firstId: int, user: Option<int>)
    ensures forall k :: 0 <= k < |dtos| ==>
      && OpeningLogs(dtos, firstId, user)[k].batchId == Some(OpeningBatches(dtos, medicineId, firstId)[k].id)
      && OpeningLogs(dtos, firstId, user)[k].quantityChange == OpeningBatches(dtos, medicineId, firstId)[k].quantity
  {
  }

  /** The loop's state after receiving the first `i` opening batches. */
  ghost predicate ReceivedSoFar(db: Database, bs0: seq<Batch>, logs0: seq<StockLog>, firstId: int,
                                dtos: seq<BatchesService.CreateBatchDto>, medicineId: int, user: Option<int>, i: nat)
    reads db
  {
    i <= |dtos| &&
    db.batches == bs0 + OpeningBatches(dtos[..i], medicineId, firstId) &&
    db.logs == logs0 + OpeningLogs(dtos[..i], firstId, user) &&
    db.nextBatchId == firstId + i
  }

  /** The loop of `createMedicine`: each supplied batch saved, then its `IN` log. */
  method ReceiveOpeningBatches(db: Database, dtos: seq<BatchesService.CreateBatchDto>, medicineId: int, user: Option<int>)
    requires db.Valid()
    modifies db
    ensures db.Valid()
    ensures db.batches == old(db.batches) + OpeningBatches(dtos, medicineId, old(db.nextBatchId))
    ensures db.logs == old(db.logs) + OpeningLogs(dtos, old(db.nextBatchId), user)
    ensures db.nextBatchId == old(db.nextBatchId) + |dtos|
    ensures db.medicines == old(db.medicines) && db.nextMedicineId == old(db.nextMedicineId)
    ensures db.receipts == old(db.receipts) && db.receiptItems == old(db.receiptItems)
    ensures db.users == old(db.users) && db.nextReceiptId == old(db.nextReceiptId)
  {
    ghost var bs0, logs0, firstId := db.batches, db.logs, db.nextBatchId;
    var i := 0;
    assert dtos[..0] == [];
    while i < |dtos|
      invariant ReceivedSoFar(db, bs0, logs0, firstId, dtos, medicineId, user, i)
      invariant db.Valid()
      invariant db.medicines == old(db.medicines) && db.nextMedicineId == old(db.nextMedicineId)
      invariant db.receipts == old(db.receipts) && db.receiptItems == old(db.receiptItems)
      invariant db.users == old(db.users) && db.nextReceiptId == old(db.nextReceiptId)
    {
      var d := dtos[i];
      var b := Batch(db.nextBatchId, medicineId, d.batchNumber, d.quantity, d.expiry);
      AppendBatchKeepsFresh(db.batches, b, db.nextBatchId);
      assert dtos[..i + 1][..i] == dtos[..i];
      db.batches := db.batches + [b];
      db.nextBatchId := db.nextBatchId + 1;
      db.logs := db.logs + [BatchesService.ReceiveLog(b.id, d.quantity, user)];
      i := i + 1;
    }
    assert dtos[..i] == dtos;
  }

  /**
   * `createMedicine`: the unit, then the category, must exist (a category
   * that was removed still does); then the medicine and one batch with its
   * `IN` log per supplied batch.
   */
  method CreateMedicine(db: Database, cats: CategoryService.CategoryTable, units: UnitsService.UnitTable,
                        dto: CreateMedicineDto, userId: Option<int>) returns (r: Result<Medicine, MedicineError>)
    requires db.Valid()
    modifies db
    ensures db.Valid()
    ensures db.receipts == old(db.receipts) && db.receiptItems == old(db.receiptItems)
    ensures db.users == old(db.users) && db.nextReceiptId == old(db.nextReceiptId)
    ensures units.FindOne(dto.unitId).Failure? ==>
      r == Failure(UnitNotFound) && db.medicines == old(db.medicines) && db.batches == old(db.batches)
      && db.logs == old(db.logs) && db.nextMedicineId == old(db.nextMedicineId) && db.nextBatchId == old(db.nextBatchId)
    ensures units.FindOne(dto.unitId).Success? && cats.FindOne(dto.categoryId).Failure? ==>
      r == Failure(CategoryNotFound) && db.medicines == old(db.medicines) && db.batches == old(db.batches)
      && db.logs == old(db.logs) && db.nextMedicineId == old(db.nextMedicineId) && db.nextBatchId == old(db.nextBatchId)
    ensures units.FindOne(dto.unitId).Success? && cats.FindOne(dto.categoryId).Success? ==>
      var m := Medicine(old(db.nextMedicineId), dto.name, dto.genericName, Some(dto.categoryId), Some(dto.unitId),
                        dto.price, dto.supplier, dto.imageUrl);
      && r == Success(m)
      && db.medicines == old(db.medicines) + [m]
      && db.nextMedicineId == old(db.nextMedicineId) + 1
      && db.batches == old(db.batches) + OpeningBatches(dto.batches, m.id, old(db.nextBatchId))
      && db.logs == old(db.logs) + OpeningLogs(dto.batches, old(db.nextBatchId), ResolveUser(userId, old(db.users)))
      && db.nextBatchId == old(db.nextBatchId) + |dto.batches|
  {
    if units.FindOne(dto.unitId).Failure? {
      return Failure(UnitNotFound);
    }
    if cats.FindOne(dto.categoryId).Failure? {
      return Failure(CategoryNotFound);
    }
    var user := ResolveUser(userId, db.users);
    var m := Medicine(db.nextMedicineId, dto.name, dto.genericName, Some(dto.categoryId), Some(dto.unitId),
                      dto.price, dto.supplier, dto.imageUrl);
    AppendMedicineKeepsFresh(db.medicines, m, db.nextMedicineId);
    db.medicines := db.medicines + [m];
    db.nextMedicineId := db.nextMedicineId + 1;
    ReceiveOpeningBatches(db, dto.batches, m.id, user);
    r := Success(m);
  }

  // ------------------------------------------------------------ update

  /** `preload({ id, ...payload })`: the fields the payload carries replace the stored ones. */
  function Merge(m: Medicine, dto: UpdateMedicineDto, unitId: Option<int>, categoryId: Option<int>): (r: Medicine)
    ensures r.id == m.id && r.name == dto.name
    ensures r.unitId == (if unitId.Some? then unitId else m.unitId)
    ensures r.categoryId == (if categoryId.Some? then categoryId else m.categoryId)
    ensures r.genericName == (if dto.genericName.Some? then dto.genericName else m.genericName)
    ensures r.price == (if dto.price.Some? then dto.price else m.price)
    ensures r.supplier == (if dto.supplier.Some? then dto.supplier else m.supplier)
    ensures r.imageUrl == (if dto.imageUrl.Some? then dto.imageUrl else m.imageUrl)
  {
    m.(name := dto.name,
       genericName := if dto.genericName.Some? then dto.genericName else m.genericName,
       categoryId := if categoryId.Some? then categoryId else m.categoryId,
       unitId := if unitId.Some? then unitId else m.unitId,
       price := if dto.price.Some? then dto.price else m.price,
       supplier := if dto.supplier.Some? then dto.supplier else m.supplier,
       imageUrl := if dto.imageUrl.Some? then dto.imageUrl else m.imageUrl)
  }

  /** A reference id is looked up only when it is given and truthy (not 0). */
  predicate Given(id: Option<int>) { id.Some? && id.value != 0 }

  /**
   * `updateMedicine`: a given unit id, then a given category id, must exist;
   * then the medicine must exist; then the payload is merged into it.
   */
  method UpdateMedicine(db: Database, cats: CategoryService.CategoryTable, units: UnitsService.UnitTable,
                        id: int, dto: UpdateMedicineDto) returns (r: Result<Medicine, MedicineError>)
    modifies db
    ensures db.batches == old(db.batches) && db.logs == old(db.logs) && db.receipts == old(db.receipts)
    ensures db.receiptItems == old(db.receiptItems) && db.users == old(db.users)
    ensures db.nextMedicineId == old(db.nextMedicineId) && db.nextBatchId == old(db.nextBatchId)
    ensures db.nextReceiptId == old(db.nextReceiptId)
    ensures
      if Given(dto.unitId) && units.FindOne(dto.unitId.value).Failure? then
        r == Failure(UnitNotFound) && db.medicines == old(db.medicines)
      else if Given(dto.categoryId) && cats.FindOne(dto.categoryId.value).Failure? then
        r == Failure(CategoryNotFound) && db.medicines == old(db.medicines)
      else if FindMedicine(old(db.medicines), id).None? then
        r == Failure(MedicineNotFound) && db.medicines == old(db.medicines)
      else
        var k := FindMedicine(old(db.medicines), id).value;
        var m := Merge(old(db.medicines)[k], dto,
                       if Given(dto.unitId) then dto.unitId else None,
                       if Given(dto.categoryId) then dto.categoryId else None);
        r == Success(m) && db.medicines == old(db.medicines)[k := m]
    ensures old(db.Valid()) ==> db.Valid()
  {
    var unitId: Option<int> := None;
    if Given(dto.unitId) {
      if units.FindOne(dto.unitId.value).Failure? {
        return Failure(UnitNotFound);
      }
      unitId := dto.unitId;
    }
    var categoryId: Option<int> := None;
    if Given(dto.categoryId) {
      if cats.FindOne(dto.categoryId.value).Failure? {
        return Failure(CategoryNotFound);
      }
      categoryId := dto.categoryId;
    }
    var found := FindMedicine(db.medicines, id);
    if found.None? {
      return Failure(MedicineNotFound);
    }
    var k := found.value;
    var m := Merge(db.medicines[k], dto, unitId, categoryId);
    db.medicines := db.medicines[k := m];
    r := Success(m);
  }

  // ------------------------------------------------------------ remove

  /** The ids of a medicine's batches, which the cascade deletes with it. */
  function BatchIds(bs: seq<Batch>, medicineId: int): (r: set<int>)
    ensures forall id :: id in r <==> exists k :: 0 <= k < |bs| && bs[k].medicineId == medicineId && bs[k].id == id
  {
    if bs == [] then {}
    else
      var rest := BatchIds(bs[1..], medicineId);
      assert forall k :: 1 <= k < |bs| ==> bs[k] == bs[1..][k - 1];
      if bs[0].medicineId == medicineId then {bs[0].id} + rest else rest
  }

  /** The batches that survive the medicine's deletion, in table order. */
  function OtherBatches(bs: seq<Batch>, medicineId: int): (r: seq<Batch>)
    ensures forall b :: b in r <==> b in bs && b.medicineId != medicineId
  {
    if bs == [] then []
    else
      var rest := OtherBatches(bs[1..], medicineId);
      if bs[0].medicineId != medicineId then [bs[0]] + rest else rest
  }

  /** Keeping some rows in order keeps the identity column consistent. */
  lemma {:induction false} OtherBatchesKeepFresh(bs: seq<Batch>, medicineId: int, next: int)
    requires BatchIdsFresh(bs, next)
    ensures BatchIdsFresh(OtherBatches(bs, medicineId), next)
  {
    if bs != [] {
      var tail := bs[1..];
      assert BatchIdsFresh(tail, next) by {
        forall i, j | 0 <= i < j < |tail|
          ensures tail[i].id != tail[j].id
        {
          assert tail[i] == bs[i + 1] && tail[j] == bs[j + 1];
        }
      }
      OtherBatchesKeepFresh(tail, medicineId, next);
      var rest := OtherBatches(tail, medicineId);
      if bs[0].medicineId != medicineId {
        HeadKeepsFresh(bs[0], tail, rest, next);
      }
    }
  }

  /** A fresh row in front of a fresh selection of the rows after it. */
  lemma HeadKeepsFresh(head: Batch, tail: seq<Batch>, rest: seq<Batch>, next: int)
    requires BatchIdsFresh([head] + tail, next) && BatchIdsFresh(rest, next)
    requires forall b :: b in rest ==> b in tail
    ensures BatchIdsFresh([head] + rest, next)
  {
    var bs := [head] + tail;
    forall b | b in tail
      ensures b.id != head.id
    {
      var j :| 0 <= j < |tail| && tail[j] == b;
      assert bs[j + 1] == b && bs[0] == head;
    }
    var r := [head] + rest;
    forall i | 0 <= i < |r|
      ensures 1 <= r[i].id < next
    {
      if i > 0 {
        assert r[i] == rest[i - 1];
      } else {
        assert bs[0] == head;
      }
    }
    forall i, j | 0 <= i < j < |r|
      ensures r[i].id != r[j].id
    {
      assert r[j] == rest[j - 1];
      if i > 0 {
        assert r[i] == rest[i - 1];
      } else {
        assert rest[j - 1] in tail;
      }
    }
  }

  lemma RemoveMedicineKeepsFresh(meds: seq<Medicine>, k: nat, next: int)
    requires k < |meds| && MedicineIdsFresh(meds, next)
    ensures MedicineIdsFresh(meds[..k] + meds[k + 1..], next)
  {
    var r := meds[..k] + meds[k + 1..];
    forall i | 0 <= i < |r|
      ensures r[i] == meds[if i < k then i else i + 1]
    {
    }
  }

  /**
   * `removeMedicine`: refused while the medicine's batches, expired ones
   * included, add up to more than 0, and refused by the database while a
   * receipt line names one of those batches (the cascade to the batches meets
   * `ON DELETE RESTRICT`); otherwise the medicine is deleted, its batches with
   * it, and their logs lose the batch reference.
   */
  method RemoveMedicine(db: Database, id: int) returns (err: Option<MedicineError>)
    modifies db
    ensures db.receipts == old(db.receipts) && db.receiptItems == old(db.receiptItems) && db.users == old(db.users)
    ensures db.nextMedicineId == old(db.nextMedicineId) && db.nextBatchId == old(db.nextBatchId)
    ensures db.nextReceiptId == old(db.nextReceiptId)
    ensures
      if FindMedicine(old(db.medicines), id).None? then
        err == Some(MedicineNotFound) && db.medicines == old(db.medicines)
        && db.batches == old(db.batches) && db.logs == old(db.logs)
      else if Stock(BatchesOf(old(db.batches), id)) > 0 then
        err == Some(MedicineHasStock) && db.medicines == old(db.medicines)
        && db.batches == old(db.batches) && db.logs == old(db.logs)
      else if Referenced(old(db.receiptItems), BatchIds(old(db.batches), id)) then
        err == Some(BatchesReferenced) && db.medicines == old(db.medicines)
        && db.batches == old(db.batches) && db.logs == old(db.logs)
      else
        var k := FindMedicine(old(db.medicines), id).value;
        && err.None?
        && db.medicines == old(db.medicines)[..k] + old(db.medicines)[k + 1..]
        && db.batches == OtherBatches(old(db.batches), id)
        && db.logs == DetachLogs(old(db.logs), BatchIds(old(db.batches), id))
    ensures err.None? ==> forall i :: 0 <= i < |db.receiptItems| ==> db.receiptItems[i].batchId !in BatchIds(old(db.batches), id)
    ensures old(db.Valid()) ==> db.Valid()
  {
    var found := FindMedicine(db.medicines, id);
    if found.None? {
      return Some(MedicineNotFound);
    }
    if Stock(BatchesOf(db.batches, id)) > 0 {
      return Some(MedicineHasStock);
    }
    if Referenced(db.receiptItems, BatchIds(db.batches, id)) {
      return Some(BatchesReferenced);
    }
    var k := found.value;
    if old(db.Valid()) {
      RemoveMedicineKeepsFresh(db.medicines, k, db.nextMedicineId);
      OtherBatchesKeepFresh(db.batches, id, db.nextBatchId);
    }
    db.logs := DetachLogs(db.logs, BatchIds(db.batches, id));
    db.medicines := db.medicines[..k] + db.medicines[k + 1..];
    db.batches := OtherBatches(db.batches, id);
    err := None;
  }
}
