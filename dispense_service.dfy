/**
 * Completing a dispense (`DispenseService.dispense`): one receipt, then for
 * each requested line the non-expired batches of that medicine are drawn
 * from in first-expiry-first-out order, each deduction writing an `OUT`
 * stock log and a receipt item. A line that cannot be met in full aborts
 * the whole transaction.
 */
module DispenseService {
  import opened Wrappers
  import opened Ledger
  import Lists
  import Sorting

  /** One requested line: a medicine and how many units of it. */
  datatype DispenseItem = DispenseItem(medicineId: int, quantity: int)

  /** The 400 response "Not enough stock for medicine id X". */
  datatype DispenseError = NotEnoughStock(medicineId: int)

  const WalkInCustomer: string := "Walk-in Customer"
  const OutAction: string := "OUT"
  const DispenseNote: string := "Dispense"

  /** One deduction: `amount` units taken from the batch at `index` of the batch table. */
  datatype Take = Take(index: nat, batchId: int, medicineId: int, amount: int)

  function Amount(t: Take): int { t.amount }

  function Quantity(it: DispenseItem): int { it.quantity }

  function Min(a: int, b: int): int { if a <= b then a else b }

  function Max0(a: int): int { if a > 0 then a else 0 }

  // ------------------------------------------------------------ batch choice

  /**
   * The batch query's filter: the medicine asked for, expiring on or after
   * `now`, the `Ledger.ClockDay` of the clock (`MoreThanOrEqual(new Date())`).
   */
  predicate Eligible(b: Batch, medicineId: int, now: int)
  {
    b.medicineId == medicineId && b.expiry >= now
  }

  /** Indices into the batch table, in ascending order of expiry. */
  predicate ExpirySorted(bs: seq<Batch>, s: seq<nat>)
  {
    (forall k :: 0 <= k < |s| ==> s[k] < |bs|) &&
    (forall k, l :: 0 <= k < l < |s| && s[l] < |bs| && s[k] < |bs| ==> bs[s[k]].expiry <= bs[s[l]].expiry)
  }

  /** Puts batch index `i` before the first index that expires strictly later. */
  function InsertByExpiry(bs: seq<Batch>, i: nat, s: seq<nat>): (r: seq<nat>)
    requires i < |bs| && ExpirySorted(bs, s)
    ensures |r| == |s| + 1
    ensures forall x :: x in r <==> x == i || x in s
    ensures Lists.Distinct(s) && i !in s ==> Lists.Distinct(r)
    ensures ExpirySorted(bs, r)
  {
    if s == [] then [i]
    else if bs[i].expiry < bs[s[0]].expiry then [i] + s
    else
      var rest := InsertByExpiry(bs, i, s[1..]);
      HeadExpiresFirst(bs, i, s, rest);
      if Lists.Distinct(s) && i !in s then
        Lists.DistinctTail(s);
        Lists.DistinctCons(s[0], rest);
        [s[0]] + rest
      else
        [s[0]] + rest
  }

  lemma HeadExpiresFirst(bs: seq<Batch>, i: nat, s: seq<nat>, rest: seq<nat>)
    requires i < |bs| && ExpirySorted(bs, s) && s != [] && bs[s[0]].expiry <= bs[i].expiry
    requires forall x :: x in rest <==> x == i || x in s[1..]
    requires ExpirySorted(bs, rest)
    ensures ExpirySorted(bs, [s[0]] + rest)
  {
    forall x | x in rest ensures x < |bs| && bs[s[0]].expiry <= bs[x].expiry {
      if x != i {
        var l :| 0 <= l < |s[1..]| && s[1..][l] == x;
        assert s[l + 1] == x;
      }
    }
    var r := [s[0]] + rest;
    forall k, l | 0 <= k < l < |r| ensures bs[r[k]].expiry <= bs[r[l]].expiry {
      assert r[l] == rest[l - 1];
      if k > 0 {
        assert r[k] == rest[k - 1];
      } else {
        assert rest[l - 1] in rest;
      }
    }
  }

  /** The eligible indices below `n`, each once, earliest expiry first. */
  predicate FefoPrefix(bs: seq<Batch>, medicineId: int, now: int, n: nat, order: seq<nat>)
    requires n <= |bs|
  {
    && (forall k :: 0 <= k < |order| ==> order[k] < n && Eligible(bs[order[k]], medicineId, now))
    && (forall i :: 0 <= i < n && Eligible(bs[i], medicineId, now) ==> i in order)
    && Lists.Distinct(order)
    && ExpirySorted(bs, order)
  }

  /**
   * The batch query over the first `n` rows of the table: the eligible ones,
   * earliest expiry first (equal expiries in table order), each once.
   */
  function FefoUpTo(bs: seq<Batch>, medicineId: int, now: int, n: nat): (order: seq<nat>)
    requires n <= |bs|
    ensures FefoPrefix(bs, medicineId, now, n, order)
  {
    if n == 0 then []
    else
      var rest := FefoUpTo(bs, medicineId, now, n - 1);
      if Eligible(bs[n - 1], medicineId, now) then
        FefoStep(bs, medicineId, now, n, rest);
        InsertByExpiry(bs, n - 1, rest)
      else rest
  }

  lemma FefoStep(bs: seq<Batch>, medicineId: int, now: int, n: nat, rest: seq<nat>)
    requires 0 < n <= |bs| && Eligible(bs[n - 1], medicineId, now)
    requires FefoPrefix(bs, medicineId, now, n - 1, rest)
    ensures FefoPrefix(bs, medicineId, now, n, InsertByExpiry(bs, n - 1, rest))
  {
    var r := InsertByExpiry(bs, n - 1, rest);
    assert n - 1 !in rest;
    forall k | 0 <= k < |r| ensures r[k] < n && Eligible(bs[r[k]], medicineId, now) {
      assert r[k] in r;
    }
  }

  /**
   * `find(MedicineBatch, { medicine, expiryDate >= now, order: expiryDate ASC })`
   * as indices into the batch table: every eligible batch once, earliest
   * expiry first.
   */
  function FefoOrder(bs: seq<Batch>, medicineId: int, now: int): (order: seq<nat>)
    ensures forall k :: 0 <= k < |order| ==> order[k] < |bs| && Eligible(bs[order[k]], medicineId, now)
    ensures forall i :: 0 <= i < |bs| && Eligible(bs[i], medicineId, now) ==> i in order
    ensures Lists.Distinct(order)
    ensures forall k, l :: 0 <= k < l < |order| ==> bs[order[k]].expiry <= bs[order[l]].expiry
  {
    FefoUpTo(bs, medicineId, now, |bs|)
  }

  // ------------------------------------------------------------ one line

  /** The state a line leaves: batch table, deductions made, and what is still owed. */
  datatype Walk = Walk(batches: seq<Batch>, takes: seq<Take>, remaining: int)

  /** Deducting `deduct` units from the batch at `i`. */
  function Deduct(bs: seq<Batch>, i: nat, deduct: int): (r: seq<Batch>)
    requires i < |bs|
    ensures |r| == |bs|
  {
    bs[i := bs[i].(quantity := bs[i].quantity - deduct)]
  }

  /**
   * The inner loop over the fetched batches: stop once nothing is owed, skip
   * a batch that can give nothing, otherwise take `min(quantity, remaining)`.
   */
  function WalkLine(bs: seq<Batch>, order: seq<nat>, remaining: int): (w: Walk)
    requires forall k :: 0 <= k < |order| ==> order[k] < |bs|
    ensures |w.batches| == |bs|
    decreases |order|
  {
    if order == [] || remaining <= 0 then Walk(bs, [], remaining)
    else
      var i := order[0];
      var deduct := Min(bs[i].quantity, remaining);
      if deduct <= 0 then WalkLine(bs, order[1..], remaining)
      else
        var w := WalkLine(Deduct(bs, i, deduct), order[1..], remaining - deduct);
        Walk(w.batches, [Take(i, bs[i].id, bs[i].medicineId, deduct)] + w.takes, w.remaining)
  }

  predicate Taken(ts: seq<Take>, j: nat)
  {
    exists k :: 0 <= k < |ts| && ts[k].index == j
  }

  /** Two batch tables that differ at most in quantities. */
  predicate SameButQuantities(a: seq<Batch>, b: seq<Batch>)
  {
    |a| == |b| && forall j :: 0 <= j < |a| ==> b[j] == a[j].(quantity := b[j].quantity)
  }

  /** Quantities only fall, and a quantity that fell did not go below zero. */
  predicate OnlyDrawnDown(a: seq<Batch>, b: seq<Batch>)
  {
    SameButQuantities(a, b) &&
    forall j :: 0 <= j < |a| ==> b[j].quantity == a[j].quantity || 0 <= b[j].quantity < a[j].quantity
  }

  /** Each deduction is positive and comes from a fetched batch, whose id and medicine it records. */
  predicate TakesFromOrder(bs: seq<Batch>, order: seq<nat>, ts: seq<Take>)
  {
    forall k :: 0 <= k < |ts| ==>
      ts[k].index in order && ts[k].index < |bs| && ts[k].amount > 0
      && ts[k].batchId == bs[ts[k].index].id && ts[k].medicineId == bs[ts[k].index].medicineId
  }

  /** No batch is drawn from twice. */
  predicate TakesDistinct(ts: seq<Take>)
  {
    forall k, l :: 0 <= k < l < |ts| ==> ts[k].index != ts[l].index
  }

  /** Each deduction is at most the batch's stock and is subtracted from it. */
  predicate Accounted(bs: seq<Batch>, w: Walk)
  {
    |w.batches| == |bs| &&
    forall k :: 0 <= k < |w.takes| ==>
      var j := w.takes[k].index;
      j < |bs| && w.takes[k].amount <= bs[j].quantity
      && w.batches[j] == bs[j].(quantity := bs[j].quantity - w.takes[k].amount)
  }

  /** Every fetched batch is empty or negative. */
  predicate Exhausted(w: Walk, order: seq<nat>)
  {
    forall k :: 0 <= k < |order| ==> order[k] < |w.batches| && w.batches[order[k]].quantity <= 0
  }

  /** A fetched batch was drawn from only if every batch before it in the order ended empty or negative. */
  predicate DrawnInOrder(w: Walk, order: seq<nat>)
  {
    forall p, q :: 0 <= p < q < |order| && Taken(w.takes, order[q]) ==>
      order[p] < |w.batches| && w.batches[order[p]].quantity <= 0
  }

  /** What was taken plus what is still owed is what the line asked for. */
  lemma {:induction false} WalkConserves(bs: seq<Batch>, order: seq<nat>, remaining: int)
    requires forall k :: 0 <= k < |order| ==> order[k] < |bs|
    ensures Lists.Sum(WalkLine(bs, order, remaining).takes, Amount) + WalkLine(bs, order, remaining).remaining == remaining
    ensures remaining > 0 ==> WalkLine(bs, order, remaining).remaining >= 0
    ensures remaining <= 0 ==> WalkLine(bs, order, remaining) == Walk(bs, [], remaining)
    decreases |order|
  {
    if order != [] && remaining > 0 {
      var i := order[0];
      var deduct := Min(bs[i].quantity, remaining);
      if deduct <= 0 {
        WalkConserves(bs, order[1..], remaining);
      } else {
        WalkConserves(Deduct(bs, i, deduct), order[1..], remaining - deduct);
      }
    }
  }

  /** Each deduction is positive and comes from a fetched batch, whose id and medicine it records. */
  lemma {:induction false} WalkTakesFromOrder(bs: seq<Batch>, order: seq<nat>, remaining: int)
    requires forall k :: 0 <= k < |order| ==> order[k] < |bs|
    ensures SameButQuantities(bs, WalkLine(bs, order, remaining).batches)
    ensures TakesFromOrder(bs, order, WalkLine(bs, order, remaining).takes)
    decreases |order|
  {
    if order != [] && remaining > 0 {
      var i := order[0];
      var deduct := Min(bs[i].quantity, remaining);
      assert forall k :: 0 <= k < |order[1..]| ==> order[1..][k] == order[k + 1];
      if deduct <= 0 {
        WalkTakesFromOrder(bs, order[1..], remaining);
      } else {
        var bs' := Deduct(bs, i, deduct);
        WalkTakesFromOrder(bs', order[1..], remaining - deduct);
        var w' := WalkLine(bs', order[1..], remaining - deduct);
        var w := WalkLine(bs, order, remaining);
        assert w.takes[1..] == w'.takes;
        forall k | 1 <= k < |w.takes| ensures w.takes[k] == w'.takes[k - 1] {
        }
      }
    }
  }

  /** With every batch fetched once, no batch is drawn from twice in a line. */
  lemma {:induction false} WalkTakesDistinct(bs: seq<Batch>, order: seq<nat>, remaining: int)
    requires forall k :: 0 <= k < |order| ==> order[k] < |bs|
    requires Lists.Distinct(order)
    ensures TakesDistinct(WalkLine(bs, order, remaining).takes)
    decreases |order|
  {
    if order != [] && remaining > 0 {
      var i := order[0];
      var deduct := Min(bs[i].quantity, remaining);
      var tail := order[1..];
      assert forall k :: 0 <= k < |tail| ==> tail[k] == order[k + 1];
      Lists.DistinctTail(order);
      if deduct <= 0 {
        WalkTakesDistinct(bs, tail, remaining);
        var w := WalkLine(bs, order, remaining);
        var w' := WalkLine(bs, tail, remaining);
        assert forall k, l :: 0 <= k < l < |w'.takes| ==> w'.takes[k].index != w'.takes[l].index;
        assert w == w';
      } else {
        var bs' := Deduct(bs, i, deduct);
        WalkTakesDistinct(bs', tail, remaining - deduct);
        WalkTakesFromOrder(bs', tail, remaining - deduct);
        var w' := WalkLine(bs', tail, remaining - deduct);
        var w := WalkLine(bs, order, remaining);
        assert i !in tail;
        forall k, l | 0 <= k < l < |w.takes| ensures w.takes[k].index != w.takes[l].index {
          assert w.takes[l] == w'.takes[l - 1];
          if k > 0 {
            assert w.takes[k] == w'.takes[k - 1];
          }
        }
      }
    }
  }

  /** Batches a line does not draw from are left as they were. */
  lemma {:induction false} WalkUntouched(bs: seq<Batch>, order: seq<nat>, remaining: int, j: nat)
    requires forall k :: 0 <= k < |order| ==> order[k] < |bs|
    requires j < |bs|
    requires !Taken(WalkLine(bs, order, remaining).takes, j)
    ensures WalkLine(bs, order, remaining).batches[j] == bs[j]
    decreases |order|
  {
    if order != [] && remaining > 0 {
      var i := order[0];
      var deduct := Min(bs[i].quantity, remaining);
      if deduct <= 0 {
        WalkUntouched(bs, order[1..], remaining, j);
      } else {
        var bs' := Deduct(bs, i, deduct);
        var w' := WalkLine(bs', order[1..], remaining - deduct);
        var w := WalkLine(bs, order, remaining);
        assert w.takes[0].index == i;
        forall k | 0 <= k < |w'.takes| ensures w'.takes[k].index != j {
          assert w.takes[k + 1] == w'.takes[k];
        }
        WalkUntouched(bs', order[1..], remaining - deduct, j);
      }
    }
  }

  /**
   * With every batch fetched once, each deduction is at most the batch's
   * stock and is subtracted from it.
   */
  lemma {:induction false} WalkAccounts(bs: seq<Batch>, order: seq<nat>, remaining: int)
    requires forall k :: 0 <= k < |order| ==> order[k] < |bs|
    requires Lists.Distinct(order)
    ensures Accounted(bs, WalkLine(bs, order, remaining))
    decreases |order|
  {
    WalkTakesFromOrder(bs, order, remaining);
    if order != [] && remaining > 0 {
      var i := order[0];
      var deduct := Min(bs[i].quantity, remaining);
      var tail := order[1..];
      assert forall k :: 0 <= k < |tail| ==> tail[k] == order[k + 1];
      Lists.DistinctTail(order);
      if deduct <= 0 {
        assert WalkLine(bs, order, remaining) == WalkLine(bs, tail, remaining);
        WalkAccounts(bs, tail, remaining);
      } else {
        var bs' := Deduct(bs, i, deduct);
        WalkAccounts(bs', tail, remaining - deduct);
        WalkTakesFromOrder(bs', tail, remaining - deduct);
        var w' := WalkLine(bs', tail, remaining - deduct);
        var w := WalkLine(bs, order, remaining);
        assert i !in tail;
        forall k | 0 <= k < |w.takes|
          ensures w.takes[k].amount <= bs[w.takes[k].index].quantity
          ensures w.batches[w.takes[k].index] == bs[w.takes[k].index].(quantity := bs[w.takes[k].index].quantity - w.takes[k].amount)
        {
          if k == 0 {
            HeadUntouchedByRest(bs', order, remaining - deduct);
          } else {
            assert w.takes[k] == w'.takes[k - 1];
            assert w'.takes[k - 1].index in tail;
          }
        }
      }
    }
  }

  /** The batch at the head of the order is not drawn from again later in the line. */
  lemma HeadUntouchedByRest(bs: seq<Batch>, order: seq<nat>, remaining: int)
    requires order != [] && forall k :: 0 <= k < |order| ==> order[k] < |bs|
    requires Lists.Distinct(order)
    ensures !Taken(WalkLine(bs, order[1..], remaining).takes, order[0])
    ensures WalkLine(bs, order[1..], remaining).batches[order[0]] == bs[order[0]]
  {
    var tail := order[1..];
    assert forall k :: 0 <= k < |tail| ==> tail[k] == order[k + 1];
    Lists.DistinctTail(order);
    WalkTakesFromOrder(bs, tail, remaining);
    var w := WalkLine(bs, tail, remaining);
    forall l | 0 <= l < |w.takes| ensures w.takes[l].index != order[0] {
      assert w.takes[l].index in tail;
    }
    WalkUntouched(bs, tail, remaining, order[0]);
  }

  /** When a line stays short, every batch it could use is empty or negative. */
  lemma {:induction false} WalkShortExhausts(bs: seq<Batch>, order: seq<nat>, remaining: int)
    requires forall k :: 0 <= k < |order| ==> order[k] < |bs|
    requires Lists.Distinct(order)
    ensures WalkLine(bs, order, remaining).remaining > 0 ==> Exhausted(WalkLine(bs, order, remaining), order)
    decreases |order|
  {
    if order != [] && remaining > 0 {
      var i := order[0];
      var deduct := Min(bs[i].quantity, remaining);
      var tail := order[1..];
      assert forall k :: 0 <= k < |tail| ==> tail[k] == order[k + 1];
      Lists.DistinctTail(order);
      var bs' := if deduct <= 0 then bs else Deduct(bs, i, deduct);
      var rem' := if deduct <= 0 then remaining else remaining - deduct;
      WalkShortExhausts(bs', tail, rem');
      WalkConserves(bs', tail, rem');
      var w' := WalkLine(bs', tail, rem');
      var w := WalkLine(bs, order, remaining);
      assert w.batches == w'.batches && w.remaining == w'.remaining;
      if w.remaining > 0 {
        HeadUntouchedByRest(bs', order, rem');
        assert bs'[i].quantity <= 0;
        forall k | 0 <= k < |order| ensures w.batches[order[k]].quantity <= 0 {
          if k > 0 {
            assert order[k] == tail[k - 1];
          }
        }
      }
    }
  }

  /**
   * First expiry, first out: a fetched batch is drawn from only when every
   * batch before it in the order is empty (or negative) once the line is done.
   */
  lemma {:induction false} WalkIsFefo(bs: seq<Batch>, order: seq<nat>, remaining: int)
    requires forall k :: 0 <= k < |order| ==> order[k] < |bs|
    requires Lists.Distinct(order)
    ensures DrawnInOrder(WalkLine(bs, order, remaining), order)
    decreases |order|
  {
    if order != [] && remaining > 0 {
      var i := order[0];
      var deduct := Min(bs[i].quantity, remaining);
      var tail := order[1..];
      assert forall k :: 0 <= k < |tail| ==> tail[k] == order[k + 1];
      Lists.DistinctTail(order);
      var bs' := if deduct <= 0 then bs else Deduct(bs, i, deduct);
      var rem' := if deduct <= 0 then remaining else remaining - deduct;
      WalkIsFefo(bs', tail, rem');
      WalkConserves(bs', tail, rem');
      HeadUntouchedByRest(bs', order, rem');
      var w' := WalkLine(bs', tail, rem');
      var w := WalkLine(bs, order, remaining);
      assert w.batches == w'.batches;
      forall p, q | 0 <= p < q < |order| && Taken(w.takes, order[q])
        ensures w.batches[order[p]].quantity <= 0
      {
        var k :| 0 <= k < |w.takes| && w.takes[k].index == order[q];
        assert order[q] != i;
        if deduct > 0 {
          assert w.takes == [Take(i, bs[i].id, bs[i].medicineId, deduct)] + w'.takes;
          assert k > 0 && w'.takes[k - 1].index == tail[q - 1];
        } else {
          assert w.takes == w'.takes;
          assert w'.takes[k].index == tail[q - 1];
        }
        assert Taken(w'.takes, tail[q - 1]);
        if p > 0 {
          assert order[p] == tail[p - 1];
        } else {
          // the line went on past the first batch, so that batch gave all it had
          assert w'.takes != [];
          assert bs'[i].quantity <= 0;
        }
      }
    }
  }

  // ------------------------------------------------------------ all lines

  /** One requested line: fetch its batches in FEFO order and walk them. */
  function Line(bs: seq<Batch>, it: DispenseItem, now: int): Walk
  {
    WalkLine(bs, FefoOrder(bs, it.medicineId, now), it.quantity)
  }

  /**
   * Each deduction of a line is positive, at most the batch's stock, and comes
   * from a non-expired batch of the line's medicine.
   */
  predicate LineTakesValid(bs: seq<Batch>, it: DispenseItem, now: int, ts: seq<Take>)
  {
    forall l :: 0 <= l < |ts| ==>
      ts[l].medicineId == it.medicineId && ts[l].index < |bs|
      && 0 < ts[l].amount <= bs[ts[l].index].quantity
      && Eligible(bs[ts[l].index], it.medicineId, now)
  }

  /**
   * One line only draws quantities down, none that fell below zero, and what
   * it took plus what is still owed is what it asked for.
   */
  lemma LineFacts(bs: seq<Batch>, it: DispenseItem, now: int)
    ensures OnlyDrawnDown(bs, Line(bs, it, now).batches)
    ensures Lists.Sum(Line(bs, it, now).takes, Amount) + Line(bs, it, now).remaining == it.quantity
    ensures it.quantity > 0 ==> Line(bs, it, now).remaining >= 0
    ensures it.quantity <= 0 ==> Line(bs, it, now) == Walk(bs, [], it.quantity)
    ensures LineTakesValid(bs, it, now, Line(bs, it, now).takes)
  {
    var order := FefoOrder(bs, it.medicineId, now);
    var w := WalkLine(bs, order, it.quantity);
    WalkConserves(bs, order, it.quantity);
    WalkTakesFromOrder(bs, order, it.quantity);
    WalkAccounts(bs, order, it.quantity);
    forall j | 0 <= j < |bs| ensures w.batches[j].quantity == bs[j].quantity || 0 <= w.batches[j].quantity < bs[j].quantity
    {
      if Taken(w.takes, j) {
        var k :| 0 <= k < |w.takes| && w.takes[k].index == j;
      } else {
        WalkUntouched(bs, order, it.quantity, j);
      }
    }
    forall l | 0 <= l < |w.takes| ensures Eligible(bs[w.takes[l].index], it.medicineId, now) {
      assert w.takes[l].index in order;
    }
  }

  /** A line left short used up every non-expired batch of its medicine. */
  lemma LineShortExhausts(bs: seq<Batch>, it: DispenseItem, now: int)
    ensures Line(bs, it, now).remaining > 0 ==>
      forall j :: 0 <= j < |bs| && Eligible(bs[j], it.medicineId, now) ==> Line(bs, it, now).batches[j].quantity <= 0
  {
    var order := FefoOrder(bs, it.medicineId, now);
    var w := WalkLine(bs, order, it.quantity);
    WalkShortExhausts(bs, order, it.quantity);
    if w.remaining > 0 {
      forall j | 0 <= j < |bs| && Eligible(bs[j], it.medicineId, now) ensures w.batches[j].quantity <= 0 {
        var k :| 0 <= k < |order| && order[k] == j;
      }
    }
  }

  /** How the transaction ends: the first line that was short, or the lines' deductions. */
  datatype Outcome = Short(medicineId: int) | Done(batches: seq<Batch>, lines: seq<seq<Take>>)

  /** The outer loop over the requested lines; each line's batch query sees the earlier lines' deductions. */
  function DispenseLines(bs: seq<Batch>, items: seq<DispenseItem>, now: int): Outcome
    decreases |items|
  {
    if items == [] then Done(bs, [])
    else
      var w := Line(bs, items[0], now);
      if w.remaining > 0 then Short(items[0].medicineId)
      else
        match DispenseLines(w.batches, items[1..], now)
        case Short(m) => Short(m)
        case Done(b, ls) => Done(b, [w.takes] + ls)
  }

  function Flatten(lines: seq<seq<Take>>): seq<Take>
  {
    if lines == [] then [] else lines[0] + Flatten(lines[1..])
  }

  lemma {:induction false} FlattenAppend(lines: seq<seq<Take>>, line: seq<Take>)
    ensures Flatten(lines + [line]) == Flatten(lines) + line
  {
    if lines != [] {
      assert (lines + [line])[1..] == lines[1..] + [line];
      FlattenAppend(lines[1..], line);
    } else {
      assert lines + [line] == [line];
    }
  }

  /**
   * A completed dispense has one group of deductions per requested line; it
   * only draws quantities down, and none that fell went below zero.
   */
  lemma {:induction false} DoneDrawsDown(bs: seq<Batch>, items: seq<DispenseItem>, now: int)
    requires DispenseLines(bs, items, now).Done?
    ensures |DispenseLines(bs, items, now).lines| == |items|
    ensures OnlyDrawnDown(bs, DispenseLines(bs, items, now).batches)
    decreases |items|
  {
    if items != [] {
      var w := Line(bs, items[0], now);
      LineFacts(bs, items[0], now);
      DoneDrawsDown(w.batches, items[1..], now);
    }
  }

  /** Each line's deductions sum to what the line asked for, and to nothing for a line asking for none. */
  lemma {:induction false} DoneLineSum(bs: seq<Batch>, items: seq<DispenseItem>, now: int, k: nat)
    requires DispenseLines(bs, items, now).Done?
    requires k < |items|
    ensures k < |DispenseLines(bs, items, now).lines|
    ensures Lists.Sum(DispenseLines(bs, items, now).lines[k], Amount) == Max0(items[k].quantity)
    decreases |items|
  {
    var w := Line(bs, items[0], now);
    LineFacts(bs, items[0], now);
    DoneDrawsDown(bs, items, now);
    var rest := DispenseLines(w.batches, items[1..], now);
    assert DispenseLines(bs, items, now).lines == [w.takes] + rest.lines;
    if k > 0 {
      DoneLineSum(w.batches, items[1..], now, k - 1);
      assert items[1..][k - 1] == items[k];
    }
  }

  /** Each deduction of a line is positive, within stock, and from a non-expired batch of the line's medicine. */
  lemma {:induction false} DoneLineValid(bs: seq<Batch>, items: seq<DispenseItem>, now: int, k: nat)
    requires DispenseLines(bs, items, now).Done?
    requires k < |items|
    ensures k < |DispenseLines(bs, items, now).lines|
    ensures LineTakesValid(bs, items[k], now, DispenseLines(bs, items, now).lines[k])
    decreases |items|
  {
    var w := Line(bs, items[0], now);
    LineFacts(bs, items[0], now);
    DoneDrawsDown(bs, items, now);
    var rest := DispenseLines(w.batches, items[1..], now);
    var out := DispenseLines(bs, items, now);
    assert out.lines == [w.takes] + rest.lines;
    if k > 0 {
      DoneLineValid(w.batches, items[1..], now, k - 1);
      assert out.lines[k] == rest.lines[k - 1];
      assert items[1..][k - 1] == items[k];
      TakesValidEarlier(bs, w.batches, items[k], now, out.lines[k]);
    }
  }

  /** Deductions valid against a drawn-down table are valid against the table before. */
  lemma TakesValidEarlier(bs: seq<Batch>, later: seq<Batch>, it: DispenseItem, now: int, ts: seq<Take>)
    requires OnlyDrawnDown(bs, later) && LineTakesValid(later, it, now, ts)
    ensures LineTakesValid(bs, it, now, ts)
  {
    forall l | 0 <= l < |ts|
      ensures ts[l].index < |bs| && ts[l].amount <= bs[ts[l].index].quantity
      ensures Eligible(bs[ts[l].index], it.medicineId, now)
    {
      var j := ts[l].index;
      assert later[j] == bs[j].(quantity := later[j].quantity);
    }
  }

  /** A line for a medicine with no non-expired stock cannot be met. */
  lemma NoStockIsShort(bs: seq<Batch>, items: seq<DispenseItem>, now: int)
    requires items != [] && items[0].quantity > 0
    requires forall j :: 0 <= j < |bs| && Eligible(bs[j], items[0].medicineId, now) ==> bs[j].quantity <= 0
    ensures DispenseLines(bs, items, now) == Short(items[0].medicineId)
  {
    LineFacts(bs, items[0], now);
  }

  /**
   * Within a line, a batch is drawn from only when every fetched batch that
   * expires strictly earlier is empty (or negative) once the line is done.
   */
  lemma LineIsFefo(bs: seq<Batch>, it: DispenseItem, now: int, drawn: nat, earlier: nat)
    requires drawn < |bs| && earlier < |bs|
    requires Eligible(bs[earlier], it.medicineId, now)
    requires bs[earlier].expiry < bs[drawn].expiry
    requires Taken(Line(bs, it, now).takes, drawn)
    ensures Line(bs, it, now).batches[earlier].quantity <= 0
  {
    var order := FefoOrder(bs, it.medicineId, now);
    WalkTakesFromOrder(bs, order, it.quantity);
    WalkIsFefo(bs, order, it.quantity);
    var w := WalkLine(bs, order, it.quantity);
    var k :| 0 <= k < |w.takes| && w.takes[k].index == drawn;
    assert drawn in order;
    var q :| 0 <= q < |order| && order[q] == drawn;
    var p :| 0 <= p < |order| && order[p] == earlier;
    assert p < q;
  }

  /** A line leaves every batch of another medicine, and every expired batch, as it was. */
  lemma LineUntouched(bs: seq<Batch>, it: DispenseItem, now: int, j: nat)
    requires j < |bs| && !Eligible(bs[j], it.medicineId, now)
    ensures Line(bs, it, now).batches[j] == bs[j]
  {
    var order := FefoOrder(bs, it.medicineId, now);
    WalkTakesFromOrder(bs, order, it.quantity);
    var w := WalkLine(bs, order, it.quantity);
    forall k | 0 <= k < |w.takes| ensures w.takes[k].index != j {
      var l :| 0 <= l < |order| && order[l] == w.takes[k].index;
    }
    WalkUntouched(bs, order, it.quantity, j);
  }

  /**
   * A completed dispense leaves a batch as it was when no line asks for its
   * medicine, or when it had expired.
   */
  lemma {:induction false} DoneUntouched(bs: seq<Batch>, items: seq<DispenseItem>, now: int, j: nat)
    requires DispenseLines(bs, items, now).Done? && j < |bs|
    requires bs[j].expiry < now || forall k :: 0 <= k < |items| ==> items[k].medicineId != bs[j].medicineId
    ensures |DispenseLines(bs, items, now).batches| == |bs|
    ensures DispenseLines(bs, items, now).batches[j] == bs[j]
    decreases |items|
  {
    DoneDrawsDown(bs, items, now);
    if items != [] {
      var w := Line(bs, items[0], now);
      LineFacts(bs, items[0], now);
      LineUntouched(bs, items[0], now, j);
      assert w.batches[j] == bs[j];
      assert forall k :: 0 <= k < |items[1..]| ==> items[1..][k] == items[k + 1];
      DoneUntouched(w.batches, items[1..], now, j);
    }
  }

  /** What a line asks for, counting a line of zero or fewer units as nothing. */
  function Requested(it: DispenseItem): int { Max0(it.quantity) }

  /**
   * The deductions of a completed dispense add up to the total asked for,
   * so the `OUT` logs and the receipt items it writes carry that total too.
   */
  lemma {:induction false} DoneTotal(bs: seq<Batch>, items: seq<DispenseItem>, now: int)
    requires DispenseLines(bs, items, now).Done?
    ensures Lists.Sum(Flatten(DispenseLines(bs, items, now).lines), Amount) == Lists.Sum(items, Requested)
    decreases |items|
  {
    if items != [] {
      var w := Line(bs, items[0], now);
      LineFacts(bs, items[0], now);
      var rest := DispenseLines(w.batches, items[1..], now);
      DoneTotal(w.batches, items[1..], now);
      var lines := DispenseLines(bs, items, now).lines;
      assert lines == [w.takes] + rest.lines;
      assert lines[1..] == rest.lines;
      Lists.SumAppend(w.takes, Flatten(rest.lines), Amount);
    }
  }

  /** A short outcome names the medicine of one of the requested lines. */
  lemma {:induction false} ShortNamesALine(bs: seq<Batch>, items: seq<DispenseItem>, now: int)
    requires DispenseLines(bs, items, now).Short?
    ensures exists k :: 0 <= k < |items| && items[k].medicineId == DispenseLines(bs, items, now).medicineId
    decreases |items|
  {
    var w := Line(bs, items[0], now);
    if w.remaining <= 0 {
      ShortNamesALine(w.batches, items[1..], now);
      var k :| 0 <= k < |items[1..]| && items[1..][k].medicineId == DispenseLines(w.batches, items[1..], now).medicineId;
      assert items[k + 1] == items[1..][k];
    }
  }

  // ------------------------------------------------------------ the service

  /** `batch.medicine.price ?? 0`. */
  function PriceOf(meds: seq<Medicine>, medicineId: int): int
  {
    match FindMedicine(meds, medicineId)
    case Some(k) => meds[k].price.GetOr(0)
    case None => 0
  }

  /** The stock log one deduction writes. */
  function OutLog(t: Take, user: Option<int>): StockLog
  {
    StockLog(Some(t.batchId), OutAction, t.amount, Some(DispenseNote), user)
  }

  /** The receipt item one deduction writes. */
  function ItemFor(t: Take, receiptId: int, meds: seq<Medicine>): ReceiptItem
  {
    ReceiptItem(receiptId, t.batchId, t.amount, PriceOf(meds, t.medicineId))
  }

  function OutLogs(ts: seq<Take>, user: Option<int>): (r: seq<StockLog>)
    ensures |r| == |ts|
    ensures forall k :: 0 <= k < |ts| ==> r[k] == OutLog(ts[k], user)
  {
    seq(|ts|, k requires 0 <= k < |ts| => OutLog(ts[k], user))
  }

  function ItemsFor(ts: seq<Take>, receiptId: int, meds: seq<Medicine>): (r: seq<ReceiptItem>)
    ensures |r| == |ts|
    ensures forall k :: 0 <= k < |ts| ==> r[k] == ItemFor(ts[k], receiptId, meds)
  {
    seq(|ts|, k requires 0 <= k < |ts| => ItemFor(ts[k], receiptId, meds))
  }

  /** Every deduction has its log and its receipt item, one for one and in the same order. */
  lemma LogsMatchItems(ts: seq<Take>, user: Option<int>, receiptId: int, meds: seq<Medicine>, k: nat)
    requires k < |ts|
    ensures |OutLogs(ts, user)| == |ItemsFor(ts, receiptId, meds)|
    ensures OutLogs(ts, user)[k].batchId == Some(ItemsFor(ts, receiptId, meds)[k].batchId)
    ensures OutLogs(ts, user)[k].quantityChange == ItemsFor(ts, receiptId, meds)[k].quantity
  {
  }

  function Resume(done: seq<seq<Take>>, rest: Outcome): Outcome
  {
    match rest
    case Short(m) => Short(m)
    case Done(b, ls) => Done(b, done + ls)
  }

  function Extend(done: seq<Take>, w: Walk): Walk
  {
    Walk(w.batches, done + w.takes, w.remaining)
  }

  /** One step of the inner loop, from position `j` of the fetched batches. */
  lemma WalkStep(bs: seq<Batch>, order: seq<nat>, j: nat, remaining: int)
    requires forall k :: 0 <= k < |order| ==> order[k] < |bs|
    requires j < |order| && remaining > 0
    ensures var i := order[j]; var d := Min(bs[i].quantity, remaining);
      WalkLine(bs, order[j..], remaining) ==
        if d <= 0 then WalkLine(bs, order[j + 1..], remaining)
        else Extend([Take(i, bs[i].id, bs[i].medicineId, d)], WalkLine(Deduct(bs, i, d), order[j + 1..], remaining - d))
  {
    assert order[j..][1..] == order[j + 1..];
  }

  lemma ExtendExtend(a: seq<Take>, b: seq<Take>, w: Walk)
    ensures Extend(a, Extend(b, w)) == Extend(a + b, w)
  {
    assert a + (b + w.takes) == (a + b) + w.takes;
  }

  lemma SameButQuantitiesKeepsIds(a: seq<Batch>, b: seq<Batch>, next: int)
    requires SameButQuantities(a, b) && BatchIdsFresh(a, next)
    ensures BatchIdsFresh(b, next)
  {
    assert forall j :: 0 <= j < |a| ==> b[j].id == a[j].id;
  }

  /**
   * Where the walk over the fetched batches stands at position `j`: the
   * deductions so far followed by the walk of the rest make the whole line,
   * and the logs and receipt items hold exactly those deductions.
   */
  ghost predicate DrawnSoFar(bs0: seq<Batch>, logs0: seq<StockLog>, items0: seq<ReceiptItem>,
                             order: seq<nat>, quantity: int, receiptId: int, user: Option<int>, meds: seq<Medicine>,
                             j: nat, line: seq<Take>, remaining: int,
                             bs: seq<Batch>, logs: seq<StockLog>, rItems: seq<ReceiptItem>)
    requires j <= |order|
  {
    && |bs| == |bs0|
    && (forall k :: 0 <= k < |order| ==> order[k] < |bs0|)
    && WalkLine(bs0, order, quantity) == Extend(line, WalkLine(bs, order[j..], remaining))
    && logs == logs0 + OutLogs(line, user)
    && rItems == items0 + ItemsFor(line, receiptId, meds)
  }

  /** Drawing `deduct > 0` from the batch at position `j` moves the walk on by one batch. */
  lemma DrawnSoFarStep(bs0: seq<Batch>, logs0: seq<StockLog>, items0: seq<ReceiptItem>,
                       order: seq<nat>, quantity: int, receiptId: int, user: Option<int>, meds: seq<Medicine>,
                       j: nat, line: seq<Take>, remaining: int,
                       bs: seq<Batch>, logs: seq<StockLog>, rItems: seq<ReceiptItem>)
    requires j < |order| && remaining > 0
    requires DrawnSoFar(bs0, logs0, items0, order, quantity, receiptId, user, meds, j, line, remaining, bs, logs, rItems)
    ensures var i := order[j]; var d := Min(bs[i].quantity, remaining); var t := Take(i, bs[i].id, bs[i].medicineId, d);
      if d <= 0 then
        DrawnSoFar(bs0, logs0, items0, order, quantity, receiptId, user, meds, j + 1, line, remaining, bs, logs, rItems)
      else
        DrawnSoFar(bs0, logs0, items0, order, quantity, receiptId, user, meds, j + 1, line + [t], remaining - d,
                   Deduct(bs, i, d), logs + [OutLog(t, user)], rItems + [ItemFor(t, receiptId, meds)])
  {
    var i := order[j];
    var d := Min(bs[i].quantity, remaining);
    WalkStep(bs, order, j, remaining);
    if d > 0 {
      var t := Take(i, bs[i].id, bs[i].medicineId, d);
      ExtendExtend(line, [t], WalkLine(Deduct(bs, i, d), order[j + 1..], remaining - d));
      RecordStep(line, t, user, receiptId, meds);
    }
  }

  /** A walk that stopped (nothing owed, or no batch left) is complete. */
  lemma DrawnSoFarDone(bs0: seq<Batch>, logs0: seq<StockLog>, items0: seq<ReceiptItem>,
                       order: seq<nat>, quantity: int, receiptId: int, user: Option<int>, meds: seq<Medicine>,
                       j: nat, line: seq<Take>, remaining: int,
                       bs: seq<Batch>, logs: seq<StockLog>, rItems: seq<ReceiptItem>)
    requires j <= |order| && (j == |order| || remaining <= 0)
    requires DrawnSoFar(bs0, logs0, items0, order, quantity, receiptId, user, meds, j, line, remaining, bs, logs, rItems)
    ensures WalkLine(bs0, order, quantity) == Walk(bs, line, remaining)
  {
    assert WalkLine(bs, order[j..], remaining) == Walk(bs, [], remaining);
    assert line + [] == line;
  }

  /**
   * The inner loop `for (const batch of batches)`: draw `quantity` units from
   * the fetched batches in order, writing a log and a receipt item per
   * deduction. Returns what is still owed.
   */
  method DrawFromBatches(db: Database, order: seq<nat>, quantity: int, receiptId: int, user: Option<int>)
    returns (remaining: int, ghost line: seq<Take>)
    requires forall k :: 0 <= k < |order| ==> order[k] < |db.batches|
    modifies db
    ensures WalkLine(old(db.batches), order, quantity) == Walk(db.batches, line, remaining)
    ensures db.logs == old(db.logs) + OutLogs(line, user)
    ensures db.receiptItems == old(db.receiptItems) + ItemsFor(line, receiptId, db.medicines)
    ensures db.medicines == old(db.medicines) && db.users == old(db.users) && db.receipts == old(db.receipts)
    ensures db.nextMedicineId == old(db.nextMedicineId) && db.nextBatchId == old(db.nextBatchId)
    ensures db.nextReceiptId == old(db.nextReceiptId)
  {
    remaining := quantity;
    line := [];
    var j := 0;
    assert order[0..] == order;
    while j < |order| && remaining > 0
      invariant 0 <= j <= |order|
      invariant db.medicines == old(db.medicines) && db.users == old(db.users) && db.receipts == old(db.receipts)
      invariant db.nextMedicineId == old(db.nextMedicineId) && db.nextBatchId == old(db.nextBatchId)
      invariant db.nextReceiptId == old(db.nextReceiptId)
      invariant DrawnSoFar(old(db.batches), old(db.logs), old(db.receiptItems), order, quantity, receiptId, user,
                           db.medicines, j, line, remaining, db.batches, db.logs, db.receiptItems)
    {
      var i := order[j];
      var batch := db.batches[i];
      var deduct := Min(batch.quantity, remaining);
      DrawnSoFarStep(old(db.batches), old(db.logs), old(db.receiptItems), order, quantity, receiptId, user,
                     db.medicines, j, line, remaining, db.batches, db.logs, db.receiptItems);
      // a batch with nothing to give is skipped (`continue`)
      if deduct > 0 {
        ghost var t := Take(i, batch.id, batch.medicineId, deduct);
        db.batches := Deduct(db.batches, i, deduct);
        db.logs := db.logs + [StockLog(Some(batch.id), OutAction, deduct, Some(DispenseNote), user)];
        db.receiptItems := db.receiptItems + [ReceiptItem(receiptId, batch.id, deduct, PriceOf(db.medicines, batch.medicineId))];
        line := line + [t];
        remaining := remaining - deduct;
      }
      j := j + 1;
    }
    DrawnSoFarDone(old(db.batches), old(db.logs), old(db.receiptItems), order, quantity, receiptId, user,
                   db.medicines, j, line, remaining, db.batches, db.logs, db.receiptItems);
  }

  /**
   * The body of `for (const it of items)`: fetch the line's non-expired
   * batches in FEFO order, then draw from them.
   */
  method DispenseLine(db: Database, it: DispenseItem, now: int, receiptId: int, user: Option<int>)
    returns (remaining: int, ghost line: seq<Take>)
    modifies db
    ensures Line(old(db.batches), it, now) == Walk(db.batches, line, remaining)
    ensures SameButQuantities(old(db.batches), db.batches)
    ensures db.logs == old(db.logs) + OutLogs(line, user)
    ensures db.receiptItems == old(db.receiptItems) + ItemsFor(line, receiptId, db.medicines)
    ensures db.medicines == old(db.medicines) && db.users == old(db.users) && db.receipts == old(db.receipts)
    ensures db.nextMedicineId == old(db.nextMedicineId) && db.nextBatchId == old(db.nextBatchId)
    ensures db.nextReceiptId == old(db.nextReceiptId)
  {
    LineFacts(db.batches, it, now);
    var order := FefoOrder(db.batches, it.medicineId, now);
    remaining, line := DrawFromBatches(db, order, it.quantity, receiptId, user);
  }

  /**
   * Where the loop over the lines stands after the first `k` lines: the
   * outcome of all lines is theirs followed by that of the rest, and the logs
   * and receipt items hold exactly their deductions.
   */
  ghost predicate LinesSoFar(bs0: seq<Batch>, logs0: seq<StockLog>, items0: seq<ReceiptItem>,
                             items: seq<DispenseItem>, now: int, receiptId: int, user: Option<int>, meds: seq<Medicine>,
                             k: nat, lines: seq<seq<Take>>,
                             bs: seq<Batch>, logs: seq<StockLog>, rItems: seq<ReceiptItem>)
    requires k <= |items|
  {
    && DispenseLines(bs0, items, now) == Resume(lines, DispenseLines(bs, items[k..], now))
    && SameButQuantities(bs0, bs)
    && logs == logs0 + OutLogs(Flatten(lines), user)
    && rItems == items0 + ItemsFor(Flatten(lines), receiptId, meds)
  }

  /** Line `k` met in full moves the loop on by one line. */
  lemma LinesSoFarStep(bs0: seq<Batch>, logs0: seq<StockLog>, items0: seq<ReceiptItem>,
                       items: seq<DispenseItem>, now: int, receiptId: int, user: Option<int>, meds: seq<Medicine>,
                       k: nat, lines: seq<seq<Take>>,
                       bs: seq<Batch>, logs: seq<StockLog>, rItems: seq<ReceiptItem>,
                       line: seq<Take>, bs': seq<Batch>)
    requires k < |items|
    requires LinesSoFar(bs0, logs0, items0, items, now, receiptId, user, meds, k, lines, bs, logs, rItems)
    requires Line(bs, items[k], now) == Walk(bs', line, Line(bs, items[k], now).remaining)
    ensures Line(bs, items[k], now).remaining > 0 ==> DispenseLines(bs0, items, now) == Short(items[k].medicineId)
    ensures SameButQuantities(bs0, bs')
    ensures Line(bs, items[k], now).remaining <= 0 ==>
      LinesSoFar(bs0, logs0, items0, items, now, receiptId, user, meds, k + 1, lines + [line],
                 bs', logs + OutLogs(line, user), rItems + ItemsFor(line, receiptId, meds))
  {
    LinesStep(bs, items, k, now);
    LineFacts(bs, items[k], now);
    SameButQuantitiesTransitive(bs0, bs, bs');
    if Line(bs, items[k], now).remaining <= 0 {
      LogsGrow(logs0, logs, lines, line, user);
      ItemsGrow(items0, rItems, lines, line, receiptId, meds);
      ResumeAppend(lines, line, DispenseLines(bs', items[k + 1..], now));
    }
  }

  /** After the last line the outcome is the deductions made. */
  lemma LinesSoFarDone(bs0: seq<Batch>, logs0: seq<StockLog>, items0: seq<ReceiptItem>,
                       items: seq<DispenseItem>, now: int, receiptId: int, user: Option<int>, meds: seq<Medicine>,
                       lines: seq<seq<Take>>, bs: seq<Batch>, logs: seq<StockLog>, rItems: seq<ReceiptItem>)
    requires LinesSoFar(bs0, logs0, items0, items, now, receiptId, user, meds, |items|, lines, bs, logs, rItems)
    ensures DispenseLines(bs0, items, now) == Done(bs, lines)
  {
    assert items[|items|..] == [];
    assert lines + [] == lines;
  }

  /**
   * The loop `for (const it of items)` inside the transaction: every line in
   * turn, stopping at the first one that cannot be met. On a short line the
   * tables are left part-way (the caller rolls them back).
   */
  method DispenseLinesLoop(db: Database, items: seq<DispenseItem>, now: int, receiptId: int, user: Option<int>)
    returns (short: Option<int>)
    modifies db
    ensures db.medicines == old(db.medicines) && db.users == old(db.users) && db.receipts == old(db.receipts)
    ensures db.nextMedicineId == old(db.nextMedicineId) && db.nextBatchId == old(db.nextBatchId)
    ensures db.nextReceiptId == old(db.nextReceiptId)
    ensures SameButQuantities(old(db.batches), db.batches)
    ensures match DispenseLines(old(db.batches), items, now)
      case Short(m) => short == Some(m)
      case Done(b, lines) =>
        && short == None
        && db.batches == b
        && db.logs == old(db.logs) + OutLogs(Flatten(lines), user)
        && db.receiptItems == old(db.receiptItems) + ItemsFor(Flatten(lines), receiptId, db.medicines)
  {
    ghost var lines: seq<seq<Take>> := [];
    var k := 0;
    while k < |items|
      invariant 0 <= k <= |items|
      invariant db.medicines == old(db.medicines) && db.users == old(db.users) && db.receipts == old(db.receipts)
      invariant db.nextMedicineId == old(db.nextMedicineId) && db.nextBatchId == old(db.nextBatchId)
      invariant db.nextReceiptId == old(db.nextReceiptId)
      invariant LinesSoFar(old(db.batches), old(db.logs), old(db.receiptItems), items, now, receiptId, user,
                           db.medicines, k, lines, db.batches, db.logs, db.receiptItems)
    {
      ghost var bs, logs, rItems := db.batches, db.logs, db.receiptItems;
      var remaining, line := DispenseLine(db, items[k], now, receiptId, user);
      LinesSoFarStep(old(db.batches), old(db.logs), old(db.receiptItems), items, now, receiptId, user,
                     db.medicines, k, lines, bs, logs, rItems, line, db.batches);
      if remaining > 0 {
        return Some(items[k].medicineId);
      }
      lines := lines + [line];
      k := k + 1;
    }
    LinesSoFarDone(old(db.batches), old(db.logs), old(db.receiptItems), items, now, receiptId, user,
                   db.medicines, lines, db.batches, db.logs, db.receiptItems);
    short := None;
  }

  /**
   * `dispense(items, patientName, userId)`: on success the batch table, the
   * logs and the receipt items are what the lines' deductions make them and
   * the new receipt is returned; on a short line nothing is kept but the
   * used-up receipt id (identity values are not handed back on rollback).
   */
  method Dispense(db: Database, items: seq<DispenseItem>, patientName: Option<string>, userId: Option<int>, now: int)
    returns (r: Result<Receipt, DispenseError>)
    modifies db
    ensures db.medicines == old(db.medicines) && db.users == old(db.users)
    ensures db.nextMedicineId == old(db.nextMedicineId) && db.nextBatchId == old(db.nextBatchId)
    ensures db.nextReceiptId == old(db.nextReceiptId) + 1
    ensures match DispenseLines(old(db.batches), items, now)
      case Short(m) =>
        && r == Failure(NotEnoughStock(m))
        && db.batches == old(db.batches) && db.logs == old(db.logs)
        && db.receipts == old(db.receipts) && db.receiptItems == old(db.receiptItems)
      case Done(b, lines) =>
        var receipt := Receipt(old(db.nextReceiptId), ResolveUser(userId, old(db.users)),
                               patientName.GetOr(WalkInCustomer), Lists.Sum(items, Quantity));
        && r == Success(receipt)
        && db.batches == b
        && db.receipts == old(db.receipts) + [receipt]
        && db.logs == old(db.logs) + OutLogs(Flatten(lines), receipt.userId)
        && db.receiptItems == old(db.receiptItems) + ItemsFor(Flatten(lines), receipt.id, old(db.medicines))
  {
    var user := ResolveUser(userId, db.users);
    var name := if patientName.Some? then patientName.value else WalkInCustomer;
    var totalItems := Lists.Sum(items, Quantity);
    var savedBatches, savedLogs, savedReceipts, savedItems := db.batches, db.logs, db.receipts, db.receiptItems;
    var receipt := Receipt(db.nextReceiptId, user, name, totalItems);
    db.receipts := db.receipts + [receipt];
    db.nextReceiptId := db.nextReceiptId + 1;
    var short := DispenseLinesLoop(db, items, now, receipt.id, user);
    if short.Some? {
      // the transaction is rolled back; the identity value stays used
      db.batches, db.logs, db.receipts, db.receiptItems := savedBatches, savedLogs, savedReceipts, savedItems;
      return Failure(NotEnoughStock(short.value));
    }
    r := Success(receipt);
  }

  /** The outcome of the lines from `k` on, by the outcome of line `k`. */
  lemma LinesStep(bs: seq<Batch>, items: seq<DispenseItem>, k: nat, now: int)
    requires k < |items|
    ensures Line(bs, items[k], now).remaining > 0 ==> DispenseLines(bs, items[k..], now) == Short(items[k].medicineId)
    ensures Line(bs, items[k], now).remaining <= 0 ==>
      DispenseLines(bs, items[k..], now) ==
        Resume([Line(bs, items[k], now).takes], DispenseLines(Line(bs, items[k], now).batches, items[k + 1..], now))
  {
    assert items[k..][0] == items[k] && items[k..][1..] == items[k + 1..];
  }

  /** One more deduction adds its log and its receipt item at the end. */
  lemma RecordStep(line: seq<Take>, t: Take, user: Option<int>, receiptId: int, meds: seq<Medicine>)
    ensures OutLogs(line + [t], user) == OutLogs(line, user) + [OutLog(t, user)]
    ensures ItemsFor(line + [t], receiptId, meds) == ItemsFor(line, receiptId, meds) + [ItemFor(t, receiptId, meds)]
  {
  }

  lemma LogsGrow(saved: seq<StockLog>, logs: seq<StockLog>, lines: seq<seq<Take>>, line: seq<Take>, user: Option<int>)
    requires logs == saved + OutLogs(Flatten(lines), user)
    ensures logs + OutLogs(line, user) == saved + OutLogs(Flatten(lines + [line]), user)
  {
    FlattenAppend(lines, line);
    OutLogsAppend(Flatten(lines), line, user);
  }

  lemma ItemsGrow(saved: seq<ReceiptItem>, items: seq<ReceiptItem>, lines: seq<seq<Take>>, line: seq<Take>,
                  receiptId: int, meds: seq<Medicine>)
    requires items == saved + ItemsFor(Flatten(lines), receiptId, meds)
    ensures items + ItemsFor(line, receiptId, meds) == saved + ItemsFor(Flatten(lines + [line]), receiptId, meds)
  {
    FlattenAppend(lines, line);
    ItemsForAppend(Flatten(lines), line, receiptId, meds);
  }

  /**
   * A dispense keeps the identity columns consistent: on success the batch
   * table only changed in quantities and the new receipt takes the next id;
   * on a short line the tables are as they were but the id is used up.
   */
  lemma DispenseKeepsConsistent(meds: seq<Medicine>, bs: seq<Batch>, rs: seq<Receipt>, items: seq<DispenseItem>,
                                now: int, receipt: Receipt, nm: int, nb: int, nr: int)
    requires Consistent(meds, bs, rs, nm, nb, nr) && receipt.id == nr
    ensures DispenseLines(bs, items, now).Done? ==>
      Consistent(meds, DispenseLines(bs, items, now).batches, rs + [receipt], nm, nb, nr + 1)
    ensures Consistent(meds, bs, rs, nm, nb, nr + 1)
  {
    if DispenseLines(bs, items, now).Done? {
      DoneDrawsDown(bs, items, now);
      SameButQuantitiesKeepsIds(bs, DispenseLines(bs, items, now).batches, nb);
    }
  }

  lemma OutLogsAppend(a: seq<Take>, b: seq<Take>, user: Option<int>)
    ensures OutLogs(a + b, user) == OutLogs(a, user) + OutLogs(b, user)
  {
  }

  lemma ItemsForAppend(a: seq<Take>, b: seq<Take>, receiptId: int, meds: seq<Medicine>)
    ensures ItemsFor(a + b, receiptId, meds) == ItemsFor(a, receiptId, meds) + ItemsFor(b, receiptId, meds)
  {
  }

  lemma ResumeAppend(lines: seq<seq<Take>>, line: seq<Take>, rest: Outcome)
    ensures Resume(lines, Resume([line], rest)) == Resume(lines + [line], rest)
  {
    if rest.Done? {
      assert lines + ([line] + rest.lines) == (lines + [line]) + rest.lines;
    }
  }

  lemma SameButQuantitiesTransitive(a: seq<Batch>, b: seq<Batch>, c: seq<Batch>)
    requires SameButQuantities(a, b) && SameButQuantities(b, c)
    ensures SameButQuantities(a, c)
  {
  }
}
