/**
 * The reorder list (`useMedicineStore`): the medicines chosen for a
 * purchase order, each at most once, with a quantity.
 */
module ReorderStore {
  import opened Wrappers
  import Lists
  import QuantityLimits

  /** `AddItemPayload` of the reorder list. */
  datatype Pick = Pick(id: int, name: string, genericName: string, unitId: Option<int>, unitName: Option<string>,
                       price: int, totalStock: Option<int>)

  /** `ReorderItemState`. */
  datatype ReorderItem = ReorderItem(pick: Pick, quantity: int)

  function Ids(items: seq<ReorderItem>): (r: seq<int>)
    ensures |r| == |items|
    ensures forall k :: 0 <= k < |items| ==> r[k] == items[k].pick.id
  {
    if items == [] then [] else [items[0].pick.id] + Ids(items[1..])
  }

  /** The item `addItem` appends: quantity 1 whatever the stock. */
  function NewItem(p: Pick): (r: ReorderItem)
    ensures r.pick == p && r.quantity == 1
  {
    ReorderItem(p, QuantityLimits.Clamp(1, p.totalStock))
  }

  function Bumped(items: seq<ReorderItem>, id: int): (r: seq<ReorderItem>)
    ensures |r| == |items|
    ensures forall k :: 0 <= k < |items| ==>
      r[k] == if items[k].pick.id == id then items[k].(quantity := QuantityLimits.Bump(items[k].quantity, items[k].pick.totalStock)) else items[k]
  {
    if items == [] then []
    else
      var head := if items[0].pick.id == id then items[0].(quantity := QuantityLimits.Bump(items[0].quantity, items[0].pick.totalStock)) else items[0];
      [head] + Bumped(items[1..], id)
  }

  /** `addItem`: a held medicine gets one more (capped by its stock), a new one is appended. */
  function Added(items: seq<ReorderItem>, p: Pick): (r: seq<ReorderItem>)
    ensures p.id in Ids(items) ==> r == Bumped(items, p.id)
    ensures p.id !in Ids(items) ==> r == items + [NewItem(p)]
    ensures Ids(r) == if p.id in Ids(items) then Ids(items) else Ids(items) + [p.id]
  {
    if p.id in Ids(items) then
      assert Ids(Bumped(items, p.id)) == Ids(items);
      Bumped(items, p.id)
    else
      assert Ids(items + [NewItem(p)]) == Ids(items) + [p.id];
      items + [NewItem(p)]
  }

  lemma AddedKeepsDistinct(items: seq<ReorderItem>, p: Pick)
    requires Lists.Distinct(Ids(items))
    ensures Lists.Distinct(Ids(Added(items, p)))
  {
    if p.id !in Ids(items) {
      var ids := Ids(items) + [p.id];
      forall i, j | 0 <= i < j < |ids|
        ensures ids[i] != ids[j]
      {
        if j == |ids| - 1 {
          assert ids[i] in Ids(items);
        }
      }
    }
  }

  /** `updateQuantity`: only that item, clamped into `[1, stock]`. */
  function WithQuantity(items: seq<ReorderItem>, id: int, q: int): (r: seq<ReorderItem>)
    ensures |r| == |items| && Ids(r) == Ids(items)
    ensures forall k :: 0 <= k < |items| ==>
      r[k] == if items[k].pick.id == id then items[k].(quantity := QuantityLimits.Clamp(q, items[k].pick.totalStock)) else items[k]
    ensures forall k :: 0 <= k < |items| && items[k].pick.id == id ==> r[k].quantity >= 1
  {
    if items == [] then []
    else
      var head := if items[0].pick.id == id then items[0].(quantity := QuantityLimits.Clamp(q, items[0].pick.totalStock)) else items[0];
      [head] + WithQuantity(items[1..], id, q)
  }

  /** `removeItem`: the id goes; the rest keep their order. */
  function Without(items: seq<ReorderItem>, id: int): (r: seq<ReorderItem>)
    ensures |r| <= |items|
    ensures forall x :: x in r <==> x in items && x.pick.id != id
    ensures Ids(r) == Lists.Remove(Ids(items), id)
  {
    if items == [] then []
    else
      var rest := Without(items[1..], id);
      if items[0].pick.id == id then rest
      else
        assert Ids([items[0]] + rest) == [items[0].pick.id] + Ids(rest);
        [items[0]] + rest
  }

  lemma {:induction false} WithoutAppend(a: seq<ReorderItem>, b: seq<ReorderItem>, id: int)
    ensures Without(a + b, id) == Without(a, id) + Without(b, id)
  {
    if a != [] {
      assert (a + b)[1..] == a[1..] + b;
      WithoutAppend(a[1..], b, id);
    } else {
      assert a + b == b;
    }
  }

  /** Adding a medicine not on the list and removing it again gives back the list. */
  lemma AddThenRemove(items: seq<ReorderItem>, p: Pick)
    requires p.id !in Ids(items)
    ensures Without(Added(items, p), p.id) == items
  {
    WithoutAppend(items, [NewItem(p)], p.id);
    assert Without(items, p.id) == items by {
      assert forall x :: x in items ==> x.pick.id != p.id;
      WithoutKeeps(items, p.id);
    }
  }

  lemma {:induction false} WithoutKeeps(items: seq<ReorderItem>, id: int)
    requires forall x :: x in items ==> x.pick.id != id
    ensures Without(items, id) == items
  {
    if items != [] {
      assert items[0] in items;
      WithoutKeeps(items[1..], id);
    }
  }

  class Reorder {
    var selectedItems: seq<ReorderItem>

    /** No medicine is listed twice. */
    ghost predicate Valid()
      reads this
    {
      Lists.Distinct(Ids(selectedItems))
    }

    constructor ()
      ensures Valid() && selectedItems == []
    {
      selectedItems := [];
    }

    method AddItem(p: Pick)
      requires Valid()
      modifies this
      ensures Valid()
      ensures selectedItems == Added(old(selectedItems), p)
    {
      AddedKeepsDistinct(selectedItems, p);
      selectedItems := Added(selectedItems, p);
    }

    method UpdateQuantity(id: int, q: int)
      requires Valid()
      modifies this
      ensures Valid()
      ensures selectedItems == WithQuantity(old(selectedItems), id, q)
    {
      selectedItems := WithQuantity(selectedItems, id, q);
    }

    method RemoveItem(id: int)
      requires Valid()
      modifies this
      ensures Valid()
      ensures selectedItems == Without(old(selectedItems), id)
    {
      Lists.RemoveKeepsDistinct(Ids(selectedItems), id);
      selectedItems := Without(selectedItems, id);
    }

    method ResetItems()
      modifies this
      ensures Valid() && selectedItems == []
    {
      selectedItems := [];
    }
  }
}
