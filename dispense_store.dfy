/**
 * The dispense cart (`useDispenseStore`): the medicines picked for a
 * dispense, each at most once, with a quantity and instructions.
 */
module DispenseStore {
  import opened Wrappers
  import Lists
  import QuantityLimits

  /** `AddItemPayload`: a medicine as the cart receives it. */
  datatype Pick = Pick(id: int, name: string, genericName: string, unitId: Option<int>, unitName: Option<string>,
                       price: int, totalStock: Option<int>, imageUrl: Option<string>)

  /** `DispenseItemState`. */
  datatype CartItem = CartItem(pick: Pick, quantity: int, dosage: string, frequency: string, duration: string)

  datatype Instruction = Dosage | Frequency | Duration

  function Id(item: CartItem): int { item.pick.id }

  /** The ids of the items, in cart order. */
  function Ids(items: seq<CartItem>): (r: seq<int>)
    ensures |r| == |items|
    ensures forall k :: 0 <= k < |items| ==> r[k] == items[k].pick.id
  {
    if items == [] then [] else [items[0].pick.id] + Ids(items[1..])
  }

  /** The item `addItem` appends: quantity 1 and no instructions. */
  function NewItem(p: Pick): (r: CartItem)
    ensures r.pick == p && r.quantity == 1 && r.dosage == "" && r.frequency == "" && r.duration == ""
  {
    CartItem(p, QuantityLimits.Clamp(1, p.totalStock), "", "", "")
  }

  /** The item with that id gets one more unit, capped by its stock; the others stay. */
  function Bumped(items: seq<CartItem>, id: int): (r: seq<CartItem>)
    ensures |r| == |items|
    ensures forall k :: 0 <= k < |items| ==>
      r[k] == if items[k].pick.id == id then items[k].(quantity := QuantityLimits.Bump(items[k].quantity, items[k].pick.totalStock)) else items[k]
  {
    if items == [] then []
    else
      var head := if items[0].pick.id == id then items[0].(quantity := QuantityLimits.Bump(items[0].quantity, items[0].pick.totalStock)) else items[0];
      [head] + Bumped(items[1..], id)
  }

  /** `addItem`: a held medicine is bumped in place, a new one appended at the end. */
  function Added(items: seq<CartItem>, p: Pick): (r: seq<CartItem>)
    ensures p.id in Ids(items) ==> r == Bumped(items, p.id)
    ensures p.id !in Ids(items) ==> r == items + [NewItem(p)]
    ensures Ids(r) == if p.id in Ids(items) then Ids(items) else Ids(items) + [p.id]
  {
    if p.id in Ids(items) then
      assert Ids(Bumped(items, p.id)) == Ids(items);
      Bumped(items, p.id)
    else
      assert Ids(items + [NewItem(p)]) == Ids(items) + [p.id];
      items + [NewItem(p)]
  }

  /** Adding never repeats an id. */
  lemma AddedKeepsDistinct(items: seq<CartItem>, p: Pick)
    requires Lists.Distinct(Ids(items))
    ensures Lists.Distinct(Ids(Added(items, p)))
  {
    if p.id !in Ids(items) {
      Lists.DistinctCons(p.id, []);
      var ids := Ids(items) + [p.id];
      forall i, j | 0 <= i < j < |ids|
        ensures ids[i] != ids[j]
      {
        if j == |ids| - 1 {
          assert ids[i] in Ids(items);
        }
      }
    }
  }

  /** `updateQuantity`: only that item's quantity, clamped into `[1, stock]`. */
  function WithQuantity(items: seq<CartItem>, id: int, q: int): (r: seq<CartItem>)
    ensures |r| == |items| && Ids(r) == Ids(items)
    ensures forall k :: 0 <= k < |items| ==>
      r[k] == if items[k].pick.id == id then items[k].(quantity := QuantityLimits.Clamp(q, items[k].pick.totalStock)) else items[k]
    ensures forall k :: 0 <= k < |items| && items[k].pick.id == id ==> r[k].quantity >= 1
  {
    if items == [] then []
    else
      var head := if items[0].pick.id == id then items[0].(quantity := QuantityLimits.Clamp(q, items[0].pick.totalStock)) else items[0];
      [head] + WithQuantity(items[1..], id, q)
  }

  function SetInstruction(item: CartItem, field: Instruction, value: string): (r: CartItem)
    ensures r.pick == item.pick && r.quantity == item.quantity
    ensures r.dosage == (if field == Dosage then value else item.dosage)
    ensures r.frequency == (if field == Frequency then value else item.frequency)
    ensures r.duration == (if field == Duration then value else item.duration)
  {
    match field
    case Dosage => item.(dosage := value)
    case Frequency => item.(frequency := value)
    case Duration => item.(duration := value)
  }

  /** `updateInstruction`: only that field of that item. */
  function WithInstruction(items: seq<CartItem>, id: int, field: Instruction, value: string): (r: seq<CartItem>)
    ensures |r| == |items| && Ids(r) == Ids(items)
    ensures forall k :: 0 <= k < |items| ==> r[k] == if items[k].pick.id == id then SetInstruction(items[k], field, value) else items[k]
  {
    if items == [] then []
    else
      var head := if items[0].pick.id == id then SetInstruction(items[0], field, value) else items[0];
      [head] + WithInstruction(items[1..], id, field, value)
  }

  /** `removeItem`: every item with that id goes; the rest keep their order. */
  function Without(items: seq<CartItem>, id: int): (r: seq<CartItem>)
    ensures |r| <= |items|
    ensures forall x :: x in r <==> x in items && x.pick.id != id
    ensures id !in Ids(r)
    ensures Ids(r) == Lists.Remove(Ids(items), id)
  {
    if items == [] then []
    else
      var rest := Without(items[1..], id);
      if items[0].pick.id == id then rest
      else
        assert Ids([items[0]] + rest) == [items[0].pick.id] + Ids(rest);
        [items[0]] + rest
  }

  /** The cart as a class: one field, replaced by each action. */
  class Cart {
    var selectedItems: seq<CartItem>

    /** No medicine appears twice in the cart. */
    ghost predicate Valid()
      reads this
    {
      Lists.Distinct(Ids(selectedItems))
    }

    constructor ()
      ensures Valid() && selectedItems == []
    {
      selectedItems := [];
    }

    method AddItem(p: Pick)
      requires Valid()
      modifies this
      ensures Valid()
      ensures selectedItems == Added(old(selectedItems), p)
    {
      AddedKeepsDistinct(selectedItems, p);
      selectedItems := Added(selectedItems, p);
    }

    method UpdateQuantity(id: int, q: int)
      requires Valid()
      modifies this
      ensures Valid()
      ensures selectedItems == WithQuantity(old(selectedItems), id, q)
    {
      selectedItems := WithQuantity(selectedItems, id, q);
    }

    method UpdateInstruction(id: int, field: Instruction, value: string)
      requires Valid()
      modifies this
      ensures Valid()
      ensures selectedItems == WithInstruction(old(selectedItems), id, field, value)
    {
      selectedItems := WithInstruction(selectedItems, id, field, value);
    }

    method RemoveItem(id: int)
      requires Valid()
      modifies this
      ensures Valid()
      ensures selectedItems == Without(old(selectedItems), id)
    {
      Lists.RemoveKeepsDistinct(Ids(selectedItems), id);
      selectedItems := Without(selectedItems, id);
    }

    method ResetItems()
      modifies this
      ensures Valid() && selectedItems == []
    {
      selectedItems := [];
    }
  }

  /** Adding a new medicine and removing it again gives back the cart. */
  lemma AddThenRemove(items: seq<CartItem>, p: Pick)
    requires p.id !in Ids(items)
    ensures Without(Added(items, p), p.id) == items
  {
    WithoutAbsent(items, p.id);
    WithoutAppend(items, [NewItem(p)], p.id);
  }

  lemma {:induction false} WithoutAbsent(items: seq<CartItem>, id: int)
    requires id !in Ids(items)
    ensures Without(items, id) == items
  {
    if items != [] {
      assert Ids(items)[0] == items[0].pick.id;
      assert Ids(items[1..]) == Ids(items)[1..];
      WithoutAbsent(items[1..], id);
    }
  }

  lemma {:induction false} WithoutAppend(a: seq<CartItem>, b: seq<CartItem>, id: int)
    ensures Without(a + b, id) == Without(a, id) + Without(b, id)
  {
    if a != [] {
      assert (a + b)[1..] == a[1..] + b;
      WithoutAppend(a[1..], b, id);
    } else {
      assert a + b == b;
    }
  }
}
