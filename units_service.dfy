/**
 * The unit registry (`UnitsService`): names are stored trimmed and no two
 * units share a name; `findAll` lists every unit in name order, and
 * removing a unit deletes its row.
 */
module UnitsService {
  import opened Wrappers
  import Text
  import Sorting

  /** A row of `units`. */
  datatype Unit = Unit(id: int, name: string)

  datatype UnitError =
    | NotFound(id: int)              // "Unit with ID … not found"
    | NameTaken(name: string)        // "Unit with name … already exists in the system"

  /** The answer of `remove`: `{ removed: true, id }`. */
  datatype Removed = Removed(removed: bool, id: int)

  /** `ORDER BY name ASC`. */
  predicate ByName(a: Unit, b: Unit) { Text.LessEq(a.name, b.name) }

  lemma ByNameTotalPreorder()
    ensures Sorting.TotalPreorder(ByName)
  {
    forall a: Unit, b: Unit
      ensures ByName(a, b) || ByName(b, a)
    {
      Text.LessEqTotal(a.name, b.name);
    }
    forall a: Unit, b: Unit, c: Unit | ByName(a, b) && ByName(b, c)
      ensures ByName(a, c)
    {
      Text.LessEqTransitive(a.name, b.name, c.name);
    }
  }

  function IndexOfId(rows: seq<Unit>, id: int): (r: Option<nat>)
    ensures r.Some? ==> r.value < |rows| && rows[r.value].id == id
    ensures r.None? ==> forall k :: 0 <= k < |rows| ==> rows[k].id != id
  {
    if rows == [] then None
    else if rows[|rows| - 1].id == id then Some(|rows| - 1)
    else IndexOfId(rows[..|rows| - 1], id)
  }

  function IndexOfName(rows: seq<Unit>, name: string): (r: Option<nat>)
    ensures r.Some? ==> r.value < |rows| && rows[r.value].name == name
    ensures r.None? ==> forall k :: 0 <= k < |rows| ==> rows[k].name != name
  {
    if rows == [] then None
    else if rows[|rows| - 1].name == name then Some(|rows| - 1)
    else IndexOfName(rows[..|rows| - 1], name)
  }

  /** Ids and names both tell the rows apart; ids are below the next one handed out. */
  ghost predicate Registered(rows: seq<Unit>, nextId: int)
  {
    1 <= nextId &&
    (forall i :: 0 <= i < |rows| ==> 1 <= rows[i].id < nextId) &&
    (forall i, j :: 0 <= i < j < |rows| ==> rows[i].id != rows[j].id && rows[i].name != rows[j].name)
  }

  /** Deleting a row keeps the registry consistent, and its id is found no more. */
  lemma DeleteKeepsRegistered(rows: seq<Unit>, nextId: int, k: nat)
    requires Registered(rows, nextId) && k < |rows|
    ensures Registered(rows[..k] + rows[k + 1..], nextId)
    ensures IndexOfId(rows[..k] + rows[k + 1..], rows[k].id).None?
  {
    var r := rows[..k] + rows[k + 1..];
    forall i | 0 <= i < |r|
      ensures r[i] == rows[if i < k then i else i + 1]
    {
    }
  }

  /** The only unit holding a name is found by it, so an update may keep its own name. */
  lemma OwnNameIsOwn(rows: seq<Unit>, nextId: int, k: nat)
    requires Registered(rows, nextId) && k < |rows|
    ensures IndexOfName(rows, rows[k].name) == Some(k)
  {
    var found := IndexOfName(rows, rows[k].name);
    assert rows[k].name == rows[k].name;
    assert found.Some?;
    assert rows[found.value].name == rows[k].name;
  }

  class UnitTable {
    var rows: seq<Unit>
    var nextId: int

    ghost predicate Valid()
      reads this
    {
      Registered(rows, nextId)
    }

    constructor ()
      ensures Valid() && rows == []
    {
      rows, nextId := [], 1;
    }

    /** `findOne`: the unit with that id. */
    function FindOne(id: int): (r: Result<Unit, UnitError>)
      reads this
      ensures r.Success? <==> exists k :: 0 <= k < |rows| && rows[k].id == id
      ensures r.Success? ==> r.value in rows && r.value.id == id
      ensures r.Failure? ==> r.error == NotFound(id)
    {
      var found := IndexOfId(rows, id);
      if found.Some? then Success(rows[found.value]) else Failure(NotFound(id))
    }

    /** `findAll`: every unit, in ascending name order. */
    function FindAll(): (r: seq<Unit>)
      reads this
      ensures Sorting.SortedBy(r, ByName)
      ensures multiset(r) == multiset(rows)
    {
      ByNameTotalPreorder();
      Sorting.SortBy(rows, ByName)
    }

    /** `create`: a new unit under the trimmed name, unless a unit already holds it. */
    method Create(name: string) returns (r: Result<Unit, UnitError>)
      requires Valid()
      modifies this
      ensures Valid()
      ensures IndexOfName(old(rows), Text.Trim(name)).Some? ==>
        r == Failure(NameTaken(name)) && rows == old(rows) && nextId == old(nextId)
      ensures IndexOfName(old(rows), Text.Trim(name)).None? ==>
        var u := Unit(old(nextId), Text.Trim(name));
        r == Success(u) && rows == old(rows) + [u] && nextId == old(nextId) + 1
    {
      var trimmed := Text.Trim(name);
      if IndexOfName(rows, trimmed).Some? {
        return Failure(NameTaken(name));
      }
      var u := Unit(nextId, trimmed);
      rows := rows + [u];
      nextId := nextId + 1;
      r := Success(u);
    }

    /**
     * `update`: an unknown id fails first; a non-empty new name held by
     * another unit fails next; otherwise that name is stored trimmed.
     */
    method Update(id: int, name: Option<string>) returns (r: Result<Unit, UnitError>)
      requires Valid()
      modifies this
      ensures Valid() && nextId == old(nextId)
      ensures IndexOfId(old(rows), id).None? ==> r == Failure(NotFound(id)) && rows == old(rows)
      ensures IndexOfId(old(rows), id).Some? ==>
        var k := IndexOfId(old(rows), id).value;
        var renamed := name.Some? && name.value != "";
        var holder := if renamed then IndexOfName(old(rows), Text.Trim(name.value)) else None;
        if holder.Some? && old(rows)[holder.value].id != id then
          r == Failure(NameTaken(name.value)) && rows == old(rows)
        else
          var u := if renamed then old(rows)[k].(name := Text.Trim(name.value)) else old(rows)[k];
          r == Success(u) && rows == old(rows)[k := u]
    {
      var found := IndexOfId(rows, id);
      if found.None? {
        return Failure(NotFound(id));
      }
      var k := found.value;
      var u := rows[k];
      if name.Some? && name.value != "" {
        var holder := IndexOfName(rows, Text.Trim(name.value));
        if holder.Some? && rows[holder.value].id != id {
          return Failure(NameTaken(name.value));
        }
        u := u.(name := Text.Trim(name.value));
      }
      rows := rows[k := u];
      r := Success(u);
    }

    /** `remove`: a hard delete; afterwards the id is not found. */
    method Remove(id: int) returns (r: Result<Removed, UnitError>)
      requires Valid()
      modifies this
      ensures Valid() && nextId == old(nextId)
      ensures IndexOfId(old(rows), id).None? ==> r == Failure(NotFound(id)) && rows == old(rows)
      ensures IndexOfId(old(rows), id).Some? ==>
        var k := IndexOfId(old(rows), id).value;
        r == Success(Removed(true, id)) && rows == old(rows)[..k] + old(rows)[k + 1..]
      ensures r.Success? ==> FindOne(id) == Failure(NotFound(id))
    {
      var found := IndexOfId(rows, id);
      if found.None? {
        return Failure(NotFound(id));
      }
      var k := found.value;
      DeleteKeepsRegistered(rows, nextId, k);
      rows := rows[..k] + rows[k + 1..];
      r := Success(Removed(true, id));
    }
  }
}
