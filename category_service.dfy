/**
 * The category registry (`CategoryService`): names are stored trimmed and
 * no two categories share a name; `findAll` lists the active categories in
 * name order, and removing a category only marks it inactive.
 */
module CategoryService {
  import opened Wrappers
  import Text
  import Lists
  import Sorting

  /** A row of `categories`. */
  datatype Category = Category(id: int, name: string, description: Option<string>, isActive: bool)

  datatype CategoryError =
    | NotFound(id: int)              // "Category with ID … not found"
    | NameTaken(name: string)        // "Category with name … already exists in the system"

  predicate IsActive(c: Category) { c.isActive }

  /** `ORDER BY name ASC`. */
  predicate ByName(a: Category, b: Category) { Text.LessEq(a.name, b.name) }

  lemma ByNameTotalPreorder()
    ensures Sorting.TotalPreorder(ByName)
  {
    forall a: Category, b: Category
      ensures ByName(a, b) || ByName(b, a)
    {
      Text.LessEqTotal(a.name, b.name);
    }
    forall a: Category, b: Category, c: Category | ByName(a, b) && ByName(b, c)
      ensures ByName(a, c)
    {
      Text.LessEqTransitive(a.name, b.name, c.name);
    }
  }

  /** `description?.trim()`. */
  function TrimOption(s: Option<string>): (r: Option<string>)
    ensures r.None? <==> s.None?
    ensures r.Some? ==> r.value == Text.Trim(s.value)
  {
    if s.Some? then Some(Text.Trim(s.value)) else None
  }

  /** `findOne({ where: { id } })` over the rows. */
  function IndexOfId(rows: seq<Category>, id: int): (r: Option<nat>)
    ensures r.Some? ==> r.value < |rows| && rows[r.value].id == id
    ensures r.None? ==> forall k :: 0 <= k < |rows| ==> rows[k].id != id
  {
    if rows == [] then None
    else if rows[|rows| - 1].id == id then Some(|rows| - 1)
    else IndexOfId(rows[..|rows| - 1], id)
  }

  /** `findOne({ where: { name } })` over the rows, active or not. */
  function IndexOfName(rows: seq<Category>, name: string): (r: Option<nat>)
    ensures r.Some? ==> r.value < |rows| && rows[r.value].name == name
    ensures r.None? ==> forall k :: 0 <= k < |rows| ==> rows[k].name != name
  {
    if rows == [] then None
    else if rows[|rows| - 1].name == name then Some(|rows| - 1)
    else IndexOfName(rows[..|rows| - 1], name)
  }

  /** Ids and names both tell the rows apart; ids are below the next one handed out. */
  ghost predicate Registered(rows: seq<Category>, nextId: int)
  {
    1 <= nextId &&
    (forall i :: 0 <= i < |rows| ==> 1 <= rows[i].id < nextId) &&
    (forall i, j :: 0 <= i < j < |rows| ==> rows[i].id != rows[j].id && rows[i].name != rows[j].name)
  }

  /** The name an update leaves: a non-empty new name, trimmed, or the old one. */
  function UpdatedName(old_name: string, name: Option<string>): (r: string)
    ensures name.None? || name.value == "" ==> r == old_name
    ensures name.Some? && name.value != "" ==> r == Text.Trim(name.value)
  {
    if name.Some? && name.value != "" then Text.Trim(name.value) else old_name
  }

  function UpdatedDescription(old_description: Option<string>, description: Option<string>): (r: Option<string>)
    ensures description.None? || description.value == "" ==> r == old_description
    ensures description.Some? && description.value != "" ==> r == Some(Text.Trim(description.value))
  {
    if description.Some? && description.value != "" then Some(Text.Trim(description.value)) else old_description
  }

  /** Replacing one row's name with a name no other row holds keeps the registry consistent. */
  lemma RenameKeepsRegistered(rows: seq<Category>, nextId: int, k: nat, c: Category)
    requires Registered(rows, nextId) && k < |rows| && c.id == rows[k].id
    requires forall j :: 0 <= j < |rows| && j != k ==> rows[j].name != c.name
    ensures Registered(rows[k := c], nextId)
  {
  }

  class CategoryTable {
    var rows: seq<Category>
    var nextId: int

    ghost predicate Valid()
      reads this
    {
      Registered(rows, nextId)
    }

    constructor ()
      ensures Valid() && rows == []
    {
      rows, nextId := [], 1;
    }

    /** `findOne`: the category with that id, active or not. */
    function FindOne(id: int): (r: Result<Category, CategoryError>)
      reads this
      ensures r.Success? <==> exists k :: 0 <= k < |rows| && rows[k].id == id
      ensures r.Success? ==> r.value in rows && r.value.id == id
      ensures r.Failure? ==> r.error == NotFound(id)
    {
      var found := IndexOfId(rows, id);
      if found.Some? then Success(rows[found.value]) else Failure(NotFound(id))
    }

    /** `findAll`: the active categories in ascending name order. */
    function FindAll(): (r: seq<Category>)
      reads this
      ensures Sorting.SortedBy(r, ByName)
      ensures multiset(r) == multiset(Lists.Filter(rows, IsActive))
      ensures forall c :: c in r <==> c in rows && c.isActive
    {
      ByNameTotalPreorder();
      Sorting.SortByKeepsMembers(Lists.Filter(rows, IsActive), ByName);
      Sorting.SortBy(Lists.Filter(rows, IsActive), ByName)
    }

    /** `create`: a new active category under the trimmed name, unless a category already holds it. */
    method Create(name: string, description: Option<string>) returns (r: Result<Category, CategoryError>)
      requires Valid()
      modifies this
      ensures Valid()
      ensures IndexOfName(old(rows), Text.Trim(name)).Some? ==>
        r == Failure(NameTaken(name)) && rows == old(rows) && nextId == old(nextId)
      ensures IndexOfName(old(rows), Text.Trim(name)).None? ==>
        var c := Category(old(nextId), Text.Trim(name), TrimOption(description), true);
        r == Success(c) && rows == old(rows) + [c] && nextId == old(nextId) + 1
    {
      var trimmed := Text.Trim(name);
      if IndexOfName(rows, trimmed).Some? {
        return Failure(NameTaken(name));
      }
      var c := Category(nextId, trimmed, TrimOption(description), true);
      rows := rows + [c];
      nextId := nextId + 1;
      r := Success(c);
    }

    /**
     * `update`: an unknown id fails first; a new name held by another
     * category fails next; otherwise the non-empty fields are stored trimmed.
     */
    method Update(id: int, name: Option<string>, description: Option<string>) returns (r: Result<Category, CategoryError>)
      requires Valid()
      modifies this
      ensures Valid() && nextId == old(nextId)
      ensures IndexOfId(old(rows), id).None? ==> r == Failure(NotFound(id)) && rows == old(rows)
      ensures IndexOfId(old(rows), id).Some? ==>
        var k := IndexOfId(old(rows), id).value;
        var holder := if name.Some? && name.value != "" then IndexOfName(old(rows), Text.Trim(name.value)) else None;
        if holder.Some? && old(rows)[holder.value].id != id then
          r == Failure(NameTaken(name.value)) && rows == old(rows)
        else
          var c := old(rows)[k].(name := UpdatedName(old(rows)[k].name, name),
                                 description := UpdatedDescription(old(rows)[k].description, description));
          r == Success(c) && rows == old(rows)[k := c]
    {
      var found := IndexOfId(rows, id);
      if found.None? {
        return Failure(NotFound(id));
      }
      var k := found.value;
      if name.Some? && name.value != "" {
        var holder := IndexOfName(rows, Text.Trim(name.value));
        if holder.Some? && rows[holder.value].id != id {
          return Failure(NameTaken(name.value));
        }
      }
      var c := rows[k].(name := UpdatedName(rows[k].name, name),
                        description := UpdatedDescription(rows[k].description, description));
      RenameKeepsRegistered(rows, nextId, k, c);
      rows := rows[k := c];
      r := Success(c);
    }

    /** `remove`: a soft delete; the row stays, marked inactive. */
    method Remove(id: int) returns (r: Result<Category, CategoryError>)
      requires Valid()
      modifies this
      ensures Valid() && nextId == old(nextId)
      ensures IndexOfId(old(rows), id).None? ==> r == Failure(NotFound(id)) && rows == old(rows)
      ensures IndexOfId(old(rows), id).Some? ==>
        var k := IndexOfId(old(rows), id).value;
        r == Success(old(rows)[k].(isActive := false)) && rows == old(rows)[k := old(rows)[k].(isActive := false)]
    {
      var found := IndexOfId(rows, id);
      if found.None? {
        return Failure(NotFound(id));
      }
      var k := found.value;
      var c := rows[k].(isActive := false);
      rows := rows[k := c];
      r := Success(c);
    }
  }

  /** A removed category can still be looked up, but is no longer listed. */
  lemma RemovedStaysFindable(rows: seq<Category>, nextId: int, k: nat)
    requires Registered(rows, nextId) && k < |rows|
    ensures var rows' := rows[k := rows[k].(isActive := false)];
      && IndexOfId(rows', rows[k].id) == Some(k)
      && rows'[k] !in Lists.Filter(rows', IsActive)
  {
    var rows' := rows[k := rows[k].(isActive := false)];
    var found := IndexOfId(rows', rows[k].id);
    assert rows'[k].id == rows[k].id;
    assert found.Some?;
    assert rows'[found.value].id == rows[k].id;
    assert found.value == k;
  }

  /** The only category holding a name is found by it, so an update may keep its own name. */
  lemma OwnNameIsOwn(rows: seq<Category>, nextId: int, k: nat)
    requires Registered(rows, nextId) && k < |rows|
    ensures IndexOfName(rows, rows[k].name) == Some(k)
  {
    var found := IndexOfName(rows, rows[k].name);
    assert rows[k].name == rows[k].name;
    assert found.Some?;
    assert rows[found.value].name == rows[k].name;
  }
}
