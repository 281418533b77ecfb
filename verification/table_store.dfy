/**
 * stores/table-store.ts: the view state of the data tables: pagination, a
 * multi-column sort list, filters, column order and visibility, and row
 * selection. Every action replaces one or two fields; the new values are
 * computed by the functions below, and the class's methods are proved to
 * install exactly those values and to leave every other field alone.
 */
module TableStore {
  import opened Common
  import Json

  datatype Pagination = Pagination(pageIndex: int, pageSize: int)

  /** `SortingState`: one sorted column. */
  datatype Sort = Sort(id: string, desc: bool)

  /** `TableFilters`: `searchQuery` plus any other keys. */
  type Filters = map<string, Json.Value>

  const SearchQueryKey := "searchQuery"
  const InitialPagination := Pagination(0, 10)
  const InitialFilters: Filters := map[SearchQueryKey := Json.Str("")]

  /** A snapshot of the store. */
  datatype TableState = TableState(
    pagination: Pagination,
    sorting: seq<Sort>,
    filters: Filters,
    columnOrder: seq<string>,
    columnVisibility: map<string, bool>,
    rowSelection: map<string, bool>)

  const InitialState := TableState(InitialPagination, [], InitialFilters, [], map[], map[])

  // ---------------------------------------------------------------------------
  // The sort list

  predicate HasSort(s: seq<Sort>, id: string) {
    exists i :: 0 <= i < |s| && s[i].id == id
  }

  /** `sorting.map(s => s.id === id ? { ...s, desc } : s)`. */
  function SetDesc(s: seq<Sort>, id: string, desc: bool): (r: seq<Sort>)
    ensures |r| == |s|
    ensures forall i :: 0 <= i < |s| ==> r[i].id == s[i].id
    ensures forall i :: 0 <= i < |s| ==> r[i].desc == if s[i].id == id then desc else s[i].desc
  {
    if s == [] then []
    else [if s[0].id == id then s[0].(desc := desc) else s[0]] + SetDesc(s[1..], id, desc)
  }

  /**
   * `addSort(id, desc)`: an id already in the list gets the new direction in
   * place (same length, same order); a new id is appended last.
   */
  function UpsertSort(s: seq<Sort>, id: string, desc: bool): (r: seq<Sort>)
    ensures HasSort(s, id) ==> |r| == |s| && forall i :: 0 <= i < |s| ==> r[i].id == s[i].id
    ensures HasSort(s, id) ==> forall i :: 0 <= i < |s| && s[i].id != id ==> r[i] == s[i]
    ensures !HasSort(s, id) ==> r == s + [Sort(id, desc)]
    ensures forall i :: 0 <= i < |r| && r[i].id == id ==> r[i].desc == desc
    ensures HasSort(r, id)
  {
    if HasSort(s, id) then SetDesc(s, id, desc)
    else
      var r := s + [Sort(id, desc)];
      assert r[|s|].id == id;
      r
  }

  function NotId(id: string): Sort -> bool {
    (e: Sort) => e.id != id
  }

  /** `removeSort(id)`: every entry for `id` goes, the rest keep their order. */
  function WithoutSort(s: seq<Sort>, id: string): (r: seq<Sort>)
    ensures !HasSort(r, id)
    ensures |r| <= |s|
  {
    Filter(NotId(id), s)
  }

  /** Removing a column that is not sorted leaves the list as it was. */
  lemma RemoveAbsentSort(s: seq<Sort>, id: string)
    requires !HasSort(s, id)
    ensures WithoutSort(s, id) == s
  {
    FilterKeepsAll(NotId(id), s);
  }

  /** Adding a sort and removing it again is the same as removing it: nothing else in the list moves. */
  lemma {:induction false} RemoveAfterAddSort(s: seq<Sort>, id: string, desc: bool)
    ensures WithoutSort(UpsertSort(s, id, desc), id) == WithoutSort(s, id)
  {
    if HasSort(s, id) {
      SetDescThenRemove(s, id, desc);
    } else {
      FilterConcat(NotId(id), s, [Sort(id, desc)]);
    }
  }

  lemma {:induction false} SetDescThenRemove(s: seq<Sort>, id: string, desc: bool)
    ensures Filter(NotId(id), SetDesc(s, id, desc)) == Filter(NotId(id), s)
  {
    if s != [] {
      SetDescThenRemove(s[1..], id, desc);
    }
  }

  /** `removeSort` keeps the other columns' entries in their original relative order. */
  lemma RemoveSortPiecewise(a: seq<Sort>, b: seq<Sort>, id: string)
    ensures WithoutSort(a + b, id) == WithoutSort(a, id) + WithoutSort(b, id)
  {
    FilterConcat(NotId(id), a, b);
  }

  // ---------------------------------------------------------------------------
  // Boolean maps: column visibility and row selection

  /** `{ ...m, [k]: !m[k] }`: a missing key reads as false, so it becomes true. */
  function Toggle(m: map<string, bool>, k: string): (r: map<string, bool>)
    ensures k in r && r[k] == !(k in m && m[k])
    ensures forall j :: j != k ==> (j in r <==> j in m) && (j in m ==> r[j] == m[j])
  {
    m[k := !(k in m && m[k])]
  }

  /** Toggling twice restores the key's reading and leaves every other key alone. */
  lemma ToggleTwice(m: map<string, bool>, k: string)
    ensures Toggle(Toggle(m, k), k) == m[k := k in m && m[k]]
    ensures k in m ==> Toggle(Toggle(m, k), k) == m
  {
  }

  /** `rowIds.reduce((acc, id) => ({ ...acc, [id]: true }), {})`. */
  function AllSelected(ids: seq<string>): (r: map<string, bool>)
    ensures forall k :: k in r <==> k in ids
    ensures forall k :: k in r ==> r[k]
  {
    if ids == [] then map[]
    else AllSelected(ids[..|ids| - 1])[ids[|ids| - 1] := true]
  }

  // ---------------------------------------------------------------------------
  // The store

  class TableStore {
    var pagination: Pagination
    var sorting: seq<Sort>
    var filters: Filters
    var columnOrder: seq<string>
    var columnVisibility: map<string, bool>
    var rowSelection: map<string, bool>

    function View(): TableState
      reads this
    {
      TableState(pagination, sorting, filters, columnOrder, columnVisibility, rowSelection)
    }

    constructor ()
      ensures View() == InitialState
    {
      pagination, sorting, filters := InitialPagination, [], InitialFilters;
      columnOrder, columnVisibility, rowSelection := [], map[], map[];
    }

    method SetPagination(p: Pagination)
      modifies this
      ensures View() == old(View()).(pagination := p)
    {
      pagination := p;
    }

    /** `setPageIndex(i)`: only the page index changes. */
    method SetPageIndex(pageIndex: int)
      modifies this
      ensures View() == old(View()).(pagination := old(pagination).(pageIndex := pageIndex))
    {
      pagination := pagination.(pageIndex := pageIndex);
    }

    /** `setPageSize(n)`: a new page size always starts again from the first page. */
    method SetPageSize(pageSize: int)
      modifies this
      ensures View() == old(View()).(pagination := Pagination(0, pageSize))
    {
      pagination := pagination.(pageSize := pageSize, pageIndex := 0);
    }

    method ResetPagination()
      modifies this
      ensures View() == old(View()).(pagination := InitialPagination)
    {
      pagination := InitialPagination;
    }

    method SetSorting(s: seq<Sort>)
      modifies this
      ensures View() == old(View()).(sorting := s)
    {
      sorting := s;
    }

    /** `addSort(id, desc = false)`. */
    method AddSort(id: string, desc: Option<bool>)
      modifies this
      ensures View() == old(View()).(sorting := UpsertSort(old(sorting), id, desc.GetOr(false)))
    {
      sorting := UpsertSort(sorting, id, desc.GetOr(false));
    }

    method RemoveSort(id: string)
      modifies this
      ensures View() == old(View()).(sorting := WithoutSort(old(sorting), id))
    {
      sorting := WithoutSort(sorting, id);
    }

    method ResetSorting()
      modifies this
      ensures View() == old(View()).(sorting := [])
    {
      sorting := [];
    }

    /** `setFilters(partial)`: the given keys overwrite, the others stay. */
    method SetFilters(partial: Filters)
      modifies this
      ensures View() == old(View()).(filters := old(filters) + partial)
      ensures forall k :: k in old(filters) && k !in partial ==> k in filters && filters[k] == old(filters)[k]
    {
      filters := filters + partial;
    }

    /** `setSearchQuery(q)`: the query changes and the table goes back to its first page. */
    method SetSearchQuery(query: string)
      modifies this
      ensures View() == old(View()).(filters := old(filters)[SearchQueryKey := Json.Str(query)],
                                     pagination := old(pagination).(pageIndex := 0))
      ensures pagination.pageSize == old(pagination.pageSize)
    {
      filters := filters[SearchQueryKey := Json.Str(query)];
      pagination := pagination.(pageIndex := 0);
    }

    /** `setFilter(key, value)`: only `key` is written. */
    method SetFilter(key: string, value: Json.Value)
      modifies this
      ensures View() == old(View()).(filters := old(filters)[key := value])
      ensures forall k :: k != key ==> (k in filters <==> k in old(filters))
    {
      filters := filters[key := value];
    }

    /** `removeFilter(key)`: only `key` goes. */
    method RemoveFilter(key: string)
      modifies this
      ensures View() == old(View()).(filters := old(filters) - {key})
      ensures key !in filters
      ensures forall k :: k != key && k in old(filters) ==> k in filters && filters[k] == old(filters)[k]
    {
      filters := filters - {key};
    }

    method ResetFilters()
      modifies this
      ensures View() == old(View()).(filters := InitialFilters)
    {
      filters := InitialFilters;
    }

    method SetColumnOrder(order: seq<string>)
      modifies this
      ensures View() == old(View()).(columnOrder := order)
    {
      columnOrder := order;
    }

    method SetColumnVisibility(visibility: map<string, bool>)
      modifies this
      ensures View() == old(View()).(columnVisibility := visibility)
    {
      columnVisibility := visibility;
    }

    method ToggleColumnVisibility(columnId: string)
      modifies this
      ensures View() == old(View()).(columnVisibility := Toggle(old(columnVisibility), columnId))
    {
      columnVisibility := Toggle(columnVisibility, columnId);
    }

    method SetRowSelection(selection: map<string, bool>)
      modifies this
      ensures View() == old(View()).(rowSelection := selection)
    {
      rowSelection := selection;
    }

    method ToggleRowSelection(rowId: string)
      modifies this
      ensures View() == old(View()).(rowSelection := Toggle(old(rowSelection), rowId))
    {
      rowSelection := Toggle(rowSelection, rowId);
    }

    /** `selectAll(ids)`: exactly the given rows are selected. */
    method SelectAll(rowIds: seq<string>)
      modifies this
      ensures View() == old(View()).(rowSelection := AllSelected(rowIds))
    {
      rowSelection := AllSelected(rowIds);
    }

    method ClearSelection()
      modifies this
      ensures View() == old(View()).(rowSelection := map[])
    {
      rowSelection := map[];
    }

    /** `reset()`: every field back to its initial value. */
    method Reset()
      modifies this
      ensures View() == InitialState
    {
      pagination, sorting, filters := InitialPagination, [], InitialFilters;
      columnOrder, columnVisibility, rowSelection := [], map[], map[];
    }
  }
}
