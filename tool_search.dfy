/**
 * The tool list page (app/routes/tools._index.tsx): a case-insensitive name
 * search, the page count and the window of the filtered list shown on the
 * current page, and the state those are computed from.
 */
module ToolSearch {
  import opened Wrappers

  /** A row of getToolListItems. */
  datatype ToolItem = ToolItem(id: int, name: string, quantity: int, unitPrice: int, totalPrice: int)

  // ---------------------------------------------------------------- lower-casing

  predicate IsUpper(c: char)
  {
    ('A' <= c <= 'Z') || ('\U{C0}' <= c <= '\U{DE}' && c != '\U{D7}')
  }

  /** `toLowerCase` on one character, for ASCII and the Latin-1 letters (Á, Ñ, Ü, …). */
  function LowerChar(c: char): (l: char)
    ensures !IsUpper(l)
    ensures !IsUpper(c) ==> l == c
    ensures IsUpper(c) ==> l as int == c as int + 32
  {
    if IsUpper(c) then (c as int + 32) as char else c
  }

  function Lower(s: string): (r: string)
    ensures |r| == |s|
    ensures forall i :: 0 <= i < |s| ==> r[i] == LowerChar(s[i])
  {
    if s == [] then [] else [LowerChar(s[0])] + Lower(s[1..])
  }

  /** Lower-casing twice changes nothing more. */
  lemma LowerIdempotent(s: string)
    ensures Lower(Lower(s)) == Lower(s)
  {
    assert forall i :: 0 <= i < |s| ==> Lower(Lower(s))[i] == Lower(s)[i];
  }

  /** `sub` occurs in `s` starting at position `i`. */
  predicate OccursAt(s: string, sub: string, i: int)
  {
    0 <= i <= |s| - |sub| && s[i..i + |sub|] == sub
  }

  /** `s.includes(sub)`: `sub` occurs in `s` at some position. */
  predicate Contains(s: string, sub: string)
  {
    exists i :: 0 <= i <= |s| && OccursAt(s, sub, i)
  }

  /** The filter's test on one item. */
  predicate Matches(t: ToolItem, filter: string)
  {
    Contains(Lower(t.name), Lower(filter))
  }

  /** The test ignores the case of both the name and the filter. */
  lemma MatchesIgnoresCase(t: ToolItem, filter: string)
    ensures Matches(t, filter) <==> Matches(t.(name := Lower(t.name)), Lower(filter))
  {
    LowerIdempotent(t.name);
    LowerIdempotent(filter);
  }

  // ---------------------------------------------------------------- filtering

  /** `items.filter((item) => Matches(item, filter))`. */
  function Filter(items: seq<ToolItem>, filter: string): (r: seq<ToolItem>)
    ensures forall t :: t in r <==> t in items && Matches(t, filter)
    ensures |r| <= |items|
  {
    if items == [] then []
    else
      var rest := Filter(items[1..], filter);
      assert forall t :: t in items <==> t == items[0] || t in items[1..];
      if Matches(items[0], filter) then [items[0]] + rest else rest
  }

  /** Filtering a concatenation filters each part and keeps them in order: the filter preserves order. */
  lemma {:induction false} FilterAppend(a: seq<ToolItem>, b: seq<ToolItem>, filter: string)
    ensures Filter(a + b, filter) == Filter(a, filter) + Filter(b, filter)
  {
    if a == [] {
      assert a + b == b;
    } else {
      assert (a + b)[0] == a[0];
      assert (a + b)[1..] == a[1..] + b;
      FilterAppend(a[1..], b, filter);
    }
  }

  /** A filter that keeps every item returns the list itself. */
  lemma {:induction false} FilterKeepsAll(items: seq<ToolItem>, filter: string)
    requires forall i :: 0 <= i < |items| ==> Matches(items[i], filter)
    ensures Filter(items, filter) == items
  {
    if items != [] {
      FilterKeepsAll(items[1..], filter);
      assert [items[0]] + items[1..] == items;
    }
  }

  /** The `filteredTools` memo: the whole list when the filter is empty, the matching items otherwise. */
  function FilteredTools(items: seq<ToolItem>, filterValue: string): (r: seq<ToolItem>)
    ensures filterValue == "" ==> r == items
    ensures filterValue != "" ==> forall t :: t in r <==> t in items && Matches(t, filterValue)
    ensures filterValue != "" ==> r == Filter(items, filterValue)
  {
    if filterValue != "" then Filter(items, filterValue) else items
  }

  /** The empty string occurs in every name, so the shortcut for an empty filter agrees with filtering. */
  lemma EmptyFilterSameAsFiltering(items: seq<ToolItem>)
    ensures FilteredTools(items, "") == Filter(items, "")
  {
    forall i | 0 <= i < |items| ensures Matches(items[i], "") {
      assert OccursAt(Lower(items[i].name), Lower(""), 0);
    }
    FilterKeepsAll(items, "");
  }

  // ---------------------------------------------------------------- pagination

  function Min(a: int, b: int): int { if a < b then a else b }

  /** `Math.ceil(n / rowsPerPage)` for a positive page size. */
  function Pages(n: nat, rowsPerPage: int): (p: nat)
    requires rowsPerPage > 0
    ensures n == 0 ==> p == 0
    ensures n > 0 ==> (p - 1) * rowsPerPage < n <= p * rowsPerPage
  {
    (n + rowsPerPage - 1) / rowsPerPage
  }

  /** JavaScript's index normalisation for `slice`: negative counts from the end, then clamp to [0, n]. */
  function SliceIndex(i: int, n: nat): (k: nat)
    ensures k <= n
  {
    if i < 0 then (if n + i < 0 then 0 else n + i) else if i > n then n else i
  }

  /** `s.slice(start, end)`. */
  function Slice<T>(s: seq<T>, start: int, end: int): (r: seq<T>)
    ensures start <= end ==> |r| <= end - start
    ensures 0 <= start <= end ==> r == s[Min(start, |s|)..Min(end, |s|)]
  {
    var a := SliceIndex(start, |s|);
    var b := SliceIndex(end, |s|);
    if a < b then s[a..b] else []
  }

  /** The `toolListPage` memo: the window [(page − 1)·r, (page − 1)·r + r) of the filtered list. */
  function PageItems(filtered: seq<ToolItem>, page: int, rowsPerPage: int): (r: seq<ToolItem>)
    ensures rowsPerPage >= 0 ==> |r| <= rowsPerPage
    ensures page >= 1 && rowsPerPage >= 0 ==>
      r == filtered[Min((page - 1) * rowsPerPage, |filtered|)..Min(page * rowsPerPage, |filtered|)]
  {
    var start := (page - 1) * rowsPerPage;
    Slice(filtered, start, start + rowsPerPage)
  }

  /** Pages 1..k, one after the other. */
  function PagesUpTo(filtered: seq<ToolItem>, rowsPerPage: int, k: nat): seq<ToolItem>
  {
    if k == 0 then [] else PagesUpTo(filtered, rowsPerPage, k - 1) + PageItems(filtered, k, rowsPerPage)
  }

  lemma {:induction false} PagesUpToIsPrefix(filtered: seq<ToolItem>, rowsPerPage: int, k: nat)
    requires rowsPerPage > 0
    ensures PagesUpTo(filtered, rowsPerPage, k) == filtered[..Min(k * rowsPerPage, |filtered|)]
  {
    if k > 0 {
      PagesUpToIsPrefix(filtered, rowsPerPage, k - 1);
      var a := Min((k - 1) * rowsPerPage, |filtered|);
      var b := Min(k * rowsPerPage, |filtered|);
      assert filtered[..a] + filtered[a..b] == filtered[..b];
    }
  }

  /** Pages 1..Pages(n, r), concatenated, give back the filtered list: every item is on exactly one page. */
  lemma PagesCover(filtered: seq<ToolItem>, rowsPerPage: int)
    requires rowsPerPage > 0
    ensures PagesUpTo(filtered, rowsPerPage, Pages(|filtered|, rowsPerPage)) == filtered
  {
    var p := Pages(|filtered|, rowsPerPage);
    PagesUpToIsPrefix(filtered, rowsPerPage, p);
    assert Min(p * rowsPerPage, |filtered|) == |filtered|;
  }

  /** A page past the last one is empty. */
  lemma PastLastPageEmpty(filtered: seq<ToolItem>, rowsPerPage: int, page: int)
    requires rowsPerPage > 0 && page > Pages(|filtered|, rowsPerPage)
    ensures PageItems(filtered, page, rowsPerPage) == []
  {
    var p := Pages(|filtered|, rowsPerPage);
    assert (page - 1) * rowsPerPage >= p * rowsPerPage;
  }

  /** The choices of the "Items por página" select. */
  const RowsOptions: seq<int> := [5, 10, 20, 30, 50]

  // ---------------------------------------------------------------- page state

  /** The React state of the page. */
  class ToolListPage {
    const toolListItems: seq<ToolItem>
    var page: int
    var rowsPerPage: int
    var filterValue: string

    constructor (toolListItems: seq<ToolItem>)
      ensures this.toolListItems == toolListItems
      ensures page == 1 && rowsPerPage == 5 && rowsPerPage in RowsOptions && filterValue == ""
    {
      this.toolListItems := toolListItems;
      page := 1;
      rowsPerPage := 5;
      filterValue := "";
    }

    /** The rows currently listed, before pagination. */
    function Filtered(): (r: seq<ToolItem>)
      reads this
      ensures filterValue == "" ==> r == toolListItems
      ensures filterValue != "" ==> r == Filter(toolListItems, filterValue)
      ensures forall t :: t in r ==> t in toolListItems
    {
      FilteredTools(toolListItems, filterValue)
    }

    /** The rows of the current page. */
    function Visible(): (r: seq<ToolItem>)
      reads this
      ensures rowsPerPage >= 0 ==> |r| <= rowsPerPage
      ensures forall t :: t in r ==> t in toolListItems
    {
      PageItems(Filtered(), page, rowsPerPage)
    }

    /**
     * onSearchChange: a non-empty value becomes the filter and sends the user
     * back to page 1; a missing or empty value clears the filter and leaves
     * the page as it was.
     */
    method OnSearchChange(value: Option<string>)
      modifies this`filterValue, this`page
      ensures value.Some? && value.value != "" ==> filterValue == value.value && page == 1
      ensures !(value.Some? && value.value != "") ==> filterValue == "" && page == old(page)
    {
      if value.Some? && value.value != "" {
        filterValue := value.value;
        page := 1;
      } else {
        filterValue := "";
      }
    }

    /** onClear: no filter, first page. */
    method OnClear()
      modifies this`filterValue, this`page
      ensures filterValue == "" && page == 1
      ensures Filtered() == toolListItems
    {
      filterValue := "";
      page := 1;
    }

    /** The select's onChange: the new page size; the page number is kept. */
    method SetRowsPerPage(value: int)
      modifies this`rowsPerPage
      ensures rowsPerPage == value
    {
      rowsPerPage := value;
    }

    /** The pagination's onChange. */
    method SetPage(value: int)
      modifies this`page
      ensures page == value
    {
      page := value;
    }
  }
}
