/**
 * The search view of the console: the filter chips, paging, the query sent to
 * the search endpoint, the handling of its response, and the live-tail buffer
 * that takes over the result list while live mode is on.
 */
module App {
  import opened Wrappers
  import opened LogModel
  import Decimal

  /** The live-tail buffer keeps at most this many records. */
  const TailCap: nat := 500

  /** The page sizes the "Per page" selector offers; the first page size shown is "50". */
  const PageSizeOptions: seq<string> := ["10", "50", "100", "500"]
  const DefaultPageSize: string := "50"

  /** The fixed sort parameter of every search. */
  const SortOrder: string := "timestamp:desc"

  type Param = (string, string)

  function Min(a: int, b: int): int {
    if a <= b then a else b
  }

  /** Every offered page size is a decimal numeral of a positive number. */
  lemma PageSizeOptionsArePositiveNumerals(p: string)
    requires p in PageSizeOptions
    ensures Decimal.AllDigits(p) && Decimal.ParseDecimal(p) > 0
  {
    assert p == "10" || p == "50" || p == "100" || p == "500";
  }

  // ---------------------------------------------------------------------------
  // Filter list

  /**
   * The filter list after adding `f`: unchanged when an equal filter is
   * already present, otherwise `f` is appended at the end.
   */
  function WithFilter(filters: seq<Filter>, f: Filter): (r: seq<Filter>)
    ensures f in r
    ensures filters <= r && |r| <= |filters| + 1
    ensures f in filters ==> r == filters
    ensures NoDuplicates(filters) ==> NoDuplicates(r)
  {
    if f in filters then filters else filters + [f]
  }

  /** `s.filter((_, index) => index !== i)`: keeps every element whose position is not `i`. */
  function WithoutIndex<T>(s: seq<T>, i: int): (r: seq<T>)
    ensures 0 <= i < |s| ==> r == s[..i] + s[i + 1..]
    ensures !(0 <= i < |s|) ==> r == s
    decreases |s|
  {
    if s == [] then []
    else (if i == 0 then [] else [s[0]]) + WithoutIndex(s[1..], i - 1)
  }

  /** Closing the chip that was just added restores the list it was added to. */
  lemma RemoveUndoesAdd(filters: seq<Filter>, f: Filter)
    requires f !in filters
    ensures WithoutIndex(WithFilter(filters, f), |filters|) == filters
  {
    assert (filters + [f])[..|filters|] == filters;
  }

  /** Position `a` of the shortened list holds the old element at `a` before the removed position and at `a + 1` from it on. */
  lemma WithoutIndexAt<T>(s: seq<T>, i: int, a: int)
    requires 0 <= i < |s| && 0 <= a < |s| - 1
    ensures WithoutIndex(s, i)[a] == s[if a < i then a else a + 1]
  {
    var r := WithoutIndex(s, i);
    assert r == s[..i] + s[i + 1..];
    if a < i {
      assert r[a] == s[..i][a];
    } else {
      assert r[a] == s[i + 1..][a - i];
    }
  }

  /** Removing a chip cannot create a duplicate. */
  lemma WithoutIndexKeepsNoDuplicates(filters: seq<Filter>, i: int)
    requires NoDuplicates(filters)
    ensures NoDuplicates(WithoutIndex(filters, i))
  {
    if 0 <= i < |filters| {
      var r := WithoutIndex(filters, i);
      forall a, b | 0 <= a < b < |r| ensures r[a] != r[b] {
        WithoutIndexAt(filters, i, a);
        WithoutIndexAt(filters, i, b);
        var a', b' := if a < i then a else a + 1, if b < i then b else b + 1;
        assert a' < b';
        assert filters[a'] != filters[b'];
      }
    }
  }

  // ---------------------------------------------------------------------------
  // Paging

  /** `Math.ceil(total / size)` on whole numbers: the fewest pages of `size` that hold `total` records. */
  function CeilDiv(total: nat, size: nat): (pages: nat)
    requires size > 0
    ensures pages * size >= total
    ensures pages == 0 || (pages - 1) * size < total
  {
    (total + size - 1) / size
  }

  // ---------------------------------------------------------------------------
  // Query parameters

  /** Number of parameters before the filters: one `q` when the term is non-empty. */
  function TermCount(term: string): nat {
    if term != "" then 1 else 0
  }

  /**
   * The shape of the search query: `q` first exactly when the term is
   * non-empty, then one parameter per filter in list order, then the page,
   * the page size and the fixed sort order.
   */
  ghost predicate IsSearchQuery(params: seq<Param>, term: string, filters: seq<Filter>, page: nat, pageSize: string) {
    var k := TermCount(term);
    && |params| == k + |filters| + 3
    && (term != "" ==> params[0] == ("q", term))
    && (forall i :: 0 <= i < |filters| ==> params[k + i] == (filters[i].key, filters[i].value))
    && params[k + |filters|] == ("page", Decimal.NatToDecimal(page))
    && params[k + |filters| + 1] == ("page_size", pageSize)
    && params[k + |filters| + 2] == ("sort", SortOrder)
  }

  /** The query shape leaves no freedom: one list of parameters has it. */
  lemma SearchQueryIsUnique(p1: seq<Param>, p2: seq<Param>, term: string, filters: seq<Filter>, page: nat, pageSize: string)
    requires IsSearchQuery(p1, term, filters, page, pageSize)
    requires IsSearchQuery(p2, term, filters, page, pageSize)
    ensures p1 == p2
  {
    var k := TermCount(term);
    forall j | 0 <= j < |p1| ensures p1[j] == p2[j] {
      if k <= j < k + |filters| {
        var i := j - k;
        assert p1[k + i] == (filters[i].key, filters[i].value) == p2[k + i];
      }
    }
  }

  /** Builds the parameter list in the order the search handler appends to it. */
  method BuildQueryParams(term: string, filters: seq<Filter>, page: nat, pageSize: string) returns (params: seq<Param>)
    ensures IsSearchQuery(params, term, filters, page, pageSize)
  {
    params := [];
    if term != "" {
      params := params + [("q", term)];
    }
    var k := |params|;
    var i := 0;
    while i < |filters|
      invariant 0 <= i <= |filters|
      invariant k == TermCount(term) && |params| == k + i
      invariant term != "" ==> params[0] == ("q", term)
      invariant forall j :: 0 <= j < i ==> params[k + j] == (filters[j].key, filters[j].value)
    {
      params := params + [(filters[i].key, filters[i].value)];
      i := i + 1;
    }
    params := params + [("page", Decimal.NatToDecimal(page))];
    params := params + [("page_size", pageSize)];
    params := params + [("sort", SortOrder)];
  }

  // ---------------------------------------------------------------------------
  // Live tail

  /** The buffer after one pushed record: newest first, cut to `TailCap`, no deduplication. */
  function PushTail(buffer: seq<Log>, newLog: Log): (r: seq<Log>)
    ensures |r| == Min(|buffer| + 1, TailCap)
    ensures r[0] == newLog
    ensures r[1..] <= buffer
  {
    ([newLog] + buffer)[..Min(|buffer| + 1, TailCap)]
  }

  /** The buffer after the records of `pushes` arrived one by one, in that order. */
  function PushAll(buffer: seq<Log>, pushes: seq<Log>): seq<Log>
    decreases |pushes|
  {
    if pushes == [] then buffer
    else PushTail(PushAll(buffer, pushes[..|pushes| - 1]), pushes[|pushes| - 1])
  }

  function Reversed(s: seq<Log>): (r: seq<Log>)
    ensures |r| == |s|
    decreases |s|
  {
    if s == [] then [] else [s[|s| - 1]] + Reversed(s[..|s| - 1])
  }

  /** Cutting before or after putting a record in front gives the same prefix. */
  lemma ConsTake(x: Log, y: seq<Log>, m: nat, k: nat)
    requires m <= |y| && k <= m + 1
    ensures ([x] + y[..m])[..k] == ([x] + y)[..k]
  {
    assert forall j :: 0 <= j < k ==> ([x] + y[..m])[j] == ([x] + y)[j];
  }

  /**
   * After any non-empty run of pushes the buffer holds the pushed records
   * newest first, followed by what it held before, cut to `TailCap` entries.
   */
  lemma {:induction false} PushAllIsNewestFirst(buffer: seq<Log>, pushes: seq<Log>)
    requires pushes != []
    ensures PushAll(buffer, pushes) == (Reversed(pushes) + buffer)[..Min(|pushes| + |buffer|, TailCap)]
    decreases |pushes|
  {
    var n := |pushes|;
    var init, x := pushes[..n - 1], pushes[n - 1];
    var before := PushAll(buffer, init);
    var y := Reversed(init) + buffer;
    var m' := Min(n - 1 + |buffer|, TailCap);
    assert Reversed(pushes) + buffer == [x] + y;
    if init != [] {
      PushAllIsNewestFirst(buffer, init);
      assert before == y[..m'];
      ConsTake(x, y, m', Min(n + |buffer|, TailCap));
    } else {
      assert before == buffer == y;
    }
  }

  // ---------------------------------------------------------------------------
  // The view state

  /** A search as issued: the parameters sent, and the filter list and page size the handler captured. */
  datatype SearchRequest = SearchRequest(params: seq<Param>, filters: seq<Filter>, pageSize: string)

  /** The body of a successful search response. */
  datatype SearchResponse = SearchResponse(results: seq<Log>, total: nat)

  class SearchView {
    var logs: seq<Log>
    var searchTerm: string
    var isLive: bool
    var filters: seq<Filter>
    var suggestions: Suggestions
    var activePage: int
    var totalPages: int
    var pageSize: string

    ghost predicate Valid()
      reads this
    {
      pageSize in PageSizeOptions && activePage >= 1 && NoDuplicates(filters)
    }

    constructor ()
      ensures Valid()
      ensures logs == [] && searchTerm == "" && !isLive && filters == [] && suggestions == NoSuggestions
      ensures activePage == 1 && totalPages == 1 && pageSize == DefaultPageSize
    {
      logs := [];
      searchTerm := "";
      isLive := false;
      filters := [];
      suggestions := NoSuggestions;
      activePage := 1;
      totalPages := 1;
      pageSize := DefaultPageSize;
    }

    /** Typing in the search box. */
    method SetSearchTerm(term: string)
      modifies this`searchTerm
      ensures searchTerm == term
    {
      searchTerm := term;
    }

    /**
     * A filter chip is requested with a raw value (from a suggestion button or
     * a metadata field): the value is stringified, the pair is appended unless
     * already present, and the search box is cleared in either case.
     */
    method AddFilter(key: string, value: Value)
      requires Valid()
      modifies this`filters, this`searchTerm
      ensures Valid()
      ensures filters == WithFilter(old(filters), Filter(key, JsString(value)))
      ensures searchTerm == ""
    {
      var newFilter := Filter(key, JsString(value));
      if newFilter !in filters {
        filters := filters + [newFilter];
      }
      searchTerm := "";
    }

    /** Closing the chip at position `index`; an index out of range changes nothing. */
    method RemoveFilter(index: int)
      requires Valid()
      modifies this`filters
      ensures Valid()
      ensures filters == WithoutIndex(old(filters), index)
      ensures 0 <= index < |old(filters)| ==> filters == old(filters)[..index] + old(filters)[index + 1..]
      ensures !(0 <= index < |old(filters)|) ==> filters == old(filters)
    {
      WithoutIndexKeepsNoDuplicates(filters, index);
      filters := WithoutIndex(filters, index);
    }

    /** The page-size selector changed; `None` (a cleared selection) is ignored, any choice goes back to page 1. */
    method ChangePageSize(value: Option<string>)
      requires Valid()
      requires value.Some? ==> value.value in PageSizeOptions
      modifies this`pageSize, this`activePage
      ensures Valid()
      ensures value.None? ==> pageSize == old(pageSize) && activePage == old(activePage)
      ensures value.Some? ==> pageSize == value.value && activePage == 1
    {
      if value.Some? {
        pageSize := value.value;
        activePage := 1;
      }
    }

    /** The pager selected page `page`. */
    method SetPage(page: int)
      requires Valid() && page >= 1
      modifies this`activePage
      ensures Valid() && activePage == page
    {
      activePage := page;
    }

    /** The live-tail switch; nothing but the mode flag changes. */
    method SetLive(checked: bool)
      modifies this`isLive
      ensures isLive == checked
    {
      isLive := checked;
    }

    /**
     * The search effect with the debounced term: no request in live mode,
     * otherwise the query for the current term, filters, page and page size.
     */
    method PerformSearch(debouncedTerm: string) returns (request: Option<SearchRequest>)
      requires Valid()
      ensures request.None? <==> isLive
      ensures request.Some? ==> IsSearchQuery(request.value.params, debouncedTerm, filters, activePage, pageSize)
      ensures request.Some? ==> request.value.filters == filters && request.value.pageSize == pageSize
    {
      if isLive {
        return None;
      }
      var params := BuildQueryParams(debouncedTerm, filters, activePage, pageSize);
      request := Some(SearchRequest(params, filters, pageSize));
    }

    /**
     * The response to `request` arrives. A failure changes nothing. A success
     * replaces the result list, recomputes the page count from the page size
     * the request was made with, and either asks for suggestions (the request
     * had no filters) or clears them. The response is applied whatever the
     * current mode and whether or not a newer request was issued since.
     */
    method OnSearchResponse(request: SearchRequest, response: Option<SearchResponse>) returns (fetchSuggestions: bool)
      requires Valid() && request.pageSize in PageSizeOptions
      modifies this`logs, this`totalPages, this`suggestions
      ensures Valid()
      ensures response.None? ==> !fetchSuggestions && logs == old(logs) && totalPages == old(totalPages) && suggestions == old(suggestions)
      ensures response.Some? ==> && logs == response.value.results
                                 && fetchSuggestions == (request.filters == [])
                                 && suggestions == (if request.filters == [] then old(suggestions) else NoSuggestions)
      ensures response.Some? ==> && Decimal.AllDigits(request.pageSize) && Decimal.ParseDecimal(request.pageSize) > 0
                                 && totalPages == CeilDiv(response.value.total, Decimal.ParseDecimal(request.pageSize))
    {
      fetchSuggestions := false;
      if response.None? {
        return;
      }
      PageSizeOptionsArePositiveNumerals(request.pageSize);
      logs := response.value.results;
      totalPages := CeilDiv(response.value.total, Decimal.ParseDecimal(request.pageSize));
      if request.filters == [] {
        fetchSuggestions := true;
      } else {
        suggestions := NoSuggestions;
      }
    }

    /** The suggestion request finished; a failure leaves the old suggestions. */
    method OnSuggestionsResponse(response: Option<Suggestions>)
      modifies this`suggestions
      ensures suggestions == response.GetOr(old(suggestions))
    {
      if response.Some? {
        suggestions := response.value;
      }
    }

    /** A record pushed by the live-tail socket. */
    method OnTailMessage(newLog: Log)
      modifies this`logs
      ensures logs == PushTail(old(logs), newLog)
      ensures |logs| <= TailCap && logs[0] == newLog && logs[1..] <= old(logs)
    {
      logs := PushTail(logs, newLog);
    }
  }
}
