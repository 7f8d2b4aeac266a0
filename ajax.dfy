/**
 * The AJAX endpoints (CFS_Ajax): the filter request (its defaults, the
 * posted filter string merged over the query parameters, the response),
 * load more, the facet counts and the pagination markup in both modes.
 * WP_Query runs outside the model: its page count and hit count are inputs.
 */
module Ajax {
  import opened Php
  import opened Facets
  import opened QueryFilters
  import opened QueryUrls
  import opened Shortcodes

  /** The query settings of a filter request. */
  datatype FilterArgs = FilterArgs(postType: string, postsPerPage: int, paged: int, template: string,
                                   orderby: string, order: string)

  function FilterArgsOf(post: Params, host: Host): FilterArgs
  {
    FilterArgs(PostedText(post, "post_type", "post", host), PostedInt(post, "posts_per_page", 12, host),
               PostedInt(post, "paged", 1, host), PostedText(post, "template", "", host),
               PostedText(post, "orderby", "date", host), PostedText(post, "order", "DESC", host))
  }

  /** The sanitiser leaves the default words alone (it only strips tags, octets and extra white space). */
  predicate KeepsDefaults(host: Host)
  {
    host.sanitizeText("post") == "post" && host.sanitizeText("") == "" && host.sanitizeText("date") == "date"
    && host.sanitizeText("DESC") == "DESC"
  }

  /** A request posting none of the settings asks for page 1 of 12 posts, newest first. */
  lemma FilterDefaults(post: Params, host: Host)
    requires KeepsDefaults(host)
    requires forall n :: n in ["post_type", "posts_per_page", "paged", "template", "orderby", "order"] ==> Get(post, n).None?
    ensures FilterArgsOf(post, host) == FilterArgs("post", 12, 1, "", "date", "DESC")
  {
  }

  /** A posted setting wins over its default, sanitised or parsed as an integer. */
  lemma PostedSettingsWin(post: Params, host: Host)
    ensures var a := FilterArgsOf(post, host);
      (Get(post, "post_type").Some? ==> a.postType == TextOf(Get(post, "post_type").value, host))
      && (Get(post, "posts_per_page").Some? ==> a.postsPerPage == IntOf(Get(post, "posts_per_page").value, host))
      && (Get(post, "paged").Some? ==> a.paged == IntOf(Get(post, "paged").value, host))
      && (Get(post, "orderby").Some? ==> a.orderby == TextOf(Get(post, "orderby").value, host))
      && (Get(post, "order").Some? ==> a.order == TextOf(Get(post, "order").value, host))
  {
  }

  // ---------------------------------------------------------------------
  // The posted filters merged over the query parameters
  // ---------------------------------------------------------------------

  /**
   * The `filters` field: parsed with `parse_str` only when it is not
   * PHP-empty; a non-empty array there makes `parse_str` throw.
   */
  function PostedFilters(post: Params, host: Host): (r: Outcome<Params>)
    ensures r.Fatal? <==> Get(post, "filters").Some? && Get(post, "filters").value.List? && |Get(post, "filters").value.items| > 0
    ensures (Get(post, "filters").None? || Get(post, "filters") == Some(Str("")) || Get(post, "filters") == Some(Str("0"))
             || Get(post, "filters") == Some(List([]))) ==> r == Ok([])
  {
    match Get(post, "filters")
    case None => Ok([])
    case Some(v) =>
      match v
      case Str(s) => if Falsy(s) then Ok([]) else Ok(host.parseStr(s))
      case List(xs) => if |xs| == 0 then Ok([]) else Fatal
  }

  /** `array_merge($_GET, $filters)` for string keys: a filter key overrides in place or is appended. */
  function MergeOver(get: Params, filters: Params): Params
  {
    PutAll(get, filters)
  }

  /**
   * After the merge a name reads as the posted filter when the filter string
   * sets it and as the original query parameter otherwise; every original
   * parameter keeps its position.
   */
  lemma {:induction false} MergeOverrides(get: Params, filters: Params, k: string)
    requires UniqueKeys(filters)
    ensures Get(MergeOver(get, filters), k) == if Get(filters, k).Some? then Get(filters, k) else Get(get, k)
    ensures |MergeOver(get, filters)| >= |get|
    ensures forall i :: 0 <= i < |get| ==> MergeOver(get, filters)[i].0 == get[i].0
    decreases |filters|
  {
    if |filters| > 0 {
      var rest := filters[1..];
      var m1 := Put(get, filters[0].0, filters[0].1);
      assert UniqueKeys(rest);
      MergeOverrides(m1, rest, k);
      assert MergeOver(get, filters) == MergeOver(m1, rest);
      if Get(rest, k).Some? {
        GetSomeHasKey(rest, k);
        var j :| 0 <= j < |rest| && Keys(rest)[j] == k;
        assert filters[j + 1].0 == k;
      }
    }
  }

  /** A request without a filter string leaves the query parameters as they were. */
  lemma NoFiltersKeepGet(get: Params, post: Params, host: Host)
    requires Get(post, "filters").None?
    ensures PostedFilters(post, host) == Ok([]) && MergeOver(get, []) == get
  {
  }

  // ---------------------------------------------------------------------
  // Pagination markup
  // ---------------------------------------------------------------------

  /** What the pagination area shows: the standard numbered pager, or the load-more button and "Page x of y". */
  datatype PaginationView =
    | StandardPager(pager: Pager)
    | LoadMoreButton(nextPage: Option<int>, current: int, total: int)

  /**
   * The AJAX `render_pagination`: nothing for a single page; the
   * `pagination_type` setting (default "standard") picks the mode.
   */
  function AjaxPagination(paginationType: Option<string>, paged: nat, total: int): (r: Option<PaginationView>)
    ensures r.None? <==> total <= 1
  {
    if total <= 1 then None
    else if paginationType == Some("load_more") then
      var cur := CurrentPage(paged);
      Some(LoadMoreButton(if cur < total then Some(cur + 1) else None, cur, total))
    else Some(StandardPager(Pagination(paged, total).value))
  }

  /**
   * Both renderers agree: the standard mode is the shortcode's pager, and the
   * load-more mode offers the page after the current one exactly when the
   * pager would offer Next.
   */
  lemma PaginationModesAgree(paginationType: Option<string>, paged: nat, total: int)
    requires total > 1
    ensures paginationType != Some("load_more") ==>
      AjaxPagination(paginationType, paged, total) == Some(StandardPager(Pagination(paged, total).value))
    ensures paginationType == Some("load_more") ==>
      var v := AjaxPagination(paginationType, paged, total).value;
      v.LoadMoreButton? && v.nextPage == Pagination(paged, total).value.next
      && v.current == CurrentPage(paged) >= 1 && v.total == total
  {
  }

  /** The AJAX `render_pagination`, sharing the loop of the shortcode. */
  method RenderAjaxPagination(paginationType: Option<string>, paged: nat, total: int) returns (r: Option<PaginationView>)
    ensures r == AjaxPagination(paginationType, paged, total)
  {
    if total <= 1 {
      return None;
    }
    var cur := if paged > 1 then paged else 1;
    if paginationType == Some("load_more") {
      var next: Option<int> := None;
      if cur < total {
        next := Some(cur + 1);
      }
      return Some(LoadMoreButton(next, cur, total));
    }
    var pager := RenderPagination(paged, total);
    r := Some(StandardPager(pager.value));
  }

  // ---------------------------------------------------------------------
  // handle_filter and load_more
  // ---------------------------------------------------------------------

  /** What WP_Query reports back: the number of hits and of pages. */
  datatype QueryResult = QueryResult(foundPosts: int, maxPages: int)

  /** The JSON answer of a filter request. */
  datatype FilterResponse = FilterResponse(
    foundPosts: int, maxPages: int, currentPage: int,
    pagination: Option<PaginationView>, activeFilters: seq<SummaryItem>)

  /** WP_Query keeps `absint` of the page it is given. */
  function AbsInt(n: int): nat
  {
    if n < 0 then -n else n
  }

  /**
   * The answer of `handle_filter` once the merged parameters are known:
   * counts from the query, `current_page` echoing the posted page, the
   * pager for the query's own page, and the summary of the merged parameters.
   */
  function FilterResponseFor(args: FilterArgs, merged: Params, rows: seq<Facet>, result: QueryResult,
                             paginationType: Option<string>, host: Host): (r: Outcome<FilterResponse>)
    ensures r.Ok? ==> r.value.currentPage == args.paged
    ensures r.Ok? ==> r.value.foundPosts == result.foundPosts && r.value.maxPages == result.maxPages
    ensures r.Ok? ==> r.value.pagination == AjaxPagination(paginationType, AbsInt(args.paged), result.maxPages)
    ensures r.Fatal? <==> Summary(ActiveFilters(merged, host), rows, host).Fatal?
    ensures r.Ok? ==> r.value.activeFilters == Summary(ActiveFilters(merged, host), rows, host).value
  {
    match Summary(ActiveFilters(merged, host), rows, host)
    case Fatal => Fatal
    case Ok(items) =>
      Ok(FilterResponse(result.foundPosts, result.maxPages, args.paged,
                                  AjaxPagination(paginationType, AbsInt(args.paged), result.maxPages), items))
  }

  /** The request superglobals; `$_GET` is reassigned by the handlers. */
  class AjaxRequest {
    const post: Params
    var get: Params

    constructor (post0: Params, get0: Params)
      ensures post == post0 && get == get0
    {
      post := post0;
      get := get0;
    }

    /**
     * `handle_filter`: read the settings, parse the filters, merge them over
     * `$_GET` (which stays merged), and answer.  A failing `parse_str`
     * stops the request before `$_GET` changes.
     */
    method HandleFilter(reg: FacetRegistry, result: QueryResult, paginationType: Option<string>, host: Host)
      returns (r: Outcome<FilterResponse>)
      requires reg.Valid()
      modifies this, reg
      ensures reg.Valid()
      ensures PostedFilters(post, host).Fatal? ==> r.Fatal? && get == old(get)
      ensures PostedFilters(post, host).Ok? ==> get == MergeOver(old(get), PostedFilters(post, host).value)
      ensures PostedFilters(post, host).Ok? ==>
        r == FilterResponseFor(FilterArgsOf(post, host), get, reg.rows, result, paginationType, host)
    {
      var args := FilterArgsOf(post, host);
      var filters := PostedFilters(post, host);
      if filters.Fatal? {
        return Fatal;
      }
      get := MergeOver(get, filters.value);
      var summary := ActiveFilterSummary(get, reg, host);
      if summary.Fatal? {
        return Fatal;
      }
      var pagination := RenderAjaxPagination(paginationType, AbsInt(args.paged), result.maxPages);
      r := Ok(FilterResponse(result.foundPosts, result.maxPages, args.paged, pagination, summary.value));
    }

    /** `load_more`: merges the filters like `handle_filter` and answers whether a further page exists. */
    method LoadMore(result: QueryResult, host: Host) returns (r: Outcome<bool>)
      modifies this
      ensures PostedFilters(post, host).Fatal? ==> r.Fatal? && get == old(get)
      ensures PostedFilters(post, host).Ok? ==> get == MergeOver(old(get), PostedFilters(post, host).value)
      ensures PostedFilters(post, host).Ok? ==> r == Ok(HasMore(PostedInt(post, "paged", 1, host), result.maxPages))
    {
      var paged := PostedInt(post, "paged", 1, host);
      var filters := PostedFilters(post, host);
      if filters.Fatal? {
        return Fatal;
      }
      get := MergeOver(get, filters.value);
      r := Ok(paged < result.maxPages);
    }
  }

  /** `has_more`: the posted page is before the last page of the query. */
  function HasMore(paged: int, maxPages: int): (b: bool)
    ensures b <==> paged < maxPages
  {
    paged < maxPages
  }

  /**
   * Load more and the pager agree: on a valid page, a further page exists
   * exactly when the load-more button (and Next) is shown.
   */
  lemma HasMoreMatchesButton(paged: int, total: int)
    requires total > 1 && 1 <= paged
    ensures HasMore(paged, total) <==> AjaxPagination(Some("load_more"), AbsInt(paged), total).value.nextPage.Some?
  {
  }

  // ---------------------------------------------------------------------
  // get_facet_counts
  // ---------------------------------------------------------------------

  /** What the count queries return: the taxonomy's non-empty terms and the `(meta_value, COUNT(*))` rows. */
  datatype CountData = CountData(terms: seq<Term>, metaRows: seq<(string, string)>)

  /** The counts keyed by term slug or meta value; `None` is the "Facet not found" error. */
  function FacetCounts(facet: Option<Facet>, data: CountData, host: Host): (r: Option<map<string, int>>)
    ensures r.None? <==> facet.None?
    ensures r.Some? && facet.value.source == "taxonomy" ==>
      forall k :: k in r.value <==> exists i :: 0 <= i < |data.terms| && data.terms[i].slug == k
    ensures r.Some? && facet.value.source == "custom_field" ==>
      forall k :: k in r.value <==> exists i :: 0 <= i < |data.metaRows| && data.metaRows[i].0 == k
    ensures r.Some? && facet.value.source != "taxonomy" && facet.value.source != "custom_field" ==> r.value == map[]
  {
    if facet.None? then None
    else if facet.value.source == "taxonomy" then
      var rows := TermRows(data.terms);
      assert forall k :: k in Keys(rows) <==> exists i :: 0 <= i < |data.terms| && data.terms[i].slug == k by {
        forall k ensures k in Keys(rows) ==> exists i :: 0 <= i < |data.terms| && data.terms[i].slug == k {
          if k in Keys(rows) {
            var i :| 0 <= i < |Keys(rows)| && Keys(rows)[i] == k;
            assert data.terms[i].slug == k;
          }
        }
      }
      Some(CountsOf(rows))
    else if facet.value.source == "custom_field" then
      var rows := MetaRows(data.metaRows, host);
      assert forall k :: k in Keys(rows) <==> exists i :: 0 <= i < |data.metaRows| && data.metaRows[i].0 == k by {
        forall k ensures k in Keys(rows) ==> exists i :: 0 <= i < |data.metaRows| && data.metaRows[i].0 == k {
          if k in Keys(rows) {
            var i :| 0 <= i < |Keys(rows)| && Keys(rows)[i] == k;
            assert data.metaRows[i].0 == k;
          }
        }
      }
      Some(CountsOf(rows))
    else Some(map[])
  }

  /** `(slug, count)` of every term. */
  function TermRows(terms: seq<Term>): (r: seq<(string, int)>)
    ensures |r| == |terms| && forall i :: 0 <= i < |r| ==> r[i] == (terms[i].slug, terms[i].count)
  {
    seq(|terms|, i requires 0 <= i < |terms| => (terms[i].slug, terms[i].count))
  }

  /** `(meta_value, intval(count))` of every row. */
  function MetaRows(rows: seq<(string, string)>, host: Host): (r: seq<(string, int)>)
    ensures |r| == |rows| && forall i :: 0 <= i < |r| ==> r[i] == (rows[i].0, host.intval(rows[i].1))
  {
    seq(|rows|, i requires 0 <= i < |rows| => (rows[i].0, host.intval(rows[i].1)))
  }

  /** A key's count is the one of the last row with that key. */
  lemma {:induction false} CountsLastWins(rows: seq<(string, int)>, i: int)
    requires 0 <= i < |rows|
    requires forall j :: i < j < |rows| ==> rows[j].0 != rows[i].0
    ensures rows[i].0 in CountsOf(rows) && CountsOf(rows)[rows[i].0] == rows[i].1
    decreases |rows|
  {
    if i < |rows| - 1 {
      var init := rows[..|rows| - 1];
      CountsLastWins(init, i);
    }
  }

  /** The foreach loop over the terms: `$counts[$term->slug] = $term->count`. */
  method CountTerms(terms: seq<Term>) returns (counts: map<string, int>)
    ensures counts == CountsOf(TermRows(terms))
  {
    var rows := TermRows(terms);
    counts := map[];
    var i := 0;
    while i < |terms|
      invariant 0 <= i <= |terms|
      invariant counts == CountsOf(rows[..i])
    {
      assert rows[..i + 1][..i] == rows[..i];
      counts := counts[terms[i].slug := terms[i].count];
      i := i + 1;
    }
    assert rows[..|rows|] == rows;
  }

  /** The foreach loop over the meta rows: `$counts[$row->meta_value] = intval($row->count)`. */
  method CountMetaValues(metaRows: seq<(string, string)>, host: Host) returns (counts: map<string, int>)
    ensures counts == CountsOf(MetaRows(metaRows, host))
  {
    var rows := MetaRows(metaRows, host);
    counts := map[];
    var i := 0;
    while i < |metaRows|
      invariant 0 <= i <= |metaRows|
      invariant counts == CountsOf(rows[..i])
    {
      assert rows[..i + 1][..i] == rows[..i];
      counts := counts[metaRows[i].0 := host.intval(metaRows[i].1)];
      i := i + 1;
    }
    assert rows[..|rows|] == rows;
  }

  /** `get_facet_counts`: look the posted slug up, then count by the facet's source. */
  method GetFacetCounts(reg: FacetRegistry, post: Params, data: CountData, host: Host) returns (r: Option<map<string, int>>)
    requires reg.Valid()
    modifies reg
    ensures reg.Valid()
    ensures r == FacetCounts(FindRow(reg.rows, PostedText(post, "facet", "", host)), data, host)
  {
    var facet := reg.GetFacet(PostedText(post, "facet", "", host));
    if facet.None? {
      return None;
    }
    var counts: map<string, int> := map[];
    if facet.value.source == "taxonomy" {
      counts := CountTerms(data.terms);
    } else if facet.value.source == "custom_field" {
      counts := CountMetaValues(data.metaRows, host);
    }
    r := Some(counts);
  }
}
