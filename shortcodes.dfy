/**
 * The shortcodes (CFS_Shortcodes): the attribute decisions of `[cfs_facet]`,
 * `[cfs_results]` and `[cfs_active_filters]`, and the page-number window of
 * the results pagination, which the AJAX handler renders with the same rules.
 */
module Shortcodes {
  import opened Php
  import opened Facets
  import opened QueryFilters
  import opened QueryUrls

  /** Shortcode attributes as WordPress hands them over: name to text. */
  type Atts = seq<(string, string)>

  /** One attribute after `shortcode_atts`: the given value if the attribute is present, else the default. */
  function AttOr(atts: Atts, name: string, default: string): string
  {
    match Get(atts, name)
    case Some(v) => v
    case None => default
  }

  /**
   * `shortcode_atts(defaults, atts)`: exactly the default names, in their
   * order, each with the given value when present; other given names are dropped.
   */
  function ShortcodeAtts(defaults: Atts, atts: Atts): (r: Atts)
    ensures Keys(r) == Keys(defaults)
  {
    if |defaults| == 0 then []
    else [(defaults[0].0, AttOr(atts, defaults[0].0, defaults[0].1))] + ShortcodeAtts(defaults[1..], atts)
  }

  /** Reading an attribute back after `shortcode_atts`: the given value, the default, or nothing for an unknown name. */
  lemma {:induction false} ShortcodeAttsGet(defaults: Atts, atts: Atts, name: string)
    ensures Get(ShortcodeAtts(defaults, atts), name) ==
      if Get(defaults, name).Some? then Some(AttOr(atts, name, Get(defaults, name).value)) else None
  {
    if |defaults| > 0 {
      ShortcodeAttsGet(defaults[1..], atts, name);
    }
  }

  // ---------------------------------------------------------------------
  // [cfs_facet]
  // ---------------------------------------------------------------------

  /** The defaults of `[cfs_facet]`. */
  const FacetDefaults: Atts := [("slug", ""), ("show_label", "true"), ("class", ""), ("target_grid", "")]

  /**
   * What `[cfs_facet]` hands to the renderer: nothing when the slug is
   * PHP-empty (the error comment is shown instead), else the slug and the
   * render options; the label is shown only for the exact text "true".
   */
  function FacetShortcodeArgs(atts: Atts): (r: Option<(string, RenderArgs)>)
    ensures r.None? <==> Falsy(AttOr(atts, "slug", ""))
    ensures r.Some? ==> r.value.0 == AttOr(atts, "slug", "")
    ensures r.Some? ==> (r.value.1.showLabel <==> Get(atts, "show_label").None? || Get(atts, "show_label") == Some("true"))
    ensures r.Some? ==> r.value.1.targetGrid == AttOr(atts, "target_grid", "")
                        && r.value.1.cssClass == AttOr(atts, "class", "")
                        && r.value.1.postType == "" && r.value.1.postsPerPage == ""
  {
    var a := ShortcodeAtts(FacetDefaults, atts);
    ShortcodeAttsGet(FacetDefaults, atts, "slug");
    ShortcodeAttsGet(FacetDefaults, atts, "show_label");
    ShortcodeAttsGet(FacetDefaults, atts, "class");
    ShortcodeAttsGet(FacetDefaults, atts, "target_grid");
    var slug := Get(a, "slug").value;
    if Falsy(slug) then None
    else Some((slug, RenderArgs(Get(a, "class").value, Get(a, "show_label").value == "true",
                                Get(a, "target_grid").value, "", "")))
  }

  /** The output of `[cfs_facet]`: the error comment, or what `render` produced (`None` for ''). */
  datatype FacetOutput = SlugMissing | Rendered(view: Option<FacetView>)

  /** `render_facet`. */
  method FacetShortcode(reg: FacetRegistry, atts: Atts, get: Params, data: ChoiceData, host: Host)
    returns (out: FacetOutput)
    requires reg.Valid()
    modifies reg
    ensures reg.Valid()
    ensures out.SlugMissing? <==> Falsy(AttOr(atts, "slug", ""))
    ensures out.Rendered? ==> (out.view.None? <==> FindRow(reg.rows, AttOr(atts, "slug", "")).None?)
    ensures out.Rendered? && out.view.Some? ==>
      out.view.value.attrs == DataAttributes(AttOr(atts, "slug", ""), FindRow(reg.rows, AttOr(atts, "slug", "")).value,
                                             FacetShortcodeArgs(atts).value.1)
    ensures out.Rendered? && out.view.Some? ==>
      var row := FindRow(reg.rows, AttOr(atts, "slug", "")).value;
      && (out.view.value.caption.Some? <==>
            (Get(atts, "show_label").None? || Get(atts, "show_label") == Some("true")) &&
            row.settings.caption.Some? && !Falsy(row.settings.caption.value))
      && out.view.value == View(AttOr(atts, "slug", ""), row, FacetShortcodeArgs(atts).value.1, get,
                                if ListsChoices(row.ftype) then Choices(row, data) else [], host)
  {
    var args := FacetShortcodeArgs(atts);
    if args.None? {
      return SlugMissing;
    }
    var view := Render(reg, args.value.0, args.value.1, get, data, host);
    out := Rendered(view);
  }

  // ---------------------------------------------------------------------
  // [cfs_results]
  // ---------------------------------------------------------------------

  const ResultsDefaults: Atts := [("post_type", "post"), ("posts_per_page", "12"), ("template", ""), ("columns", "3"),
                                  ("orderby", "date"), ("order", "DESC"), ("class", ""), ("grid_id", "")]

  /**
   * The grid id of a results wrapper: the `grid_id` attribute when it is not
   * PHP-empty, else "cfs-grid-" followed by the unique suffix `uniqid` returned.
   */
  function ResultsGridId(atts: Atts, uniq: string): (id: string)
    ensures !Falsy(AttOr(atts, "grid_id", "")) ==> id == AttOr(atts, "grid_id", "")
    ensures Falsy(AttOr(atts, "grid_id", "")) ==> id == "cfs-grid-" + uniq
    ensures !Falsy(id)
  {
    var given := AttOr(atts, "grid_id", "");
    if !Falsy(given) then given else "cfs-grid-" + uniq
  }

  /**
   * The attributes of `.cfs-results-wrapper`, which the browser script reads
   * back: the grid id twice (as `id` and `data-grid-id`), then the query settings.
   */
  function ResultsWrapperAttributes(atts: Atts, uniq: string): (r: seq<(string, string)>)
    ensures Keys(r) == ["id", "data-grid-id", "data-post-type", "data-posts-per-page", "data-template", "data-orderby", "data-order"]
    ensures r[0].1 == r[1].1 == ResultsGridId(atts, uniq)
    ensures r[2].1 == AttOr(atts, "post_type", "post") && r[3].1 == AttOr(atts, "posts_per_page", "12")
    ensures r[4].1 == AttOr(atts, "template", "")
    ensures r[5].1 == AttOr(atts, "orderby", "date") && r[6].1 == AttOr(atts, "order", "DESC")
  {
    var id := ResultsGridId(atts, uniq);
    [("id", id), ("data-grid-id", id),
     ("data-post-type", AttOr(atts, "post_type", "post")),
     ("data-posts-per-page", AttOr(atts, "posts_per_page", "12")),
     ("data-template", AttOr(atts, "template", "")),
     ("data-orderby", AttOr(atts, "orderby", "date")),
     ("data-order", AttOr(atts, "order", "DESC"))]
  }

  /** The values of the sort dropdown, in display order. */
  const SortValues: seq<string> := ["date-DESC", "date-ASC", "title-ASC", "title-DESC", "menu_order-ASC"]

  /** The sort dropdown: each option with whether `selected()` marks it for `orderby-order`. */
  function SortOptions(orderby: string, order: string): (r: seq<(string, bool)>)
    ensures |r| == |SortValues|
    ensures forall i :: 0 <= i < |r| ==> r[i].0 == SortValues[i]
  {
    var key := orderby + "-" + order;
    seq(|SortValues|, i requires 0 <= i < |SortValues| => (SortValues[i], SortValues[i] == key))
  }

  /**
   * At most one option is selected, and an option is selected exactly when
   * its value is `orderby-order`; a combination not on the list selects none.
   */
  lemma SortSelection(orderby: string, order: string)
    ensures var r := SortOptions(orderby, order);
      (forall i :: 0 <= i < |r| ==> (r[i].1 <==> SortValues[i] == orderby + "-" + order))
      && (forall i, j :: 0 <= i < j < |r| && r[i].1 ==> !r[j].1)
      && ((exists i :: 0 <= i < |r| && r[i].1) <==> orderby + "-" + order in SortValues)
  {
    var r := SortOptions(orderby, order);
    forall i, j | 0 <= i < j < |r| && r[i].1 ensures !r[j].1 {
      assert SortValues[i] != SortValues[j];
    }
  }

  // ---------------------------------------------------------------------
  // [cfs_active_filters]
  // ---------------------------------------------------------------------

  /** The active-filters block: one entry per summary item and the optional "Clear all" link. */
  datatype ActiveBlock = ActiveBlock(items: seq<SummaryItem>, clearAll: bool)

  /**
   * `render_active_filters` once the summary is known: nothing for an empty
   * summary, else every item in order; "Clear all" only for the exact text "true".
   */
  function ActiveFiltersView(atts: Atts, summary: seq<SummaryItem>): (r: Option<ActiveBlock>)
    ensures r.None? <==> |summary| == 0
    ensures r.Some? ==> r.value.items == summary
    ensures r.Some? ==> (r.value.clearAll <==> Get(atts, "show_clear_all").None? || Get(atts, "show_clear_all") == Some("true"))
  {
    if |summary| == 0 then None
    else Some(ActiveBlock(summary, AttOr(atts, "show_clear_all", "true") == "true"))
  }

  /** `render_active_filters`: the summary of the request's filters, then the block. */
  method ActiveFiltersShortcode(reg: FacetRegistry, atts: Atts, get: Params, host: Host)
    returns (out: Outcome<Option<ActiveBlock>>)
    requires reg.Valid()
    modifies reg
    ensures reg.Valid()
    ensures var s := Summary(ActiveFilters(get, host), reg.rows, host);
      out == if s.Fatal? then Fatal else Ok(ActiveFiltersView(atts, s.value))
  {
    var s := ActiveFilterSummary(get, reg, host);
    if s.Fatal? {
      return Fatal;
    }
    out := Ok(ActiveFiltersView(atts, s.value));
  }

  // ---------------------------------------------------------------------
  // Pagination
  // ---------------------------------------------------------------------

  /** An entry of `.cfs-page-numbers`: a numbered button (maybe the active one) or the "..." marker. */
  datatype PageItem = PageButton(page: int, active: bool) | Dots

  /** The standard pagination: the Previous target, the numbered row, the Next target. */
  datatype Pager = Pager(prev: Option<int>, numbers: seq<PageItem>, next: Option<int>)

  /** `max(1, paged)`; `paged` is the query's page number, which WP_Query keeps non-negative. */
  function CurrentPage(paged: nat): int
  {
    if paged > 1 then paged else 1
  }

  /** Two pages either side of the current one, clipped to the first and last page. */
  function WindowStart(cur: int): int
  {
    if cur - 2 > 1 then cur - 2 else 1
  }

  function WindowEnd(cur: int, total: int): int
  {
    if total < cur + 2 then total else cur + 2
  }

  /** The buttons `lo..hi`, only `cur` active. */
  function Window(lo: int, hi: int, cur: int): (r: seq<PageItem>)
    ensures |r| == if hi < lo then 0 else hi - lo + 1
    ensures forall k :: 0 <= k < |r| ==> r[k] == PageButton(lo + k, lo + k == cur)
    decreases if hi < lo then 0 else hi - lo + 1
  {
    if hi < lo then [] else Window(lo, hi - 1, cur) + [PageButton(hi, hi == cur)]
  }

  /** Page 1 and "..." before a window that starts later. */
  function Leading(start: int): seq<PageItem>
  {
    if start > 1 then [PageButton(1, false)] + (if start > 2 then [Dots] else []) else []
  }

  /** "..." and the last page after a window that ends earlier. */
  function Trailing(end: int, total: int): seq<PageItem>
  {
    if end < total then (if end < total - 1 then [Dots] else []) + [PageButton(total, false)] else []
  }

  function NumberRow(cur: int, total: int): seq<PageItem>
  {
    Leading(WindowStart(cur)) + Window(WindowStart(cur), WindowEnd(cur, total), cur) + Trailing(WindowEnd(cur, total), total)
  }

  /**
   * `render_pagination` for a query on page `paged` of `total`: nothing for
   * a single page; Previous only past page 1, Next only before the last page.
   */
  function Pagination(paged: nat, total: int): (r: Option<Pager>)
    ensures r.None? <==> total <= 1
    ensures r.Some? ==> (r.value.prev.Some? <==> CurrentPage(paged) > 1)
                        && (r.value.prev.Some? ==> r.value.prev.value == CurrentPage(paged) - 1 >= 1)
    ensures r.Some? ==> (r.value.next.Some? <==> CurrentPage(paged) < total)
                        && (r.value.next.Some? ==> r.value.next.value == CurrentPage(paged) + 1 <= total)
  {
    if total <= 1 then None
    else
      var cur := CurrentPage(paged);
      Some(Pager(if cur > 1 then Some(cur - 1) else None, NumberRow(cur, total), if cur < total then Some(cur + 1) else None))
  }

  /** The `for` loop of `render_pagination`: the buttons `start..end`, only `cur` active. */
  method WindowButtons(start: int, end: int, cur: int) returns (buttons: seq<PageItem>)
    ensures buttons == Window(start, end, cur)
  {
    buttons := [];
    var i := start;
    while i <= end
      invariant i == start || start <= i <= end + 1
      invariant buttons == Window(start, i - 1, cur)
    {
      buttons := buttons + [PageButton(i, i == cur)];
      i := i + 1;
    }
  }

  /** `render_pagination`: Previous, the numbered row, Next, emitted in that order. */
  method RenderPagination(paged: nat, total: int) returns (r: Option<Pager>)
    ensures r == Pagination(paged, total)
  {
    if total <= 1 {
      return None;
    }
    var cur := if paged > 1 then paged else 1;
    var prev: Option<int> := None;
    if cur > 1 {
      prev := Some(cur - 1);
    }
    var start := if cur - 2 > 1 then cur - 2 else 1;
    var end := if total < cur + 2 then total else cur + 2;
    var numbers: seq<PageItem> := [];
    if start > 1 {
      numbers := numbers + [PageButton(1, false)];
      if start > 2 {
        numbers := numbers + [Dots];
      }
    }
    assert numbers == Leading(start);
    var buttons := WindowButtons(start, end, cur);
    numbers := numbers + buttons;
    var tail: seq<PageItem> := [];
    if end < total {
      if end < total - 1 {
        tail := tail + [Dots];
      }
      tail := tail + [PageButton(total, false)];
    }
    assert tail == Trailing(end, total);
    numbers := numbers + tail;
    var next: Option<int> := None;
    if cur < total {
      next := Some(cur + 1);
    }
    r := Some(Pager(prev, numbers, next));
  }

  // ---------------------------------------------------------------------
  // Properties of the page-number row
  // ---------------------------------------------------------------------

  /** Page numbers strictly increase from left to right. */
  predicate Ascending(s: seq<PageItem>)
  {
    forall i, j :: 0 <= i < j < |s| && s[i].PageButton? && s[j].PageButton? ==> s[i].page < s[j].page
  }

  predicate PagesIn(s: seq<PageItem>, lo: int, hi: int)
  {
    forall i :: 0 <= i < |s| && s[i].PageButton? ==> lo <= s[i].page <= hi
  }

  /**
   * No page is skipped silently: the row is a button followed by steps, each
   * either the next page's button or "..." and a page at least two further on.
   */
  predicate GapsMarked(s: seq<PageItem>)
    decreases |s|
  {
    |s| > 0 && s[0].PageButton? &&
    (|s| == 1
     || (s[1].PageButton? && s[1].page == s[0].page + 1 && GapsMarked(s[1..]))
     || (|s| > 2 && s[1].Dots? && s[2].PageButton? && s[2].page >= s[0].page + 2 && GapsMarked(s[2..])))
  }

  lemma AscendingJoin(a: seq<PageItem>, b: seq<PageItem>, lo: int, mid: int, hi: int)
    requires lo <= mid <= hi + 1
    requires Ascending(a) && Ascending(b) && PagesIn(a, lo, mid - 1) && PagesIn(b, mid, hi)
    ensures Ascending(a + b) && PagesIn(a + b, lo, hi)
  {
    var s := a + b;
    forall i, j | 0 <= i < j < |s| && s[i].PageButton? && s[j].PageButton? ensures s[i].page < s[j].page {
      if j < |a| {
        assert s[i] == a[i] && s[j] == a[j];
      } else if i < |a| {
        assert s[i] == a[i] && s[j] == b[j - |a|];
      } else {
        assert s[i] == b[i - |a|] && s[j] == b[j - |a|];
      }
    }
    forall i | 0 <= i < |s| && s[i].PageButton? ensures lo <= s[i].page <= hi {
      if i < |a| { assert s[i] == a[i]; } else { assert s[i] == b[i - |a|]; }
    }
  }

  /** The row of a query with more than one page, split into its three parts. */
  lemma RowParts(paged: nat, total: int) returns (cur: int, start: int, end: int, lead: seq<PageItem>, win: seq<PageItem>, trail: seq<PageItem>)
    requires total > 1
    ensures cur == CurrentPage(paged) >= 1 && start == WindowStart(cur) && end == WindowEnd(cur, total)
    ensures lead == Leading(start) && win == Window(start, end, cur) && trail == Trailing(end, total)
    ensures Pagination(paged, total).value.numbers == lead + win + trail
    ensures 1 <= start <= cur && end >= 2 && end <= total
  {
    cur := CurrentPage(paged);
    start, end := WindowStart(cur), WindowEnd(cur, total);
    lead, win, trail := Leading(start), Window(start, end, cur), Trailing(end, total);
  }

  /** The row lists pages between 1 and the last page, each at most once, in ascending order. */
  lemma PagesAscending(paged: nat, total: int)
    requires total > 1
    ensures var row := Pagination(paged, total).value.numbers;
      Ascending(row) && PagesIn(row, 1, total)
  {
    var cur, start, end, lead, win, trail := RowParts(paged, total);
    PartsAscending(cur, start, end, total);
  }

  lemma PartsAscending(cur: int, start: int, end: int, total: int)
    requires cur >= 1 && start == WindowStart(cur) && end == WindowEnd(cur, total)
    requires 1 <= start <= cur && 2 <= end <= total
    ensures var row := Leading(start) + Window(start, end, cur) + Trailing(end, total);
      Ascending(row) && PagesIn(row, 1, total)
  {
    var lead, win, trail := Leading(start), Window(start, end, cur), Trailing(end, total);
    assert PagesIn(lead, 1, start - 1) && Ascending(lead);
    if start <= end {
      AscendingJoin(lead, win, 1, start, end);
      assert PagesIn(trail, end + 1, total) && Ascending(trail);
      AscendingJoin(lead + win, trail, 1, end + 1, total);
    } else {
      // The window is empty and so is the trailing part: the row is page 1 and "...".
      assert win == [] && trail == [];
      assert lead + win + trail == lead;
    }
  }

  /**
   * Exactly the current page is active: every active button shows it, and
   * when it is a real page (not past the last) one button is active.
   */
  lemma ActiveIsCurrent(paged: nat, total: int)
    requires total > 1
    ensures var row := Pagination(paged, total).value.numbers;
      (forall i :: 0 <= i < |row| && row[i].PageButton? && row[i].active ==> row[i].page == CurrentPage(paged))
      && (forall i, j :: (0 <= i < |row| && 0 <= j < |row| && row[i].PageButton? && row[i].active
                          && row[j].PageButton? && row[j].active) ==> i == j)
      && (CurrentPage(paged) <= total <==> exists i :: 0 <= i < |row| && row[i] == PageButton(CurrentPage(paged), true))
  {
    var cur, start, end, lead, win, trail := RowParts(paged, total);
    PartsActive(cur, start, end, total);
  }

  lemma PartsActive(cur: int, start: int, end: int, total: int)
    requires cur >= 1 && start == WindowStart(cur) && end == WindowEnd(cur, total)
    requires 1 <= start <= cur && 2 <= end <= total
    ensures var row := Leading(start) + Window(start, end, cur) + Trailing(end, total);
      (forall i :: 0 <= i < |row| && row[i].PageButton? && row[i].active ==> row[i].page == cur)
      && (forall i, j :: (0 <= i < |row| && 0 <= j < |row| && row[i].PageButton? && row[i].active
                          && row[j].PageButton? && row[j].active) ==> i == j)
      && (cur <= total <==> exists i :: 0 <= i < |row| && row[i] == PageButton(cur, true))
  {
    var lead, win, trail := Leading(start), Window(start, end, cur), Trailing(end, total);
    var row := lead + win + trail;
    assert forall k :: 0 <= k < |lead| ==> lead[k] == PageButton(1, false) || lead[k] == Dots;
    assert forall k :: 0 <= k < |trail| ==> trail[k] == PageButton(total, false) || trail[k] == Dots;
    forall i | 0 <= i < |row|
      ensures row[i] == if i < |lead| then lead[i] else if i < |lead| + |win| then win[i - |lead|] else trail[i - |lead| - |win|]
    {
    }
    PartsAscending(cur, start, end, total);
    if cur <= total {
      assert row[|lead| + cur - start] == win[cur - start];
    }
  }

  lemma ConsNext(x: PageItem, s: seq<PageItem>)
    requires x.PageButton? && GapsMarked(s) && s[0].page == x.page + 1
    ensures GapsMarked([x] + s)
  {
    assert ([x] + s)[1..] == s;
  }

  lemma ConsGap(x: PageItem, s: seq<PageItem>)
    requires x.PageButton? && GapsMarked(s) && s[0].page >= x.page + 2
    ensures GapsMarked([x, Dots] + s)
  {
    assert ([x, Dots] + s)[2..] == s;
  }

  /** Appending the next page's button keeps the gaps marked. */
  lemma {:induction false} SnocNext(s: seq<PageItem>, x: PageItem)
    requires GapsMarked(s) && s[|s| - 1].PageButton? && x.PageButton? && x.page == s[|s| - 1].page + 1
    ensures GapsMarked(s + [x])
    decreases |s|
  {
    if |s| == 1 {
      assert (s + [x])[1..] == [x];
    } else if s[1].PageButton? && s[1].page == s[0].page + 1 && GapsMarked(s[1..]) {
      assert (s + [x])[1..] == s[1..] + [x];
      SnocNext(s[1..], x);
    } else {
      assert (s + [x])[2..] == s[2..] + [x];
      SnocNext(s[2..], x);
    }
  }

  /** Appending "..." and a page at least two further on keeps the gaps marked. */
  lemma {:induction false} SnocGap(s: seq<PageItem>, x: PageItem)
    requires GapsMarked(s) && s[|s| - 1].PageButton? && x.PageButton? && x.page >= s[|s| - 1].page + 2
    ensures GapsMarked(s + [Dots, x])
    decreases |s|
  {
    if |s| == 1 {
      assert (s + [Dots, x])[2..] == [x];
    } else if s[1].PageButton? && s[1].page == s[0].page + 1 && GapsMarked(s[1..]) {
      assert (s + [Dots, x])[1..] == s[1..] + [Dots, x];
      SnocGap(s[1..], x);
    } else {
      assert (s + [Dots, x])[2..] == s[2..] + [Dots, x];
      SnocGap(s[2..], x);
    }
  }

  /** A non-empty window is a run of consecutive pages. */
  lemma {:induction false} WindowGapless(lo: int, hi: int, cur: int)
    requires lo <= hi
    ensures GapsMarked(Window(lo, hi, cur))
    decreases hi - lo
  {
    if lo < hi {
      WindowGapless(lo, hi - 1, cur);
      SnocNext(Window(lo, hi - 1, cur), PageButton(hi, hi == cur));
    }
  }

  /** The row before the trailing part: it ends with the last button of the window, gaps marked. */
  lemma FrontGapsMarked(cur: int, start: int, end: int)
    requires start == WindowStart(cur) && start <= end
    ensures var front := Leading(start) + Window(start, end, cur);
      |front| > 0 && front[0] == PageButton(1, cur == 1) && front[|front| - 1] == PageButton(end, end == cur)
      && GapsMarked(front)
  {
    var win := Window(start, end, cur);
    WindowGapless(start, end, cur);
    if start == 2 {
      ConsNext(PageButton(1, false), win);
    } else if start > 2 {
      ConsGap(PageButton(1, false), win);
    } else {
      assert Leading(start) + win == win;
    }
  }

  /**
   * When the current page is at most two past the last one, the row runs
   * from page 1 to the last page and every gap is marked by "...".
   */
  lemma RowCoversAllPages(paged: nat, total: int)
    requires total > 1 && CurrentPage(paged) <= total + 2
    ensures var row := Pagination(paged, total).value.numbers;
      |row| > 0 && row[0] == PageButton(1, CurrentPage(paged) == 1)
      && row[|row| - 1] == PageButton(total, CurrentPage(paged) == total)
      && GapsMarked(row)
  {
    var cur, start, end, lead, win, trail := RowParts(paged, total);
    FrontGapsMarked(cur, start, end);
    var front := lead + win;
    assert lead + win + trail == front + trail;
    if end == total - 1 {
      assert trail == [PageButton(total, false)];
      SnocNext(front, PageButton(total, false));
      assert (front + trail)[0] == front[0];
    } else if end < total - 1 {
      assert trail == [Dots, PageButton(total, false)];
      SnocGap(front, PageButton(total, false));
      assert (front + trail)[0] == front[0];
    } else {
      assert front + trail == front;
    }
  }

  /** Previous and Next lead to pages that the numbered row shows, whenever the current page is a real page. */
  lemma LinksAreShown(paged: nat, total: int)
    requires total > 1 && CurrentPage(paged) <= total
    ensures var p := Pagination(paged, total).value;
      (p.prev.Some? ==> PageButton(p.prev.value, false) in p.numbers)
      && (p.next.Some? ==> PageButton(p.next.value, false) in p.numbers)
  {
    var cur, start, end, lead, win, trail := RowParts(paged, total);
    var row := lead + win + trail;
    if cur > 1 {
      assert row[|lead| + cur - 1 - start] == win[cur - 1 - start];
    }
    if cur < total {
      assert row[|lead| + cur + 1 - start] == win[cur + 1 - start];
    }
  }

  /**
   * Far past the last page the window is empty: the row is page 1 and "...",
   * Previous points past the last page too, and there is no Next.
   */
  lemma PastLastPage(paged: nat, total: int)
    requires total > 1 && paged > total + 2
    ensures Pagination(paged, total) == Some(Pager(Some(paged - 1), [PageButton(1, false), Dots], None))
  {
    var cur, start, end, lead, win, trail := RowParts(paged, total);
    assert start == paged - 2 && end == total;
    assert lead == [PageButton(1, false), Dots];
    assert win == [] && trail == [];
    assert lead + win + trail == [PageButton(1, false), Dots];
  }
}
