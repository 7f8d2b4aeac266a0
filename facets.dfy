/**
 * The facet definition store and the facet renderer (CFS_Facets): the
 * per-request slug cache, the current values read back from the URL, the
 * choices listed for a facet, and for every facet type the decision which
 * option is pre-checked, pre-selected or pre-filled.  Markup is modelled by
 * the data it carries: attribute pairs and one `Body` value per facet type.
 */
module Facets {
  import opened Php

  /** The decoded `settings` column of a facet row; a missing key is `None` (or `false`). */
  datatype Settings = Settings(
    caption: Option<string>,
    placeholder: Option<string>,
    showCount: bool,
    hideEmpty: Option<bool>,
    multiple: bool,
    hierarchical: bool,
    orderby: Option<string>,
    order: Option<string>,
    dataType: Option<string>,
    postTypes: Option<seq<string>>,
    min: Option<real>,
    max: Option<real>,
    step: Option<real>,
    prefix: Option<string>,
    suffix: Option<string>,
    inputsEnabled: Option<bool>,
    dateType: Option<string>)

  /** One row of the facets table. */
  datatype Facet = Facet(
    id: int,
    name: string,
    slug: string,
    ftype: string,       // checkbox, radio, dropdown, range, search, date, rating
    source: string,      // taxonomy, custom_field, post_attribute
    sourceKey: string,
    settings: Settings)

  /** The facets table keeps slugs unique (UNIQUE KEY slug). */
  predicate UniqueSlugs(rows: seq<Facet>)
  {
    forall i, j :: 0 <= i < j < |rows| ==> rows[i].slug != rows[j].slug
  }

  /** `SELECT * FROM facets WHERE slug = %s`: the first row with that slug. */
  function FindRow(rows: seq<Facet>, slug: string): (r: Option<Facet>)
    ensures r.Some? ==> r.value in rows && r.value.slug == slug
    ensures r.None? ==> forall f :: f in rows ==> f.slug != slug
  {
    if |rows| == 0 then None
    else if rows[0].slug == slug then Some(rows[0])
    else FindRow(rows[1..], slug)
  }

  /** The cache entries `cache_facets` writes for these rows, the last row winning. */
  function RowsBySlug(rows: seq<Facet>): map<string, Facet>
  {
    if |rows| == 0 then map[]
    else RowsBySlug(rows[..|rows| - 1])[rows[|rows| - 1].slug := rows[|rows| - 1]]
  }

  /** With unique slugs, every entry `cache_facets` writes is the row the slug query finds. */
  lemma {:induction false} RowsBySlugAgrees(rows: seq<Facet>, s: string)
    requires UniqueSlugs(rows)
    requires s in RowsBySlug(rows)
    ensures FindRow(rows, s) == Some(RowsBySlug(rows)[s])
  {
    var n := |rows|;
    var last := rows[n - 1];
    var init := rows[..n - 1];
    assert rows == init + [last];
    if last.slug == s {
      FindRowLast(init, last, s);
    } else {
      RowsBySlugAgrees(init, s);
      FindRowPrefix(init, [last], s);
    }
  }

  lemma {:induction false} FindRowPrefix(a: seq<Facet>, b: seq<Facet>, s: string)
    requires FindRow(a, s).Some?
    ensures FindRow(a + b, s) == FindRow(a, s)
  {
    if a[0].slug != s {
      assert (a + b)[1..] == a[1..] + b;
      FindRowPrefix(a[1..], b, s);
    }
  }

  lemma {:induction false} FindRowLast(a: seq<Facet>, last: Facet, s: string)
    requires UniqueSlugs(a + [last]) && last.slug == s
    ensures FindRow(a + [last], s) == Some(last)
  {
    if |a| == 0 {
    } else {
      assert (a + [last])[0] == a[0];
      assert a[0].slug != s by { assert (a + [last])[|a|] == last; }
      assert (a + [last])[1..] == a[1..] + [last];
      assert UniqueSlugs(a[1..] + [last]) by {
        forall i, j | 0 <= i < j < |a[1..] + [last]|
          ensures (a[1..] + [last])[i].slug != (a[1..] + [last])[j].slug
        {
          assert (a[1..] + [last])[i] == (a + [last])[i + 1];
          assert (a[1..] + [last])[j] == (a + [last])[j + 1];
        }
      }
      FindRowLast(a[1..], last, s);
    }
  }

  /** With unique slugs, the slug query finds every row under its own slug. */
  lemma {:induction false} FindRowAt(rows: seq<Facet>, i: int)
    requires UniqueSlugs(rows) && 0 <= i < |rows|
    ensures FindRow(rows, rows[i].slug) == Some(rows[i])
  {
    if i > 0 {
      assert rows[0].slug != rows[i].slug;
      assert UniqueSlugs(rows[1..]) by {
        forall a, b | 0 <= a < b < |rows[1..]|
          ensures rows[1..][a].slug != rows[1..][b].slug
        {
          assert rows[1..][a] == rows[a + 1] && rows[1..][b] == rows[b + 1];
        }
      }
      assert rows[1..][i - 1] == rows[i];
      FindRowAt(rows[1..], i - 1);
    }
  }

  /** Every cache entry is the row the slug query finds. */
  ghost predicate Agrees(rows: seq<Facet>, cache: map<string, Facet>)
  {
    forall s :: s in cache ==> FindRow(rows, s) == Some(cache[s])
  }

  lemma AgreesPut(rows: seq<Facet>, cache: map<string, Facet>, f: Facet)
    requires Agrees(rows, cache) && FindRow(rows, f.slug) == Some(f)
    ensures Agrees(rows, cache[f.slug := f])
  {
  }

  lemma UnionPut(a: map<string, Facet>, b: map<string, Facet>, k: string, v: Facet)
    ensures (a + b)[k := v] == a + b[k := v]
  {
  }

  /** The facet definition store with its per-request cache keyed by slug. */
  class FacetRegistry {
    const rows: seq<Facet>
    var cache: map<string, Facet>

    /** The cache only ever holds rows of the table, under their own slug. */
    ghost predicate Valid()
      reads this
    {
      UniqueSlugs(rows) && Agrees(rows, cache)
    }

    constructor (table: seq<Facet>)
      requires UniqueSlugs(table)
      ensures Valid() && rows == table && cache == map[]
    {
      rows := table;
      cache := map[];
    }

    /** `cache_facets`: load every row of the table into the cache. */
    method CacheFacets()
      requires Valid()
      modifies this
      ensures Valid()
      ensures cache == old(cache) + RowsBySlug(rows)
    {
      var i := 0;
      while i < |rows|
        invariant 0 <= i <= |rows|
        invariant Valid()
        invariant cache == old(cache) + RowsBySlug(rows[..i])
      {
        ghost var prefix := rows[..i + 1];
        assert prefix[..i] == rows[..i] && prefix[i] == rows[i];
        assert RowsBySlug(prefix) == RowsBySlug(rows[..i])[rows[i].slug := rows[i]];
        UnionPut(old(cache), RowsBySlug(rows[..i]), rows[i].slug, rows[i]);
        FindRowAt(rows, i);
        AgreesPut(rows, cache, rows[i]);
        cache := cache[rows[i].slug := rows[i]];
        i := i + 1;
      }
      assert rows[..|rows|] == rows;
    }

    /**
     * `get_facet`: a cache hit returns the cached row; a miss asks the table
     * and caches the row only when one was found.
     */
    method GetFacet(slug: string) returns (r: Option<Facet>)
      requires Valid()
      modifies this
      ensures Valid()
      ensures r == FindRow(rows, slug)
      ensures cache == if slug in old(cache) || r.None? then old(cache) else old(cache)[slug := r.value]
    {
      if slug in cache {
        r := Some(cache[slug]);
        return;
      }
      r := FindRow(rows, slug);
      if r.Some? {
        cache := cache[slug := r.value];
      }
    }
  }

  // ---------------------------------------------------------------------
  // Current values read back from the URL
  // ---------------------------------------------------------------------

  /** What `get_current_values` returns: bounds for a range facet, a list otherwise. */
  datatype Current = Bounds(min: Option<real>, max: Option<real>) | Listed(vs: seq<string>)

  /**
   * `get_current_values`: a range facet reads `cfs_<slug>_min`/`_max` (present
   * means set, even when empty); any other facet reads `cfs_<slug>`, wrapping a
   * scalar as a one-element list, and gets `[]` when it is absent.
   */
  function CurrentValues(facet: Facet, get: Params, host: Host): (r: Current)
    ensures facet.ftype == "range" <==> r.Bounds?
    ensures r.Bounds? ==> (r.min.Some? <==> Get(get, "cfs_" + facet.slug + "_min").Some?)
    ensures r.Bounds? ==> (r.max.Some? <==> Get(get, "cfs_" + facet.slug + "_max").Some?)
    ensures r.Bounds? && r.min.Some? ==> r.min.value == FloatOf(Get(get, "cfs_" + facet.slug + "_min").value, host)
    ensures r.Bounds? && r.max.Some? ==> r.max.value == FloatOf(Get(get, "cfs_" + facet.slug + "_max").value, host)
    ensures r.Listed? && Get(get, "cfs_" + facet.slug).None? ==> r.vs == []
    ensures r.Listed? && Get(get, "cfs_" + facet.slug).Some? ==>
      r.vs == SanitizedList(Get(get, "cfs_" + facet.slug).value, host)
  {
    var name := "cfs_" + facet.slug;
    if facet.ftype == "range" then
      var lo := Get(get, name + "_min");
      var hi := Get(get, name + "_max");
      Bounds(if lo.Some? then Some(FloatOf(lo.value, host)) else None,
             if hi.Some? then Some(FloatOf(hi.value, host)) else None)
    else
      match Get(get, name)
      case Some(v) => Listed(SanitizedList(v, host))
      case None => Listed([])
  }

  /** The list form of the current values (`[]` for bounds, which list renderers never see). */
  function ListOf(c: Current): seq<string>
  {
    if c.Listed? then c.vs else []
  }

  // ---------------------------------------------------------------------
  // Choices
  // ---------------------------------------------------------------------

  datatype Choice = Choice(value: string, caption: string, count: Option<int>)
  datatype Term = Term(slug: string, name: string, count: int)
  datatype Author = Author(id: string, displayName: string, postCount: int)

  /**
   * What the database and WordPress returned for one facet's choice queries:
   * the taxonomy terms (`None` for a WP_Error), the distinct trimmed meta
   * values in query order, the per-value count rows, and the authors.
   */
  datatype ChoiceData = ChoiceData(
    terms: Option<seq<Term>>,
    metaValues: seq<string>,
    countRows: seq<(string, int)>,
    authors: seq<Author>)

  /** `$counts[meta_value] = count` over the count rows, later rows winning. */
  function CountsOf(rows: seq<(string, int)>): (m: map<string, int>)
    ensures forall k :: k in m <==> k in Keys(rows)
  {
    if |rows| == 0 then map[]
    else
      var last := rows[|rows| - 1];
      KeysSnoc(rows);
      CountsOf(rows[..|rows| - 1])[last.0 := last.1]
  }

  function TermChoices(terms: seq<Term>): (r: seq<Choice>)
    ensures |r| == |terms|
    ensures forall i :: 0 <= i < |r| ==>
      r[i] == Choice(terms[i].slug, terms[i].name, Some(terms[i].count))
  {
    if |terms| == 0 then []
    else
      var t := terms[|terms| - 1];
      TermChoices(terms[..|terms| - 1]) + [Choice(t.slug, t.name, Some(t.count))]
  }

  function AuthorChoices(authors: seq<Author>): (r: seq<Choice>)
    ensures |r| == |authors|
    ensures forall i :: 0 <= i < |r| ==>
      r[i] == Choice(authors[i].id, authors[i].displayName, Some(authors[i].postCount))
  {
    if |authors| == 0 then []
    else
      var a := authors[|authors| - 1];
      AuthorChoices(authors[..|authors| - 1]) + [Choice(a.id, a.displayName, Some(a.postCount))]
  }

  /** The meta values that are not PHP-empty, in query order. */
  function NonEmptyValues(values: seq<string>): (r: seq<string>)
    ensures forall v :: v in r <==> v in values && !Falsy(v)
  {
    if |values| == 0 then []
    else
      var v := values[|values| - 1];
      NonEmptyValues(values[..|values| - 1]) + (if Falsy(v) then [] else [v])
  }

  /**
   * Custom-field choices: every meta value that is not PHP-empty, in query
   * order, labelled by itself, with its count or `None` when none was computed.
   */
  function FieldChoices(values: seq<string>, counts: map<string, int>): (r: seq<Choice>)
    ensures forall c :: c in r ==>
      c.value in values && !Falsy(c.value) && c.caption == c.value &&
      c.count == (if c.value in counts then Some(counts[c.value]) else None)
    ensures forall v :: v in values && !Falsy(v) ==> exists c :: c in r && c.value == v
  {
    if |values| == 0 then []
    else
      var init := values[..|values| - 1];
      var v := values[|values| - 1];
      var before := FieldChoices(init, counts);
      assert forall w :: w in init ==> w in values;
      if Falsy(v) then before
      else before + [Choice(v, v, if v in counts then Some(counts[v]) else None)]
  }

  /** One choice per non-empty value, in the order the values came. */
  lemma {:induction false} FieldChoicesInOrder(values: seq<string>, counts: map<string, int>)
    ensures var r := FieldChoices(values, counts);
      var nv := NonEmptyValues(values);
      |r| == |nv| && forall i :: 0 <= i < |r| ==>
        r[i] == Choice(nv[i], nv[i], if nv[i] in counts then Some(counts[nv[i]]) else None)
  {
    if |values| > 0 {
      FieldChoicesInOrder(values[..|values| - 1], counts);
    }
  }

  /** The count map `get_choices` builds: only when counts are shown and there are values. */
  function FieldCounts(facet: Facet, data: ChoiceData): map<string, int>
  {
    if facet.settings.showCount && |data.metaValues| > 0 then CountsOf(data.countRows) else map[]
  }

  /** `get_choices`, by source. */
  function Choices(facet: Facet, data: ChoiceData): seq<Choice>
  {
    if facet.source == "taxonomy" then
      if data.terms.Some? then TermChoices(data.terms.value) else []
    else if facet.source == "custom_field" then
      FieldChoices(data.metaValues, FieldCounts(facet, data))
    else if facet.source == "post_attribute" && facet.sourceKey == "post_author" then
      AuthorChoices(data.authors)
    else []
  }

  /** `get_choices` as the source runs it: one appending loop per source. */
  method GetChoices(facet: Facet, data: ChoiceData) returns (choices: seq<Choice>)
    ensures choices == Choices(facet, data)
  {
    choices := [];
    if facet.source == "taxonomy" {
      if data.terms.Some? {
        choices := ListTerms(data.terms.value);
      }
    } else if facet.source == "custom_field" {
      var counts: map<string, int> := map[];
      if facet.settings.showCount && |data.metaValues| > 0 {
        counts := CountRows(data.countRows);
      }
      choices := ListFieldValues(data.metaValues, counts);
    } else if facet.source == "post_attribute" && facet.sourceKey == "post_author" {
      choices := ListAuthors(data.authors);
    }
  }

  /** The taxonomy loop of `get_choices`: one choice per term, in term order. */
  method ListTerms(terms: seq<Term>) returns (choices: seq<Choice>)
    ensures choices == TermChoices(terms)
  {
    choices := [];
    var i := 0;
    while i < |terms|
      invariant 0 <= i <= |terms|
      invariant choices == TermChoices(terms[..i])
    {
      assert terms[..i + 1][..i] == terms[..i];
      choices := choices + [Choice(terms[i].slug, terms[i].name, Some(terms[i].count))];
      i := i + 1;
    }
    assert terms[..|terms|] == terms;
  }

  /** The count loop of `get_choices`: `$counts[meta_value] = count`. */
  method CountRows(rows: seq<(string, int)>) returns (counts: map<string, int>)
    ensures counts == CountsOf(rows)
  {
    counts := map[];
    var j := 0;
    while j < |rows|
      invariant 0 <= j <= |rows|
      invariant counts == CountsOf(rows[..j])
    {
      assert rows[..j + 1][..j] == rows[..j];
      counts := counts[rows[j].0 := rows[j].1];
      j := j + 1;
    }
    assert rows[..|rows|] == rows;
  }

  /** The custom-field loop of `get_choices`: empty values are skipped. */
  method ListFieldValues(values: seq<string>, counts: map<string, int>) returns (choices: seq<Choice>)
    ensures choices == FieldChoices(values, counts)
  {
    choices := [];
    var i := 0;
    while i < |values|
      invariant 0 <= i <= |values|
      invariant choices == FieldChoices(values[..i], counts)
    {
      assert values[..i + 1][..i] == values[..i];
      var v := values[i];
      if !Falsy(v) {
        choices := choices + [Choice(v, v, if v in counts then Some(counts[v]) else None)];
      }
      i := i + 1;
    }
    assert values[..|values|] == values;
  }

  /** The post-author loop of `get_choices`: one choice per author. */
  method ListAuthors(authors: seq<Author>) returns (choices: seq<Choice>)
    ensures choices == AuthorChoices(authors)
  {
    choices := [];
    var i := 0;
    while i < |authors|
      invariant 0 <= i <= |authors|
      invariant choices == AuthorChoices(authors[..i])
    {
      assert authors[..i + 1][..i] == authors[..i];
      choices := choices + [Choice(authors[i].id, authors[i].displayName, Some(authors[i].postCount))];
      i := i + 1;
    }
    assert authors[..|authors|] == authors;
  }

  // ---------------------------------------------------------------------
  // Rendering
  // ---------------------------------------------------------------------

  /** The render options (`wp_parse_args` over the defaults). */
  datatype RenderArgs = RenderArgs(
    cssClass: string,
    showLabel: bool,
    targetGrid: string,
    postType: string,
    postsPerPage: string)

  /** One option of a checkbox, radio or dropdown list. */
  datatype ListItem = ListItem(value: string, caption: string, checked: bool, shownCount: Option<int>)

  datatype RatingItem = RatingItem(stars: int, checked: bool)

  /** The controls inside `.cfs-facet-inner`, with the state they are rendered in. */
  datatype Body =
    | NoChoices
    | CheckboxList(name: string, items: seq<ListItem>)
    | RadioList(name: string, allChecked: bool, items: seq<ListItem>)
    | Dropdown(name: string, multiple: bool, placeholder: Option<string>, options: seq<ListItem>)
    | RangeSlider(minName: string, maxName: string, min: real, max: real, step: real,
                  currentMin: real, currentMax: real, prefix: string, suffix: string,
                  readonly: bool, resetDisabled: bool)
    | SearchBox(name: string, value: string, hint: string, clearHidden: bool)
    | DateRange(fromName: string, fromValue: string, toName: string, toValue: string)
    | DateSingle(name: string, value: string)
    | Rating(name: string, ratings: seq<RatingItem>, allChecked: bool)
    | NoControl

  /** A rendered facet: its data attributes, its label (if shown) and its controls. */
  datatype FacetView = FacetView(attrs: seq<(string, string)>, caption: Option<string>, body: Body)

  /** The count shown beside a choice: only with `show_count` and a computed count. */
  function ShownCount(s: Settings, c: Choice): (r: Option<int>)
    ensures r.Some? <==> s.showCount && c.count.Some?
    ensures r.Some? ==> r == c.count
  {
    if s.showCount && c.count.Some? then c.count else None
  }

  /** The first current value, or '' when there is none. */
  function FirstOrEmpty(vs: seq<string>): string
  {
    if |vs| > 0 then vs[0] else ""
  }

  /**
   * `render_checkbox`: the boxes share the array name `cfs_<slug>[]`, and each
   * choice is checked iff its value is among the current values.
   */
  function CheckboxBody(facet: Facet, choices: seq<Choice>, current: seq<string>): (b: Body)
    ensures b.NoChoices? || b.CheckboxList?
    ensures |choices| == 0 <==> b == NoChoices
    ensures b.CheckboxList? ==> b.name == "cfs_" + facet.slug + "[]" && |b.items| == |choices|
    ensures b.CheckboxList? ==> forall i :: 0 <= i < |choices| ==>
      b.items[i].value == choices[i].value && (b.items[i].checked <==> choices[i].value in current)
  {
    if |choices| == 0 then NoChoices
    else CheckboxList("cfs_" + facet.slug + "[]",
      seq(|choices|, i requires 0 <= i < |choices| =>
        ListItem(choices[i].value, choices[i].caption, choices[i].value in current,
             ShownCount(facet.settings, choices[i]))))
  }

  /**
   * `render_radio`: "All" is checked iff the first current value is
   * PHP-empty (or there is none); a choice is checked iff it equals the
   * first current value.
   */
  function RadioBody(facet: Facet, choices: seq<Choice>, current: seq<string>): (b: Body)
    ensures b.RadioList? && b.name == "cfs_" + facet.slug && |b.items| == |choices|
    ensures b.allChecked <==> |current| == 0 || Falsy(current[0])
    ensures forall i :: 0 <= i < |choices| ==>
      b.items[i].value == choices[i].value &&
      (b.items[i].checked <==> choices[i].value == FirstOrEmpty(current))
  {
    var cur := FirstOrEmpty(current);
    RadioList("cfs_" + facet.slug, Falsy(cur),
      seq(|choices|, i requires 0 <= i < |choices| =>
        ListItem(choices[i].value, choices[i].caption, choices[i].value == cur,
             ShownCount(facet.settings, choices[i]))))
  }

  /**
   * `render_dropdown`: a multiple select is named `cfs_<slug>[]` and has no
   * placeholder option; every option is selected iff its value is current.
   */
  function DropdownBody(facet: Facet, choices: seq<Choice>, current: seq<string>): (b: Body)
    ensures b.Dropdown? && b.multiple == facet.settings.multiple && |b.options| == |choices|
    ensures b.name == if b.multiple then "cfs_" + facet.slug + "[]" else "cfs_" + facet.slug
    ensures b.placeholder.Some? <==> !b.multiple
    ensures forall i :: 0 <= i < |choices| ==>
      b.options[i].value == choices[i].value &&
      (b.options[i].checked <==> choices[i].value in current)
  {
    var multiple := facet.settings.multiple;
    Dropdown("cfs_" + facet.slug + (if multiple then "[]" else ""), multiple,
      if multiple then None
      else Some(if facet.settings.placeholder.Some? then facet.settings.placeholder.value else "Select..."),
      seq(|choices|, i requires 0 <= i < |choices| =>
        ListItem(choices[i].value, choices[i].caption, choices[i].value in current,
             ShownCount(facet.settings, choices[i]))))
  }

  /**
   * `render_range`: settings default to 0 / 100 / step 1; a missing current
   * bound falls back to the setting; reset is disabled iff both current
   * bounds equal the configured ones.
   */
  function RangeBody(facet: Facet, current: Current): (b: Body)
    ensures b.RangeSlider?
    ensures b.min == (if facet.settings.min.Some? then facet.settings.min.value else 0.0)
    ensures b.max == (if facet.settings.max.Some? then facet.settings.max.value else 100.0)
    ensures b.step == (if facet.settings.step.Some? then facet.settings.step.value else 1.0)
    ensures b.currentMin == (if current.Bounds? && current.min.Some? then current.min.value else b.min)
    ensures b.currentMax == (if current.Bounds? && current.max.Some? then current.max.value else b.max)
    ensures b.resetDisabled <==> b.currentMin == b.min && b.currentMax == b.max
    ensures b.minName == "cfs_" + facet.slug + "_min" && b.maxName == "cfs_" + facet.slug + "_max"
    ensures b.readonly <==> facet.settings.inputsEnabled == Some(false)
  {
    var s := facet.settings;
    var lo := if s.min.Some? then s.min.value else 0.0;
    var hi := if s.max.Some? then s.max.value else 100.0;
    var step := if s.step.Some? then s.step.value else 1.0;
    var curLo := if current.Bounds? && current.min.Some? then current.min.value else lo;
    var curHi := if current.Bounds? && current.max.Some? then current.max.value else hi;
    RangeSlider("cfs_" + facet.slug + "_min", "cfs_" + facet.slug + "_max", lo, hi, step, curLo, curHi,
      if s.prefix.Some? then s.prefix.value else "",
      if s.suffix.Some? then s.suffix.value else "",
      s.inputsEnabled == Some(false),
      curLo == lo && curHi == hi)
  }

  /** `render_search`: pre-filled with the first current value; the clear button is hidden iff it is PHP-empty. */
  function SearchBody(facet: Facet, current: seq<string>): (b: Body)
    ensures b.SearchBox? && b.name == "cfs_" + facet.slug && b.value == FirstOrEmpty(current)
    ensures b.clearHidden <==> Falsy(b.value)
  {
    var cur := FirstOrEmpty(current);
    SearchBox("cfs_" + facet.slug, cur,
      if facet.settings.placeholder.Some? then facet.settings.placeholder.value else "Search...",
      Falsy(cur))
  }

  /**
   * `render_date`: a range date picker names its inputs `cfs_<slug>_from` and
   * `cfs_<slug>_to` but fills them from entries 0 and 1 of the plain
   * `cfs_<slug>` values; a single picker shows the first value.
   */
  function DateBody(facet: Facet, current: seq<string>): (b: Body)
    ensures b.DateRange? || b.DateSingle?
    ensures facet.settings.dateType == Some("range") <==> b.DateRange?
    ensures b.DateRange? ==>
      b.fromName == "cfs_" + facet.slug + "_from" && b.toName == "cfs_" + facet.slug + "_to" &&
      b.fromValue == (if |current| > 0 then current[0] else "") &&
      b.toValue == (if |current| > 1 then current[1] else "")
    ensures b.DateSingle? ==> b.name == "cfs_" + facet.slug && b.value == FirstOrEmpty(current)
  {
    if facet.settings.dateType == Some("range") then
      DateRange("cfs_" + facet.slug + "_from", if |current| > 0 then current[0] else "",
                "cfs_" + facet.slug + "_to", if |current| > 1 then current[1] else "")
    else DateSingle("cfs_" + facet.slug, FirstOrEmpty(current))
  }

  function RatingItems(n: nat, current: int): (r: seq<RatingItem>)
    ensures |r| == n
    ensures forall i :: 0 <= i < n ==> r[i] == RatingItem(n - i, current == n - i)
  {
    if n == 0 then [] else [RatingItem(n, current == n)] + RatingItems(n - 1, current)
  }

  /**
   * `render_rating`: five options from 5 stars down to 1; the current rating
   * is `intval` of the first value (0 without one); option i is checked iff
   * it equals the current rating and "All ratings" iff that is 0.
   */
  function RatingBody(facet: Facet, current: seq<string>, host: Host): (b: Body)
    ensures b.Rating? && b.name == "cfs_" + facet.slug && |b.ratings| == 5
    ensures forall i :: 0 <= i < 5 ==> b.ratings[i].stars == 5 - i
    ensures forall i :: 0 <= i < 5 ==>
      (b.ratings[i].checked <==> |current| > 0 && host.intval(current[0]) == 5 - i)
    ensures b.allChecked <==> |current| == 0 || host.intval(current[0]) == 0
  {
    var cur := if |current| > 0 then host.intval(current[0]) else 0;
    Rating("cfs_" + facet.slug, RatingItems(5, cur), cur == 0)
  }

  /** The controls for a facet type, given its choices and current values. */
  function BodyFor(facet: Facet, choices: seq<Choice>, current: Current, host: Host): Body
  {
    var list := ListOf(current);
    match facet.ftype
    case "checkbox" => CheckboxBody(facet, choices, list)
    case "radio" => RadioBody(facet, choices, list)
    case "dropdown" => DropdownBody(facet, choices, list)
    case "range" => RangeBody(facet, current)
    case "search" => SearchBody(facet, list)
    case "date" => DateBody(facet, list)
    case "rating" => RatingBody(facet, list, host)
    case _ => NoControl
  }

  /** The facet types whose renderer calls `get_choices`. */
  predicate ListsChoices(ftype: string)
  {
    ftype == "checkbox" || ftype == "radio" || ftype == "dropdown"
  }

  /**
   * The data attributes on `.cfs-facet`: slug, type and source always, in that
   * order; target grid, post type and page size only when not PHP-empty.
   */
  function DataAttributes(slug: string, facet: Facet, args: RenderArgs): (attrs: seq<(string, string)>)
    ensures |attrs| >= 3
    ensures attrs[..3] == [("data-facet", slug), ("data-type", facet.ftype), ("data-source", facet.source)]
    ensures ("data-target-grid", args.targetGrid) in attrs <==> !Falsy(args.targetGrid)
    ensures ("data-post-type", args.postType) in attrs <==> !Falsy(args.postType)
    ensures ("data-posts-per-page", args.postsPerPage) in attrs <==> !Falsy(args.postsPerPage)
    ensures |attrs| == 3 + (if Falsy(args.targetGrid) then 0 else 1)
      + (if Falsy(args.postType) then 0 else 1) + (if Falsy(args.postsPerPage) then 0 else 1)
  {
    [("data-facet", slug), ("data-type", facet.ftype), ("data-source", facet.source)]
      + (if Falsy(args.targetGrid) then [] else [("data-target-grid", args.targetGrid)])
      + (if Falsy(args.postType) then [] else [("data-post-type", args.postType)])
      + (if Falsy(args.postsPerPage) then [] else [("data-posts-per-page", args.postsPerPage)])
  }

  /** The whole rendered facet, once its row has been found. */
  function View(slug: string, facet: Facet, args: RenderArgs, get: Params, choices: seq<Choice>, host: Host): (v: FacetView)
    ensures v.caption.Some? <==> args.showLabel && facet.settings.caption.Some? && !Falsy(facet.settings.caption.value)
    ensures v.attrs == DataAttributes(slug, facet, args)
  {
    var caption := facet.settings.caption;
    FacetView(DataAttributes(slug, facet, args),
      if args.showLabel && caption.Some? && !Falsy(caption.value) then caption else None,
      BodyFor(facet, choices, CurrentValues(facet, get, host), host))
  }

  /**
   * `render`: an unknown slug renders nothing; otherwise the facet is
   * rendered from the current request parameters.  Only list types query
   * their choices.
   */
  method Render(reg: FacetRegistry, slug: string, args: RenderArgs, get: Params, data: ChoiceData, host: Host)
    returns (out: Option<FacetView>)
    requires reg.Valid()
    modifies reg
    ensures reg.Valid()
    ensures out.None? <==> FindRow(reg.rows, slug).None?
    ensures out.Some? ==> out.value == View(slug, FindRow(reg.rows, slug).value, args, get,
      if ListsChoices(FindRow(reg.rows, slug).value.ftype) then Choices(FindRow(reg.rows, slug).value, data) else [],
      host)
  {
    var facet := reg.GetFacet(slug);
    if facet.None? {
      return None;
    }
    var choices: seq<Choice> := [];
    if ListsChoices(facet.value.ftype) {
      choices := GetChoices(facet.value, data);
    }
    out := Some(View(slug, facet.value, args, get, choices, host));
  }

  /**
   * The date-range renderer does not read back the parameters its own inputs
   * submit: with only `cfs_<slug>_from`/`_to` in the URL it shows both inputs empty.
   */
  lemma DateRangeDropsItsOwnParameters(facet: Facet, get: Params, host: Host)
    requires facet.ftype == "date" && facet.settings.dateType == Some("range")
    requires Get(get, "cfs_" + facet.slug).None?
    ensures var b := BodyFor(facet, [], CurrentValues(facet, get, host), host);
      b.DateRange? && b.fromValue == "" && b.toValue == ""
  {
  }
}
