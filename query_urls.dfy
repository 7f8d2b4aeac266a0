/**
 * The URL-side helpers of CFS_Query: `build_filter_url` (filters to query
 * parameters), `get_active_filter_summary` (one labelled entry per active
 * filter) and `get_remove_filter_url` (drop the five parameter names of a slug).
 * A URL is its path and its decoded query parameters.
 */
module QueryUrls {
  import opened Php
  import opened QueryFilters
  import opened Facets

  datatype Url = Url(path: string, query: Params)

  /** A value handed to `build_filter_url`: text, a list, or an array holding both `min` and `max`. */
  datatype BVal = BText(s: string) | BList(items: seq<string>) | BRange(lo: string, hi: string)

  /** The parameters one filter contributes. */
  function ParamsFor(slug: string, v: BVal): (ps: Params)
  {
    match v
    case BText(s) => [("cfs_" + slug, Str(s))]
    case BList(xs) => [("cfs_" + slug, List(xs))]
    case BRange(lo, hi) => [(RangeKey(slug, true), Str(lo)), (RangeKey(slug, false), Str(hi))]
  }

  /** `$params[k] = v` for every pair, in order. */
  function PutAll(m: Params, ps: Params): Params
    decreases |ps|
  {
    if |ps| == 0 then m else PutAll(Put(m, ps[0].0, ps[0].1), ps[1..])
  }

  /** The `$params` array the loop of `build_filter_url` builds. */
  function BuildParams(fs: seq<(string, BVal)>): Params
  {
    if |fs| == 0 then []
    else PutAll(BuildParams(fs[..|fs| - 1]), ParamsFor(fs[|fs| - 1].0, fs[|fs| - 1].1))
  }

  /** `build_filter_url`: an empty base (None) means the permalink; the parameters are added with `add_query_arg`. */
  function FilterUrl(base: Option<Url>, fs: seq<(string, BVal)>, permalink: Url): (u: Url)
    ensures base.Some? ==> u.path == base.value.path
    ensures base.None? ==> u.path == permalink.path
  {
    var b := if base.Some? then base.value else permalink;
    Url(b.path, PutAll(b.query, BuildParams(fs)))
  }

  /** The loop of `build_filter_url`. */
  method BuildFilterUrl(base: Option<Url>, fs: seq<(string, BVal)>, permalink: Url) returns (u: Url)
    ensures u == FilterUrl(base, fs, permalink)
  {
    var params: Params := [];
    var i := 0;
    while i < |fs|
      invariant 0 <= i <= |fs|
      invariant params == BuildParams(fs[..i])
    {
      ghost var prefix := fs[..i + 1];
      assert prefix[..i] == fs[..i] && prefix[i] == fs[i];
      params := AddFilterParams(params, fs[i].0, fs[i].1);
      i := i + 1;
    }
    assert fs[..|fs|] == fs;
    var b := if base.Some? then base.value else permalink;
    u := Url(b.path, PutAll(b.query, params));
  }

  /** One turn of the loop: `$params[...] = ...` for the filter's one or two names. */
  method AddFilterParams(params: Params, slug: string, v: BVal) returns (r: Params)
    ensures r == PutAll(params, ParamsFor(slug, v))
  {
    match v {
      case BRange(lo, hi) =>
        r := Put(params, "cfs_" + slug + "_min", Str(lo));
        r := Put(r, "cfs_" + slug + "_max", Str(hi));
      case BList(xs) =>
        r := Put(params, "cfs_" + slug, List(xs));
      case BText(s) =>
        r := Put(params, "cfs_" + slug, Str(s));
    }
    PutAllSteps(params, ParamsFor(slug, v));
  }

  /** `PutAll` over one or two pairs is one or two `Put`s. */
  lemma PutAllSteps(m: Params, ps: Params)
    requires |ps| == 1 || |ps| == 2
    ensures |ps| == 1 ==> PutAll(m, ps) == Put(m, ps[0].0, ps[0].1)
    ensures |ps| == 2 ==> PutAll(m, ps) == Put(Put(m, ps[0].0, ps[0].1), ps[1].0, ps[1].1)
  {
    var m1 := Put(m, ps[0].0, ps[0].1);
    assert PutAll(m, ps) == PutAll(m1, ps[1..]);
    if |ps| == 2 {
      assert ps[1..][1..] == [];
    }
  }

  // ---------------------------------------------------------------------
  // Round trip: build_filter_url then get_active_filters
  // ---------------------------------------------------------------------

  /** A slug the URL form carries faithfully: its plain name reads back as itself. */
  predicate RoundTrips(slug: string)
  {
    Classify("cfs_" + slug) == Plain(slug) && slug != "" && '\n' !in slug
  }

  /** A value the parser does not skip. */
  predicate Kept(v: BVal)
  {
    match v
    case BText(s) => s != ""
    case BList(xs) => exists i :: 0 <= i < |xs| && !Falsy(xs[i])
    case BRange(lo, hi) => lo != "" && hi != ""
  }

  /** The filter the parser reads back for one built value. */
  function Expected(slug: string, v: BVal, host: Host): Filter
  {
    match v
    case BText(s) => Filter(slug, NoTag, Some([host.sanitizeText(s)]), None, None, None, None)
    case BList(xs) => Filter(slug, NoTag, Some(SanitizedList(List(xs), host)), None, None, None, None)
    case BRange(lo, hi) => Filter(slug, RangeTag, None, Some(host.floatval(lo)), Some(host.floatval(hi)), None, None)
  }

  /** Distinct, faithfully carried slugs with values the parser keeps. */
  predicate WellFormed(fs: seq<(string, BVal)>)
  {
    (forall i :: 0 <= i < |fs| ==> RoundTrips(fs[i].0) && Kept(fs[i].1)) &&
    (forall i, j :: 0 <= i < j < |fs| ==> fs[i].0 != fs[j].0)
  }

  /** The slug a built parameter name addresses. */
  lemma ParamsForClassify(slug: string, v: BVal, k: int)
    requires RoundTrips(slug) && 0 <= k < |ParamsFor(slug, v)|
    ensures !Classify(ParamsFor(slug, v)[k].0).Ignored?
    ensures SlugOf(Classify(ParamsFor(slug, v)[k].0)) == slug
  {
    if v.BRange? {
      RangeKeyIff(ParamsFor(slug, v)[k].0, slug, k == 0);
    }
  }

  /** Every name in the built parameters addresses the slug of the filter it came from. */
  lemma {:induction false} BuildParamsKeys(fs: seq<(string, BVal)>, key: string)
    requires forall i :: 0 <= i < |fs| ==> RoundTrips(fs[i].0)
    requires Get(BuildParams(fs), key).Some?
    ensures !Classify(key).Ignored?
    ensures exists i :: 0 <= i < |fs| && SlugOf(Classify(key)) == fs[i].0
  {
    var init := fs[..|fs| - 1];
    var (slug, v) := fs[|fs| - 1];
    var ps := ParamsFor(slug, v);
    var before := BuildParams(init);
    if Get(before, key).Some? && forall k :: 0 <= k < |ps| ==> ps[k].0 != key {
      BuildParamsKeys(init, key);
      var i :| 0 <= i < |init| && SlugOf(Classify(key)) == init[i].0;
      assert fs[i] == init[i];
    } else if k :| 0 <= k < |ps| && ps[k].0 == key {
      ParamsForClassify(slug, v, k);
    } else {
      var k := PutAllOrigin(before, ps, key);
      ParamsForClassify(slug, v, k);
    }
  }

  /** A name present after `PutAll` but not before is one of the added names. */
  lemma {:induction false} PutAllOrigin(m: Params, ps: Params, key: string) returns (k: int)
    requires Get(PutAll(m, ps), key).Some? && Get(m, key).None?
    ensures 0 <= k < |ps| && ps[k].0 == key
    decreases |ps|
  {
    if |ps| == 0 {
      assert false;
    } else if ps[0].0 == key {
      k := 0;
    } else {
      var m1 := Put(m, ps[0].0, ps[0].1);
      assert Get(m1, key) == Get(m, key);
      var k1 := PutAllOrigin(m1, ps[1..], key);
      k := k1 + 1;
    }
  }

  /** Adding fresh names appends them. */
  lemma PutAllFresh(m: Params, ps: Params)
    requires |ps| == 1 || |ps| == 2
    requires forall j :: 0 <= j < |ps| ==> Get(m, ps[j].0).None?
    requires forall a, b :: 0 <= a < b < |ps| ==> ps[a].0 != ps[b].0
    ensures PutAll(m, ps) == m + ps
  {
    if |ps| == 1 {
      assert ps == [ps[0]];
      PutAllOne(m, ps[0]);
    } else {
      assert ps == [ps[0], ps[1]];
      PutAllTwo(m, ps[0], ps[1]);
    }
  }

  lemma PutAllOne(m: Params, p: (string, ParamValue))
    requires Get(m, p.0).None?
    ensures PutAll(m, [p]) == m + [p]
  {
    PutFresh(m, p);
    assert PutAll(m, [p]) == PutAll(m + [p], []);
  }

  lemma PutAllTwo(m: Params, p: (string, ParamValue), q: (string, ParamValue))
    requires Get(m, p.0).None? && Get(m, q.0).None? && p.0 != q.0
    ensures PutAll(m, [p, q]) == m + [p, q]
  {
    PutFresh(m, p);
    assert PutAll(m, [p, q]) == PutAll(m + [p], [q]);
    GetAppendOther(m, p, q.0);
    PutAllOne(m + [p], q);
    assert m + [p] + [q] == m + [p, q];
  }

  lemma PutFresh(m: Params, p: (string, ParamValue))
    requires Get(m, p.0).None?
    ensures Put(m, p.0, p.1) == m + [p]
  {
  }

  lemma {:induction false} GetAppendOther(m: Params, p: (string, ParamValue), k: string)
    requires k != p.0
    ensures Get(m + [p], k) == Get(m, k)
  {
    if |m| > 0 {
      assert (m + [p])[1..] == m[1..] + [p];
      GetAppendOther(m[1..], p, k);
    }
  }

  /** The expected parse of a list of built filters. */
  function ExpectedMap(fs: seq<(string, BVal)>, host: Host): (m: seq<(string, Filter)>)
    ensures |m| == |fs|
    ensures forall i :: 0 <= i < |fs| ==> m[i] == (fs[i].0, Expected(fs[i].0, fs[i].1, host))
  {
    seq(|fs|, i requires 0 <= i < |fs| => (fs[i].0, Expected(fs[i].0, fs[i].1, host)))
  }

  /** Building then parsing gives back one filter per built slug, in the same order. */
  lemma {:induction false} BuildThenParse(fs: seq<(string, BVal)>, host: Host)
    requires WellFormed(fs)
    ensures Parse(BuildParams(fs), host) == ExpectedMap(fs, host)
  {
    if |fs| > 0 {
      WellFormedPrefix(fs);
      BuildThenParse(fs[..|fs| - 1], host);
      BuildThenParseStep(fs, host);
    }
  }

  /** The inductive step: one more well-formed filter appends its expected entry. */
  lemma BuildThenParseStep(fs: seq<(string, BVal)>, host: Host)
    requires WellFormed(fs) && |fs| > 0
    requires Parse(BuildParams(fs[..|fs| - 1]), host) == ExpectedMap(fs[..|fs| - 1], host)
    ensures Parse(BuildParams(fs), host) == ExpectedMap(fs, host)
  {
    var init := fs[..|fs| - 1];
    var last := fs[|fs| - 1];
    ParseLastBuilt(fs, host);
    ExpectedMapSnoc(fs, host);
  }

  lemma ParseLastBuilt(fs: seq<(string, BVal)>, host: Host)
    requires WellFormed(fs) && |fs| > 0
    requires Parse(BuildParams(fs[..|fs| - 1]), host) == ExpectedMap(fs[..|fs| - 1], host)
    ensures Parse(BuildParams(fs), host) ==
      ExpectedMap(fs[..|fs| - 1], host) + [(fs[|fs| - 1].0, Expected(fs[|fs| - 1].0, fs[|fs| - 1].1, host))]
  {
    BuildStep(fs);
    AppendLast(fs, host);
  }

  lemma AppendLast(fs: seq<(string, BVal)>, host: Host)
    requires WellFormed(fs) && |fs| > 0
    requires Parse(BuildParams(fs[..|fs| - 1]), host) == ExpectedMap(fs[..|fs| - 1], host)
    ensures Parse(BuildParams(fs[..|fs| - 1]) + ParamsFor(fs[|fs| - 1].0, fs[|fs| - 1].1), host) ==
      ExpectedMap(fs[..|fs| - 1], host) + [(fs[|fs| - 1].0, Expected(fs[|fs| - 1].0, fs[|fs| - 1].1, host))]
  {
    var init := fs[..|fs| - 1];
    var (slug, v) := fs[|fs| - 1];
    WellFormedPrefix(fs);
    GetExpectedNone(init, slug, host);
    AppendOne(BuildParams(init), ExpectedMap(init, host), slug, v, host);
  }

  /** Parsing the parameters of one more well-formed filter appends its expected entry. */
  lemma AppendOne(before: Params, m: seq<(string, Filter)>, slug: string, v: BVal, host: Host)
    requires Parse(before, host) == m && Get(m, slug).None?
    requires RoundTrips(slug) && Kept(v)
    ensures Parse(before + ParamsFor(slug, v), host) == m + [(slug, Expected(slug, v, host))]
  {
    if v.BRange? {
      ParseAppendRange(before, m, slug, v, host);
    } else {
      ParseAppendPlain(before, m, slug, v, host);
    }
  }

  lemma ExpectedMapSnoc(fs: seq<(string, BVal)>, host: Host)
    requires |fs| > 0
    ensures ExpectedMap(fs, host) ==
      ExpectedMap(fs[..|fs| - 1], host) + [(fs[|fs| - 1].0, Expected(fs[|fs| - 1].0, fs[|fs| - 1].1, host))]
  {
  }

  lemma WellFormedPrefix(fs: seq<(string, BVal)>)
    requires WellFormed(fs) && |fs| > 0
    ensures WellFormed(fs[..|fs| - 1])
    ensures RoundTrips(fs[|fs| - 1].0) && Kept(fs[|fs| - 1].1)
    ensures forall i :: 0 <= i < |fs| - 1 ==> fs[i].0 != fs[|fs| - 1].0
  {
    var init := fs[..|fs| - 1];
    forall i | 0 <= i < |init| ensures init[i] == fs[i] { }
  }

  /** Each built filter appends its own parameters. */
  lemma BuildStep(fs: seq<(string, BVal)>)
    requires WellFormed(fs) && |fs| > 0
    ensures BuildParams(fs) == BuildParams(fs[..|fs| - 1]) + ParamsFor(fs[|fs| - 1].0, fs[|fs| - 1].1)
  {
    FreshNames(fs);
    PutAllFresh(BuildParams(fs[..|fs| - 1]), ParamsFor(fs[|fs| - 1].0, fs[|fs| - 1].1));
  }

  /** The names the last filter adds are new, and distinct from each other. */
  lemma FreshNames(fs: seq<(string, BVal)>)
    requires WellFormed(fs) && |fs| > 0
    ensures var ps := ParamsFor(fs[|fs| - 1].0, fs[|fs| - 1].1);
      (|ps| == 1 || |ps| == 2) &&
      (forall j :: 0 <= j < |ps| ==> Get(BuildParams(fs[..|fs| - 1]), ps[j].0).None?) &&
      (forall a, b :: 0 <= a < b < |ps| ==> ps[a].0 != ps[b].0)
  {
    var init := fs[..|fs| - 1];
    var (slug, v) := fs[|fs| - 1];
    var ps := ParamsFor(slug, v);
    forall j | 0 <= j < |ps| ensures Get(BuildParams(init), ps[j].0).None? {
      if Get(BuildParams(init), ps[j].0).Some? {
        assert forall i :: 0 <= i < |init| ==> init[i] == fs[i];
        BuildParamsKeys(init, ps[j].0);
        ParamsForClassify(slug, v, j);
        assert false;
      }
    }
    if v.BRange? {
      assert ps[0].0[|ps[0].0| - 1] == 'n' && ps[1].0[|ps[1].0| - 1] == 'x';
    }
  }

  /** Parsing the parameters of one more text or list filter appends its expected entry. */
  lemma ParseAppendPlain(before: Params, m: seq<(string, Filter)>, slug: string, v: BVal, host: Host)
    requires Parse(before, host) == m && Get(m, slug).None?
    requires RoundTrips(slug) && Kept(v) && !v.BRange?
    ensures Parse(before + ParamsFor(slug, v), host) == m + [(slug, Expected(slug, v, host))]
  {
    var ps := ParamsFor(slug, v);
    assert (before + ps)[..|before|] == before;
    ExpectedNotSkipped(v);
  }

  /** Parsing the two bounds of one more range filter appends its expected entry. */
  lemma ParseAppendRange(before: Params, m: seq<(string, Filter)>, slug: string, v: BVal, host: Host)
    requires Parse(before, host) == m && Get(m, slug).None?
    requires RoundTrips(slug) && Kept(v) && v.BRange?
    ensures Parse(before + ParamsFor(slug, v), host) == m + [(slug, Expected(slug, v, host))]
  {
    var ps := ParamsFor(slug, v);
    var p1 := before + [ps[0]];
    assert (before + ps)[..|before| + 1] == p1;
    assert p1[..|before|] == before;
    var half := Filter(slug, RangeTag, None, Some(host.floatval(v.lo)), None, None, None);
    StepMinFresh(m, slug, v.lo, host);
    assert Parse(p1, host) == m + [(slug, half)];
    StepMaxExisting(m, half, slug, v.hi, host);
  }

  lemma StepMinFresh(m: seq<(string, Filter)>, slug: string, lo: string, host: Host)
    requires Get(m, slug).None? && lo != "" && slug != "" && '\n' !in slug
    ensures Step(m, RangeKey(slug, true), Str(lo), host) ==
      m + [(slug, Filter(slug, RangeTag, None, Some(host.floatval(lo)), None, None, None))]
  {
    RangeKeyIff(RangeKey(slug, true), slug, true);
  }

  lemma StepMaxExisting(m: seq<(string, Filter)>, half: Filter, slug: string, hi: string, host: Host)
    requires Get(m, slug).None? && hi != "" && slug != "" && '\n' !in slug
    ensures Step(m + [(slug, half)], RangeKey(slug, false), Str(hi), host) ==
      m + [(slug, half.(max := Some(host.floatval(hi))))]
  {
    RangeKeyIff(RangeKey(slug, false), slug, false);
    GetLast(m, slug, half);
    PutLast(m, slug, half, half.(max := Some(host.floatval(hi))));
  }

  lemma ExpectedNotSkipped(v: BVal)
    requires Kept(v) && !v.BRange?
    ensures !Skipped(if v.BText? then Str(v.s) else List(v.items))
  {
  }

  lemma {:induction false} GetExpectedNone(fs: seq<(string, BVal)>, slug: string, host: Host)
    requires forall i :: 0 <= i < |fs| ==> fs[i].0 != slug
    ensures Get(ExpectedMap(fs, host), slug).None?
  {
    if |fs| > 0 {
      GetExpectedNone(fs[1..], slug, host);
      assert ExpectedMap(fs, host)[1..] == ExpectedMap(fs[1..], host);
    }
  }

  lemma {:induction false} GetLast<V>(m: seq<(string, V)>, k: string, v: V)
    requires Get(m, k).None?
    ensures Get(m + [(k, v)], k) == Some(v)
  {
    if |m| > 0 {
      assert (m + [(k, v)])[1..] == m[1..] + [(k, v)];
      GetLast(m[1..], k, v);
    }
  }

  lemma {:induction false} PutLast<V>(m: seq<(string, V)>, k: string, v: V, w: V)
    requires Get(m, k).None?
    ensures Put(m + [(k, v)], k, w) == m + [(k, w)]
  {
    if |m| > 0 {
      assert (m + [(k, v)])[0] == m[0];
      assert (m + [(k, v)])[1..] == m[1..] + [(k, v)];
      PutLast(m[1..], k, v, w);
    }
  }

  // ---------------------------------------------------------------------
  // Summary and remove URL
  // ---------------------------------------------------------------------

  /** One entry of the active filter summary. */
  datatype SummaryItem = SummaryItem(slug: string, caption: string, valueText: string, removeNames: seq<string>)

  /** The five parameter names `get_remove_filter_url` strips. */
  function RemoveNames(slug: string): seq<string>
  {
    ["cfs_" + slug, RangeKey(slug, true), RangeKey(slug, false), DateKey(slug, true), DateKey(slug, false)]
  }

  /** `remove_query_arg`: the parameters whose names are not listed, in order. */
  function WithoutNames(ps: Params, names: seq<string>): (r: Params)
    ensures forall i :: 0 <= i < |r| ==> r[i] in ps && r[i].0 !in names
    ensures forall i :: 0 <= i < |ps| && ps[i].0 !in names ==> ps[i] in r
  {
    if |ps| == 0 then []
    else
      var rest := WithoutNames(ps[1..], names);
      assert forall p :: p in ps[1..] ==> p in ps;
      if ps[0].0 in names then rest else [ps[0]] + rest
  }

  /**
   * Once the five names are stripped, no filter for the slug is left,
   * provided every parameter that addressed the slug used one of them.
   */
  lemma RemovedSlugGone(get: Params, slug: string, host: Host)
    requires forall i :: 0 <= i < |get| && !Classify(get[i].0).Ignored? && SlugOf(Classify(get[i].0)) == slug ==>
      get[i].0 in RemoveNames(slug)
    ensures Get(Parse(WithoutNames(get, RemoveNames(slug)), host), slug).None?
  {
    var r := WithoutNames(get, RemoveNames(slug));
    if Get(Parse(r, host), slug).Some? {
      ParseSlugsFromKeys(r, host, slug);
      assert false;
    }
  }

  /** The remove URL misses a parameter that reaches the slug through `str_replace`: `cfs_cfs_x` is a filter on `x` and survives. */
  lemma RemoveMissesAlias(host: Host)
    ensures var get := [("cfs_cfs_x", Str("a"))];
      WithoutNames(get, RemoveNames("x")) == get &&
      Get(Parse(get, host), "x").Some?
  {
    var key := "cfs_cfs_x";
    var get := [(key, Str("a"))];
    AliasIsPlain();
    assert get[..0] == [];
    AliasNotRemoved();
  }

  /** `cfs_cfs_x` is no bound name, and `str_replace` turns it into `x`. */
  lemma AliasIsPlain()
    ensures Classify("cfs_cfs_x") == Plain("x")
  {
    var key := "cfs_cfs_x";
    assert DollarBody(key) == key;
    assert key[|key| - 1] == 'x' && key[4] == 'c' && key[5] == 'f' && key[6] == 's';
    BoundShape(key, "min");
    BoundShape(key, "max");
    BoundShape(key, "from");
    BoundShape(key, "to");
    AliasSplit();
    RemoveAllLeading("cfs_", "cfs_" + "x");
    RemoveAllLeading("cfs_", "x");
  }

  lemma AliasSplit()
    ensures "cfs_cfs_x"[..4] == "cfs_"
    ensures "cfs_cfs_x" == "cfs_" + ("cfs_" + "x")
  {
  }

  lemma AliasNotRemoved()
    ensures "cfs_cfs_x" !in RemoveNames("x")
  {
    var names := RemoveNames("x");
    assert forall i :: 0 <= i < |names| ==> |names[i]| != 9 || names[i][4] != 'c';
  }

  // ---------------------------------------------------------------------
  // Rendered selection against the parsed filters
  // ---------------------------------------------------------------------

  /**
   * A list facet pre-selects exactly what the query filters on, when the
   * facet's `cfs_<slug>` parameter is a plain one with a truthy value and
   * no other plain parameter names the slug: its current values are the
   * filter's values, so a checkbox or dropdown choice is checked iff its
   * value is among them, and a radio choice iff it is the first of them.
   */
  lemma RenderedMatchesParse(facet: Facet, get: Params, host: Host, choices: seq<Choice>)
    requires UniqueKeys(get) && facet.ftype != "range"
    requires Classify("cfs_" + facet.slug) == Plain(facet.slug)
    requires Get(get, "cfs_" + facet.slug).Some? && !Skipped(Get(get, "cfs_" + facet.slug).value)
    requires forall j :: 0 <= j < |get| && Classify(get[j].0) == Plain(facet.slug) ==> get[j].0 == "cfs_" + facet.slug
    ensures Get(Parse(get, host), facet.slug).Some? && Get(Parse(get, host), facet.slug).value.values.Some?
    ensures var vs := Get(Parse(get, host), facet.slug).value.values.value;
      ListOf(CurrentValues(facet, get, host)) == vs &&
      (forall i :: 0 <= i < |choices| && CheckboxBody(facet, choices, vs).CheckboxList? ==>
        (CheckboxBody(facet, choices, vs).items[i].checked <==> choices[i].value in vs)) &&
      (forall i :: 0 <= i < |choices| ==>
        (DropdownBody(facet, choices, vs).options[i].checked <==> choices[i].value in vs)) &&
      (forall i :: 0 <= i < |choices| ==>
        (RadioBody(facet, choices, vs).items[i].checked <==> choices[i].value == FirstOrEmpty(vs)))
  {
    var key := "cfs_" + facet.slug;
    GetSomeHasKey(get, key);
    var k :| 0 <= k < |get| && Keys(get)[k] == key;
    GetUnique(get, k);
    assert forall j :: k < j < |get| ==> get[j].0 != get[k].0;
    ParsePlainValues(get, host, facet.slug, k);
  }

  /**
   * The other way round fails for an alias: `cfs_cfs_x` filters the query on
   * `x`, but the facet `x` reads only `cfs_x` and so shows nothing checked.
   */
  lemma AliasFiltersUnchecked(facet: Facet, host: Host, choices: seq<Choice>)
    requires facet.slug == "x" && facet.ftype != "range"
    ensures var get := [("cfs_cfs_x", Str("a"))];
      Get(Parse(get, host), "x").Some? &&
      ListOf(CurrentValues(facet, get, host)) == [] &&
      forall i :: 0 <= i < |choices| ==> !DropdownBody(facet, choices, []).options[i].checked
  {
    var get := [("cfs_cfs_x", Str("a"))];
    AliasIsPlain();
    assert get[..0] == [];
    assert Get(get, "cfs_" + facet.slug).None? by {
      assert |get[0].0| != |"cfs_" + facet.slug|;
    }
  }

  /** A bound as the summary prints it; a missing bound prints as ''. */
  function BoundText(x: Option<real>, host: Host): string
  {
    if x.Some? then host.floatText(x.value) else ""
  }

  /** The summary entry for a filter whose facet exists; `implode` of no values is fatal. */
  function SummaryItemFor(f: Filter, facet: Facet, host: Host): (r: Outcome<SummaryItem>)
    ensures r.Fatal? <==> facet.ftype != "range" && f.values.None?
    ensures r.Ok? ==> r.value.slug == f.slug && r.value.removeNames == RemoveNames(f.slug)
    ensures r.Ok? ==> r.value.caption == if facet.settings.caption.Some? then facet.settings.caption.value else facet.name
    ensures r.Ok? && facet.ftype != "range" ==> r.value.valueText == Implode(", ", f.values.value)
    ensures r.Ok? && facet.ftype == "range" ==>
      var p := if facet.settings.prefix.Some? then facet.settings.prefix.value else "";
      var q := if facet.settings.suffix.Some? then facet.settings.suffix.value else "";
      r.value.valueText == p + BoundText(f.min, host) + q + " – " + p + BoundText(f.max, host) + q
  {
    var s := facet.settings;
    var caption := if s.caption.Some? then s.caption.value else facet.name;
    if facet.ftype == "range" then
      var prefix := if s.prefix.Some? then s.prefix.value else "";
      var suffix := if s.suffix.Some? then s.suffix.value else "";
      Ok(SummaryItem(f.slug, caption,
        prefix + BoundText(f.min, host) + suffix + " – " + prefix + BoundText(f.max, host) + suffix,
        RemoveNames(f.slug)))
    else if f.values.None? then Fatal
    else Ok(SummaryItem(f.slug, caption, Implode(", ", f.values.value), RemoveNames(f.slug)))
  }

  /** A filter whose summary entry cannot be built: a known non-range facet without values. */
  predicate BreaksSummary(f: Filter, facet: Option<Facet>)
  {
    facet.Some? && facet.value.ftype != "range" && f.values.None?
  }

  /**
   * `get_active_filter_summary`: filters for unknown slugs are skipped, the
   * others give one entry each, in filter order.
   */
  function Summary(fs: seq<Filter>, rows: seq<Facet>, host: Host): (r: Outcome<seq<SummaryItem>>)
    ensures r.Fatal? <==> exists i :: 0 <= i < |fs| && BreaksSummary(fs[i], FindRow(rows, fs[i].slug))
    ensures r.Ok? ==> |r.value| == Known(fs, rows)
    ensures r.Ok? ==> forall j :: 0 <= j < |r.value| ==> FindRow(rows, r.value[j].slug).Some?
  {
    if |fs| == 0 then Ok([])
    else
      var init := fs[..|fs| - 1];
      var before := Summary(init, rows, host);
      assert forall i :: 0 <= i < |init| ==> init[i] == fs[i];
      if before.Fatal? then Fatal
      else SummaryExtend(before.value, fs[|fs| - 1], FindRow(rows, fs[|fs| - 1].slug), host)
  }

  /** One turn of the summary loop: skip an unknown facet, otherwise append its entry. */
  function SummaryExtend(items: seq<SummaryItem>, f: Filter, facet: Option<Facet>, host: Host): (r: Outcome<seq<SummaryItem>>)
    ensures r.Fatal? <==> BreaksSummary(f, facet)
    ensures r.Ok? ==> items <= r.value && |r.value| == |items| + (if facet.Some? then 1 else 0)
    ensures facet.None? ==> r == Ok(items)
    ensures r.Ok? && facet.Some? ==> r.value == items + [SummaryItemFor(f, facet.value, host).value]
  {
    if facet.None? then Ok(items)
    else
      match SummaryItemFor(f, facet.value, host)
      case Fatal => Fatal
      case Ok(item) => Ok(items + [item])
  }

  /**
   * A filter created by a date bound carries no values, so a request with a
   * date range for a date facet makes the summary fatal (`implode` of null).
   */
  lemma DateRangeSummaryFatal(fs: seq<Filter>, rows: seq<Facet>, host: Host, i: int)
    requires 0 <= i < |fs| && fs[i].tag == DateRangeTag && fs[i].values.None?
    requires FindRow(rows, fs[i].slug).Some? && FindRow(rows, fs[i].slug).value.ftype == "date"
    ensures Summary(fs, rows, host).Fatal?
  {
    assert BreaksSummary(fs[i], FindRow(rows, fs[i].slug));
  }

  /** The filters whose slug names a stored facet, each with that facet, in filter order. */
  function KnownFilters(fs: seq<Filter>, rows: seq<Facet>): (r: seq<(Filter, Facet)>)
    ensures |r| == Known(fs, rows)
    ensures forall j :: 0 <= j < |r| ==> FindRow(rows, r[j].0.slug) == Some(r[j].1)
  {
    if |fs| == 0 then []
    else
      var f := fs[|fs| - 1];
      KnownFilters(fs[..|fs| - 1], rows) + (if FindRow(rows, f.slug).Some? then [(f, FindRow(rows, f.slug).value)] else [])
  }

  /** A successful summary is the entry of each known filter, in filter order. */
  lemma {:induction false} SummaryIsMap(fs: seq<Filter>, rows: seq<Facet>, host: Host)
    requires Summary(fs, rows, host).Ok?
    ensures var ks := KnownFilters(fs, rows);
      var items := Summary(fs, rows, host).value;
      |items| == |ks|
      && forall j :: 0 <= j < |ks| ==>
           SummaryItemFor(ks[j].0, ks[j].1, host).Ok? && items[j] == SummaryItemFor(ks[j].0, ks[j].1, host).value
  {
    if |fs| > 0 {
      var init := fs[..|fs| - 1];
      var f := fs[|fs| - 1];
      assert Summary(init, rows, host).Ok?;
      SummaryIsMap(init, rows, host);
      if FindRow(rows, f.slug).Some? {
        assert !BreaksSummary(f, FindRow(rows, f.slug));
      }
    }
  }

  /** The number of filters whose slug names a stored facet. */
  function Known(fs: seq<Filter>, rows: seq<Facet>): nat
  {
    if |fs| == 0 then 0
    else Known(fs[..|fs| - 1], rows) + (if FindRow(rows, fs[|fs| - 1].slug).Some? then 1 else 0)
  }

  /** The loop of `get_active_filter_summary`, looking facets up through the registry. */
  method ActiveFilterSummary(get: Params, reg: FacetRegistry, host: Host) returns (r: Outcome<seq<SummaryItem>>)
    requires reg.Valid()
    modifies reg
    ensures reg.Valid()
    ensures r == Summary(ActiveFilters(get, host), reg.rows, host)
  {
    var fs := GetActiveFilters(get, host);
    var items: seq<SummaryItem> := [];
    var i := 0;
    while i < |fs|
      invariant 0 <= i <= |fs|
      invariant reg.Valid()
      invariant Summary(fs[..i], reg.rows, host) == Ok(items)
    {
      SummaryPrefix(fs, i, reg.rows, host);
      var facet := reg.GetFacet(fs[i].slug);
      var next := SummaryExtend(items, fs[i], facet, host);
      if next.Fatal? {
        SummaryFatalExtends(fs, i + 1, reg.rows, host);
        return Fatal;
      }
      items := next.value;
      i := i + 1;
    }
    assert fs[..|fs|] == fs;
    r := Ok(items);
  }

  lemma SummaryPrefix(fs: seq<Filter>, i: int, rows: seq<Facet>, host: Host)
    requires 0 <= i < |fs| && Summary(fs[..i], rows, host).Ok?
    ensures Summary(fs[..i + 1], rows, host) ==
      SummaryExtend(Summary(fs[..i], rows, host).value, fs[i], FindRow(rows, fs[i].slug), host)
  {
    assert fs[..i + 1][..i] == fs[..i];
  }

  lemma SummaryFatalExtends(fs: seq<Filter>, n: int, rows: seq<Facet>, host: Host)
    requires 0 <= n <= |fs| && Summary(fs[..n], rows, host).Fatal?
    ensures Summary(fs, rows, host).Fatal?
  {
    var i :| 0 <= i < n && BreaksSummary(fs[..n][i], FindRow(rows, fs[..n][i].slug));
    assert fs[..n][i] == fs[i];
  }
}
