/**
 * Reading the active filters out of the request (CFS_Query::get_active_filters)
 * and choosing the meta comparison type (CFS_Query::get_meta_type).
 *
 * A parameter `cfs_<slug>_min` / `_max` is a range bound, `cfs_<slug>_from` /
 * `_to` a date bound, any other `cfs_` parameter carries plain values whose
 * slug is the name with every `cfs_` removed.  Entries are kept in an ordered
 * map by slug, as the PHP array `$filters` does, and returned in its order.
 */
module QueryFilters {
  import opened Php

  /** The `type` entry of a filter: set when a range or date bound created it. */
  datatype Tag = RangeTag | DateRangeTag | NoTag

  /** One active filter; a key the PHP array never received is `None`. */
  datatype Filter = Filter(
    slug: string,
    tag: Tag,
    values: Option<seq<string>>,
    min: Option<real>,
    max: Option<real>,
    from: Option<string>,
    to: Option<string>)

  /** How a parameter name is read. */
  datatype KeyClass =
    | Ignored
    | RangeBound(slug: string, isMin: bool)
    | DateBound(slug: string, isFrom: bool)
    | Plain(slug: string)

  /** The text a trailing `$` anchors against: PCRE's `$` also matches before one final newline. */
  function DollarBody(key: string): (b: string)
    ensures b == key || b + "\n" == key
  {
    if |key| > 0 && key[|key| - 1] == '\n' then key[..|key| - 1] else key
  }

  /**
   * `key` matches `/^cfs_(.+)_<suffix>$/`: after the prefix comes at least one
   * character, none of them a newline (`.` does not match one), then the suffix.
   */
  predicate MatchesBound(key: string, suffix: string)
  {
    var b := DollarBody(key);
    StartsWith(b, "cfs_") && EndsWith(b, "_" + suffix) && |b| > 5 + |suffix| &&
    '\n' !in b[4..|b| - 1 - |suffix|]
  }

  /** The `(.+)` group of a bound match. */
  function BoundSlug(key: string, suffix: string): string
    requires MatchesBound(key, suffix)
  {
    var b := DollarBody(key);
    b[4..|b| - 1 - |suffix|]
  }

  /** The range-bound parameter name for a slug. */
  function RangeKey(slug: string, isMin: bool): string
  {
    "cfs_" + slug + (if isMin then "_min" else "_max")
  }

  /** The date-bound parameter name for a slug. */
  function DateKey(slug: string, isFrom: bool): string
  {
    "cfs_" + slug + (if isFrom then "_from" else "_to")
  }

  /** The branch of the parameter loop a name takes. */
  function Classify(key: string): KeyClass
  {
    if !StartsWith(key, "cfs_") then Ignored
    else if MatchesBound(key, "min") then RangeBound(BoundSlug(key, "min"), true)
    else if MatchesBound(key, "max") then RangeBound(BoundSlug(key, "max"), false)
    else if MatchesBound(key, "from") then DateBound(BoundSlug(key, "from"), true)
    else if MatchesBound(key, "to") then DateBound(BoundSlug(key, "to"), false)
    else Plain(RemoveAll(key, "cfs_"))
  }

  /** The bound name for a slug and a suffix. */
  function BoundKey(slug: string, suffix: string): string
  {
    "cfs_" + slug + "_" + suffix
  }

  /** A name matches a bound pattern with group `slug` exactly when it is the bound name, possibly newline-terminated. */
  lemma BoundMatchIff(key: string, slug: string, suffix: string)
    requires suffix != "" && '\n' !in suffix
    ensures (MatchesBound(key, suffix) && BoundSlug(key, suffix) == slug) <==>
      slug != "" && '\n' !in slug && (key == BoundKey(slug, suffix) || key == BoundKey(slug, suffix) + "\n")
  {
    var k := BoundKey(slug, suffix);
    var b := DollarBody(key);
    if MatchesBound(key, suffix) && BoundSlug(key, suffix) == slug {
      assert b == b[..4] + b[4..|b| - 1 - |suffix|] + b[|b| - 1 - |suffix|..];
      assert b == k;
    }
    if slug != "" && '\n' !in slug && (key == k || key == k + "\n") {
      assert k[|k| - 1] == suffix[|suffix| - 1];
      if key == k + "\n" {
        assert key[..|key| - 1] == k;
      }
      assert b == k;
      assert k[..4] == "cfs_";
      assert k[|k| - 1 - |suffix|..] == "_" + suffix;
      assert k[4..|k| - 1 - |suffix|] == slug;
    }
  }

  /** A bound match ends with its suffix and starts with `cfs_`. */
  lemma BoundShape(key: string, suffix: string)
    ensures MatchesBound(key, suffix) ==> StartsWith(key, "cfs_")
    ensures MatchesBound(key, suffix) ==>
      var b := DollarBody(key); b[|b| - 1 - |suffix|..] == "_" + suffix
  {
    if MatchesBound(key, suffix) {
      assert DollarBody(key)[..4] == key[..4];
    }
  }

  /** The four suffixes exclude each other. */
  lemma BoundsExclusive(key: string)
    ensures MatchesBound(key, "max") ==> !MatchesBound(key, "min")
    ensures MatchesBound(key, "from") || MatchesBound(key, "to") ==> !MatchesBound(key, "min") && !MatchesBound(key, "max")
    ensures MatchesBound(key, "to") ==> !MatchesBound(key, "from")
  {
    var b := DollarBody(key);
    if MatchesBound(key, "max") { BoundShape(key, "max"); assert b[|b| - 1] == 'x'; }
    if MatchesBound(key, "min") { BoundShape(key, "min"); assert b[|b| - 1] == 'n'; }
    if MatchesBound(key, "from") { BoundShape(key, "from"); assert b[|b| - 1] == 'm'; }
    if MatchesBound(key, "to") { BoundShape(key, "to"); assert b[|b| - 1] == 'o'; }
  }

  /** Exactly the names `cfs_<slug>_min` / `_max` (with an optional final newline) are range bounds of `slug`. */
  lemma RangeKeyIff(key: string, slug: string, isMin: bool)
    ensures Classify(key) == RangeBound(slug, isMin) <==>
      slug != "" && '\n' !in slug && (key == RangeKey(slug, isMin) || key == RangeKey(slug, isMin) + "\n")
  {
    var suffix := if isMin then "min" else "max";
    assert RangeKey(slug, isMin) == BoundKey(slug, suffix);
    BoundMatchIff(key, slug, suffix);
    BoundsExclusive(key);
    if MatchesBound(key, suffix) { BoundShape(key, suffix); }
  }

  /** Exactly the names `cfs_<slug>_from` / `_to` (with an optional final newline) are date bounds of `slug`. */
  lemma DateKeyIff(key: string, slug: string, isFrom: bool)
    ensures Classify(key) == DateBound(slug, isFrom) <==>
      slug != "" && '\n' !in slug && (key == DateKey(slug, isFrom) || key == DateKey(slug, isFrom) + "\n")
  {
    var suffix := if isFrom then "from" else "to";
    assert DateKey(slug, isFrom) == BoundKey(slug, suffix);
    BoundMatchIff(key, slug, suffix);
    BoundsExclusive(key);
    if MatchesBound(key, suffix) { BoundShape(key, suffix); }
  }

  /** A plain `cfs_<slug>` name reads back as `slug` exactly when `slug` itself holds no `cfs_`. */
  lemma PlainSlugIff(slug: string)
    ensures RemoveAll("cfs_" + slug, "cfs_") == slug <==> !Occurs(slug, "cfs_")
  {
    RemoveAllLeading("cfs_", slug);
    RemoveAllFixedIff(slug, "cfs_");
  }

  /** `str_replace` does not rescan: `cfs_cfcfs_s_x` names the slug `cfs_x`, not `x`. */
  lemma PlainSlugNotRescanned()
    ensures Classify("cfs_cfcfs_s_x") == Plain("cfs_x")
  {
    var key := "cfs_cfcfs_s_x";
    NotABound(key);
    SplitAfterPrefix();
    RemoveAllLeading("cfs_", "cfcfs_s_x");
    InnerRemoval();
  }

  lemma SplitAfterPrefix()
    ensures "cfs_cfcfs_s_x"[..4] == "cfs_"
    ensures "cfs_cfcfs_s_x" == "cfs_" + "cfcfs_s_x"
  {
  }

  lemma NotABound(key: string)
    requires key == "cfs_cfcfs_s_x"
    ensures !MatchesBound(key, "min") && !MatchesBound(key, "max")
    ensures !MatchesBound(key, "from") && !MatchesBound(key, "to")
  {
    assert DollarBody(key) == key;
    assert key[|key| - 1] == 'x' && key[|key| - 3] == 's';
    BoundShape(key, "min");
    BoundShape(key, "max");
    BoundShape(key, "from");
    BoundShape(key, "to");
  }

  lemma InnerRemoval()
    ensures RemoveAll("cfcfs_s_x", "cfs_") == "cfs_x"
  {
    var t := "cfcfs_s_x";
    assert t[..4] != "cfs_" by { assert t[..4][2] == 'c'; }
    assert t[1..] == "fcfs_s_x";
    var u := "fcfs_s_x";
    assert u[..4] != "cfs_" by { assert u[..4][0] == 'f'; }
    assert u[1..] == "cfs_" + "s_x";
    RemoveAllLeading("cfs_", "s_x");
    assert RemoveAll("s_x", "cfs_") == "s_x";
  }

  /** A parameter the loop skips: `''`, or an array none of whose entries is truthy. */
  predicate Skipped(v: ParamValue)
  {
    v == Str("") || (v.List? && forall i :: 0 <= i < |v.items| ==> Falsy(v.items[i]))
  }

  /** The entry a bound creates for a slug it finds no entry for. */
  function Fresh(slug: string, tag: Tag): Filter
  {
    Filter(slug, tag, None, None, None, None, None)
  }

  /** The slug a classified name addresses. */
  function SlugOf(c: KeyClass): string
    requires !c.Ignored?
  {
    c.slug
  }

  /**
   * The entry a classified parameter leaves under its slug: a bound updates
   * the existing entry (or a fresh one tagged by its kind), plain values
   * replace the entry outright.
   */
  function EntryFor(filters: seq<(string, Filter)>, c: KeyClass, v: ParamValue, host: Host): (e: Filter)
    requires !c.Ignored?
    ensures e.slug == c.slug || Get(filters, c.slug).Some?
  {
    var cur := Get(filters, c.slug);
    match c
    case RangeBound(slug, isMin) =>
      var base := if cur.Some? then cur.value else Fresh(slug, RangeTag);
      var x := Some(FloatOf(v, host));
      if isMin then base.(min := x) else base.(max := x)
    case DateBound(slug, isFrom) =>
      var base := if cur.Some? then cur.value else Fresh(slug, DateRangeTag);
      var x := Some(TextOf(v, host));
      if isFrom then base.(from := x) else base.(to := x)
    case Plain(slug) =>
      Filter(slug, NoTag, Some(SanitizedList(v, host)), None, None, None, None)
  }

  /** One turn of the parameter loop. */
  function Step(filters: seq<(string, Filter)>, key: string, v: ParamValue, host: Host): (r: seq<(string, Filter)>)
    ensures Classify(key).Ignored? || Skipped(v) ==> r == filters
    ensures !Classify(key).Ignored? && !Skipped(v) ==>
      forall s :: s != SlugOf(Classify(key)) ==> Get(r, s) == Get(filters, s)
    ensures UniqueKeys(filters) ==> UniqueKeys(r)
    ensures |r| == |filters| || (|r| == |filters| + 1 && r[..|filters|] == filters)
  {
    var c := Classify(key);
    if c.Ignored? || Skipped(v) then filters
    else Put(filters, c.slug, EntryFor(filters, c, v, host))
  }

  /**
   * What one read parameter leaves under its slug: a bound sets its own end
   * (as a float for `_min`/`_max`, as sanitised text for `_from`/`_to`) and
   * keeps the other end and the tag of an existing entry, null and the
   * bound's own tag for a new one; plain values replace the entry with the
   * sanitised list.
   */
  lemma StepEntry(filters: seq<(string, Filter)>, key: string, v: ParamValue, host: Host)
    requires !Classify(key).Ignored? && !Skipped(v)
    ensures var c := Classify(key);
      var prev := Get(filters, c.slug);
      var e := Get(Step(filters, key, v, host), c.slug);
      e.Some?
      && (!c.Plain? ==> e.value.slug == (if prev.Some? then prev.value.slug else c.slug))
      && (c.RangeBound? ==>
            e.value.tag == (if prev.Some? then prev.value.tag else RangeTag)
            && e.value.min == (if c.isMin then Some(FloatOf(v, host)) else if prev.Some? then prev.value.min else None)
            && e.value.max == (if !c.isMin then Some(FloatOf(v, host)) else if prev.Some? then prev.value.max else None)
            && e.value.values == (if prev.Some? then prev.value.values else None))
      && (c.DateBound? ==>
            e.value.tag == (if prev.Some? then prev.value.tag else DateRangeTag)
            && e.value.from == (if c.isFrom then Some(TextOf(v, host)) else if prev.Some? then prev.value.from else None)
            && e.value.to == (if !c.isFrom then Some(TextOf(v, host)) else if prev.Some? then prev.value.to else None)
            && e.value.values == (if prev.Some? then prev.value.values else None))
      && (c.Plain? ==> e.value == Filter(c.slug, NoTag, Some(SanitizedList(v, host)), None, None, None, None))
  {
    var c := Classify(key);
    var e := EntryFor(filters, c, v, host);
    assert Step(filters, key, v, host) == Put(filters, c.slug, e);
    assert Get(Step(filters, key, v, host), c.slug) == Some(e);
  }

  /** The `$filters` array after the whole parameter loop. */
  function Parse(ps: Params, host: Host): seq<(string, Filter)>
  {
    if |ps| == 0 then []
    else Step(Parse(ps[..|ps| - 1], host), ps[|ps| - 1].0, ps[|ps| - 1].1, host)
  }

  /** What `get_active_filters` returns: `array_values($filters)`. */
  function ActiveFilters(ps: Params, host: Host): seq<Filter>
  {
    Values(Parse(ps, host))
  }

  /** `get_active_filters`, one parameter per loop turn. */
  method GetActiveFilters(get: Params, host: Host) returns (filters: seq<Filter>)
    ensures filters == ActiveFilters(get, host)
  {
    var bySlug: seq<(string, Filter)> := [];
    var i := 0;
    while i < |get|
      invariant 0 <= i <= |get|
      invariant bySlug == Parse(get[..i], host)
    {
      ghost var prefix := get[..i + 1];
      assert prefix[..i] == get[..i] && prefix[i] == get[i];
      bySlug := ReadParam(bySlug, get[i].0, get[i].1, host);
      i := i + 1;
    }
    assert get[..|get|] == get;
    filters := Values(bySlug);
  }

  /** The body of the parameter loop: skip, update a bound, or replace the plain entry. */
  method ReadParam(bySlug: seq<(string, Filter)>, key: string, v: ParamValue, host: Host)
    returns (r: seq<(string, Filter)>)
    ensures r == Step(bySlug, key, v, host)
  {
    var c := Classify(key);
    if c.Ignored? || Skipped(v) {
      return bySlug;
    }
    var cur := Get(bySlug, c.slug);
    var entry: Filter;
    if c.RangeBound? {
      entry := if cur.Some? then cur.value else Fresh(c.slug, RangeTag);
      if c.isMin {
        entry := entry.(min := Some(FloatOf(v, host)));
      } else {
        entry := entry.(max := Some(FloatOf(v, host)));
      }
    } else if c.DateBound? {
      entry := if cur.Some? then cur.value else Fresh(c.slug, DateRangeTag);
      if c.isFrom {
        entry := entry.(from := Some(TextOf(v, host)));
      } else {
        entry := entry.(to := Some(TextOf(v, host)));
      }
    } else {
      entry := Filter(c.slug, NoTag, Some(SanitizedList(v, host)), None, None, None, None);
    }
    r := Put(bySlug, c.slug, entry);
  }

  /** Every entry of the map is filed under its own slug. */
  ghost predicate SlugKeyed(m: seq<(string, Filter)>)
  {
    forall k :: Get(m, k).Some? ==> Get(m, k).value.slug == k
  }

  /** Every entry sits under its own slug and no slug appears twice. */
  lemma {:induction false} ParseWellKeyed(ps: Params, host: Host)
    ensures UniqueKeys(Parse(ps, host)) && SlugKeyed(Parse(ps, host))
  {
    if |ps| > 0 {
      var before := Parse(ps[..|ps| - 1], host);
      ParseWellKeyed(ps[..|ps| - 1], host);
      var (key, v) := ps[|ps| - 1];
      var r := Step(before, key, v, host);
      assert r == Parse(ps, host);
      if !Classify(key).Ignored? && !Skipped(v) {
        var s := SlugOf(Classify(key));
        assert Get(r, s).value.slug == s;
      }
    }
  }

  /** Each slug of a parse result is the slug of exactly one of its filters, in map order. */
  lemma ActiveFiltersDistinct(ps: Params, host: Host)
    ensures forall i, j :: 0 <= i < j < |ActiveFilters(ps, host)| ==>
      ActiveFilters(ps, host)[i].slug != ActiveFilters(ps, host)[j].slug
  {
    var m := Parse(ps, host);
    ParseWellKeyed(ps, host);
    forall i | 0 <= i < |m| ensures m[i].1.slug == m[i].0 {
      GetUnique(m, i);
    }
  }

  /** The request parameters whose names start with `cfs_`, in order. */
  function CfsOnly(ps: Params): (r: Params)
    ensures |r| <= |ps|
  {
    if |ps| == 0 then []
    else
      var rest := CfsOnly(ps[..|ps| - 1]);
      if StartsWith(ps[|ps| - 1].0, "cfs_") then rest + [ps[|ps| - 1]] else rest
  }

  /** Parameters outside the `cfs_` namespace never influence the active filters. */
  lemma {:induction false} ParseOnlyCfsKeys(ps: Params, host: Host)
    ensures Parse(ps, host) == Parse(CfsOnly(ps), host)
  {
    if |ps| > 0 {
      var init := ps[..|ps| - 1];
      ParseOnlyCfsKeys(init, host);
      var rest := CfsOnly(init);
      if StartsWith(ps[|ps| - 1].0, "cfs_") {
        assert (rest + [ps[|ps| - 1]])[..|rest|] == rest;
      }
    }
  }

  /** Every active filter's slug is the slug some `cfs_` parameter of the request addresses. */
  lemma {:induction false} ParseSlugsFromKeys(ps: Params, host: Host, slug: string)
    requires Get(Parse(ps, host), slug).Some?
    ensures exists i :: 0 <= i < |ps| && !Classify(ps[i].0).Ignored? && SlugOf(Classify(ps[i].0)) == slug
  {
    var init := ps[..|ps| - 1];
    var (key, v) := ps[|ps| - 1];
    var c := Classify(key);
    if !c.Ignored? && !Skipped(v) && SlugOf(c) == slug {
      assert !Classify(ps[|ps| - 1].0).Ignored?;
    } else {
      ParseSlugsFromKeys(init, host, slug);
      var i :| 0 <= i < |init| && !Classify(init[i].0).Ignored? && SlugOf(Classify(init[i].0)) == slug;
      assert ps[i] == init[i];
    }
  }

  /**
   * The values of a slug's filter come from the last plain parameter for it
   * that the loop reads: bounds read afterwards keep them.
   */
  lemma {:induction false} ParsePlainValues(ps: Params, host: Host, slug: string, k: int)
    requires 0 <= k < |ps| && Classify(ps[k].0) == Plain(slug) && !Skipped(ps[k].1)
    requires forall j :: k < j < |ps| && Classify(ps[j].0) == Plain(slug) ==> Skipped(ps[j].1)
    ensures Get(Parse(ps, host), slug).Some?
    ensures Get(Parse(ps, host), slug).value.values == Some(SanitizedList(ps[k].1, host))
  {
    var init := ps[..|ps| - 1];
    var key, v := ps[|ps| - 1].0, ps[|ps| - 1].1;
    var before := Parse(init, host);
    assert Parse(ps, host) == Step(before, key, v, host);
    if k == |ps| - 1 {
      StepEntry(before, key, v, host);
    } else {
      assert init[k] == ps[k];
      assert forall j :: k < j < |init| ==> init[j] == ps[j];
      ParsePlainValues(init, host, slug, k);
      var c := Classify(key);
      if !c.Ignored? && !Skipped(v) && SlugOf(c) == slug {
        assert !c.Plain?;
        StepEntry(before, key, v, host);
      }
    }
  }

  /** A data type set explicitly on the facet. */
  predicate ExplicitType(dataType: string)
  {
    dataType == "numeric" || dataType == "decimal" || dataType == "text"
  }

  /** The filter has values and `is_numeric` holds for all of them. */
  predicate AllNumeric(values: Option<seq<string>>, host: Host)
  {
    values.Some? && |values.value| > 0 && forall i :: 0 <= i < |values.value| ==> host.isNumeric(values.value[i])
  }

  /** Some value contains a decimal point. */
  predicate AnyDotted(vs: seq<string>)
  {
    exists i :: 0 <= i < |vs| && '.' in vs[i]
  }

  /** The comparison type `get_meta_type` picks. */
  function MetaTypeOf(dataType: string, values: Option<seq<string>>, host: Host): string
  {
    if dataType == "numeric" then "NUMERIC"
    else if dataType == "decimal" then "DECIMAL"
    else if dataType == "text" then "CHAR"
    else if AllNumeric(values, host) then (if AnyDotted(values.value) then "DECIMAL" else "NUMERIC")
    else "CHAR"
  }

  /**
   * `get_meta_type`: an explicit data type wins; otherwise all-numeric values
   * give DECIMAL when one of them has a '.', NUMERIC when none has, and
   * anything else (no values, or a non-numeric one) gives CHAR.
   */
  method GetMetaType(dataType: string, values: Option<seq<string>>, host: Host) returns (t: string)
    ensures t == MetaTypeOf(dataType, values, host)
    ensures t == "NUMERIC" || t == "DECIMAL" || t == "CHAR"
    ensures dataType == "numeric" ==> t == "NUMERIC"
    ensures dataType == "decimal" ==> t == "DECIMAL"
    ensures dataType == "text" ==> t == "CHAR"
    ensures !ExplicitType(dataType) ==>
      (t == "DECIMAL" <==> AllNumeric(values, host) && AnyDotted(values.value))
    ensures !ExplicitType(dataType) ==>
      (t == "NUMERIC" <==> AllNumeric(values, host) && !AnyDotted(values.value))
  {
    if dataType == "numeric" {
      return "NUMERIC";
    } else if dataType == "decimal" {
      return "DECIMAL";
    } else if dataType == "text" {
      return "CHAR";
    }
    if values.Some? && |values.value| > 0 {
      var vs := values.value;
      var allNumeric := true;
      var i := 0;
      while i < |vs|
        invariant 0 <= i <= |vs|
        invariant allNumeric <==> forall j :: 0 <= j < i ==> host.isNumeric(vs[j])
      {
        if !host.isNumeric(vs[i]) {
          allNumeric := false;
          i := i + 1;
          break;
        }
        i := i + 1;
      }
      if allNumeric {
        assert i == |vs|;
        var k := 0;
        while k < |vs|
          invariant 0 <= k <= |vs|
          invariant forall j :: 0 <= j < k ==> '.' !in vs[j]
        {
          if '.' in vs[k] {
            return "DECIMAL";
          }
          k := k + 1;
        }
        return "NUMERIC";
      }
    }
    return "CHAR";
  }
}
