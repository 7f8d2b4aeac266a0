/**
 * The `pre_get_posts` hook (CFS_Query::modify_query): decides whether a
 * WP_Query is filtered, turns each active filter into a meta or tax clause
 * or a post-attribute query variable, and merges the clauses into the
 * query's existing meta and tax queries with `array_merge`.
 */
module QueryHook {
  import opened Php
  import opened QueryFilters
  import opened Facets

  /** A PHP array entry: numbered, or under a string key. */
  datatype Entry<V> = Item(v: V) | Named(key: string, v: V)

  /** A clause value as the hook writes it. */
  datatype CVal = VNull | VStr(s: string) | VNum(r: real) | VList(xs: seq<CVal>)

  /** An entry of `meta_query` / `tax_query`; `Foreign` stands for anything the hook did not write. */
  datatype Clause =
    | MetaClause(key: string, value: CVal, mtype: Option<string>, compare: string)
    | TaxClause(taxonomy: string, terms: Option<seq<string>>)   // field 'slug', operator 'IN'
    | Relation(op: string)
    | Foreign(id: nat)

  /** A query variable: never set, set to null, or set to a value. */
  datatype Var<T> = Unset | Null | Val(v: T)

  datatype DateWindow = DateWindow(after: string, before: string, inclusive: bool)

  /** The `post_type` query variable. */
  datatype PostTypeVar = NoPostType | OneType(name: string) | ManyTypes(names: seq<string>)

  /** The query variables the hook reads but never writes. */
  datatype QueryFlags = QueryFlags(isMain: bool, cfsFilter: bool, postType: PostTypeVar)

  /** The query variables the hook may write. */
  datatype QueryState = QueryState(
    metaQuery: seq<Entry<Clause>>,
    taxQuery: seq<Entry<Clause>>,
    authorIn: Var<seq<string>>,
    dateQuery: Var<DateWindow>,
    search: Var<string>)

  /** The request the hook runs in. */
  datatype Request = Request(isAdmin: bool, doingAjax: bool, get: Params)

  // ---------------------------------------------------------------------
  // LIKE escaping (wpdb::esc_like)
  // ---------------------------------------------------------------------

  predicate LikeSpecial(c: char) { c == '_' || c == '%' || c == '\\' }

  /** `addcslashes(text, '_%\\')`: a backslash before every `_`, `%` and `\`. */
  function EscLike(s: string): (r: string)
    ensures |r| >= |s|
  {
    if |s| == 0 then ""
    else (if LikeSpecial(s[0]) then ['\\', s[0]] else [s[0]]) + EscLike(s[1..])
  }

  /** How LIKE reads a pattern's literal text: a backslash takes the next character as it is. */
  function UnescapeLike(r: string): string
  {
    if |r| == 0 then ""
    else if r[0] == '\\' && |r| >= 2 then [r[1]] + UnescapeLike(r[2..])
    else [r[0]] + UnescapeLike(r[1..])
  }

  /** No `_` or `%` of the pattern acts as a wildcard. */
  predicate NoBareWildcard(r: string)
  {
    if |r| == 0 then true
    else if r[0] == '\\' then |r| >= 2 && NoBareWildcard(r[2..])
    else r[0] != '_' && r[0] != '%' && NoBareWildcard(r[1..])
  }

  /** The escaped search text matches itself literally. */
  lemma {:induction false} EscLikeRoundTrip(s: string)
    ensures UnescapeLike(EscLike(s)) == s
    ensures NoBareWildcard(EscLike(s))
  {
    if |s| > 0 {
      EscLikeRoundTrip(s[1..]);
      var head := if LikeSpecial(s[0]) then ['\\', s[0]] else [s[0]];
      var e := head + EscLike(s[1..]);
      if LikeSpecial(s[0]) {
        assert e[2..] == EscLike(s[1..]);
      } else {
        assert e[1..] == EscLike(s[1..]);
      }
      assert s == [s[0]] + s[1..];
    }
  }

  // ---------------------------------------------------------------------
  // array_merge over clause arrays
  // ---------------------------------------------------------------------

  /** `m[k] = v`: overwrite the entry under `k` where it stands, or append one. */
  function SetNamed<V>(m: seq<Entry<V>>, k: string, v: V): (r: seq<Entry<V>>)
    ensures ItemCount(r) == ItemCount(m)
    ensures AllItems(m) ==> r == m + [Named(k, v)]
  {
    if |m| == 0 then [Named(k, v)]
    else if m[0].Named? && m[0].key == k then
      assert m == [m[0]] + m[1..];
      [Named(k, v)] + m[1..]
    else
      assert m == [m[0]] + m[1..];
      [m[0]] + SetNamed(m[1..], k, v)
  }

  /** The number of numbered entries. */
  function ItemCount<V>(m: seq<Entry<V>>): nat
  {
    if |m| == 0 then 0 else (if m[0].Item? then 1 else 0) + ItemCount(m[1..])
  }

  predicate AllItems<V>(m: seq<Entry<V>>)
  {
    forall i :: 0 <= i < |m| ==> m[i].Item?
  }

  lemma {:induction false} ItemCountAppend<V>(a: seq<Entry<V>>, b: seq<Entry<V>>)
    ensures ItemCount(a + b) == ItemCount(a) + ItemCount(b)
  {
    if |a| > 0 {
      assert (a + b)[0] == a[0];
      assert (a + b)[1..] == a[1..] + b;
      ItemCountAppend(a[1..], b);
    } else {
      assert a + b == b;
    }
  }

  /** Numbered entries of the values, in order. */
  function Items<V>(xs: seq<V>): (r: seq<Entry<V>>)
    ensures |r| == |xs| && AllItems(r)
    ensures forall i :: 0 <= i < |xs| ==> r[i] == Item(xs[i])
  {
    seq(|xs|, i requires 0 <= i < |xs| => Item(xs[i]))
  }

  /**
   * `array_merge(a, b)`: numbered entries of `b` are appended, named entries
   * of `b` overwrite `a`'s entry of that name in place or are appended.
   */
  function ArrayMerge<V>(a: seq<Entry<V>>, b: seq<Entry<V>>): (r: seq<Entry<V>>)
    ensures ItemCount(r) == ItemCount(a) + ItemCount(b)
  {
    if |b| == 0 then a
    else
      var init := b[..|b| - 1];
      var r := ArrayMerge(a, init);
      ItemCountAppend(init, [b[|b| - 1]]);
      assert init + [b[|b| - 1]] == b;
      match b[|b| - 1]
      case Item(x) =>
        ItemCountAppend(r, [Item(x)]);
        r + [Item(x)]
      case Named(k, x) => SetNamed(r, k, x)
  }

  /** Merging numbered entries only appends them. */
  lemma {:induction false} ArrayMergeItems<V>(a: seq<Entry<V>>, b: seq<Entry<V>>)
    requires AllItems(b)
    ensures ArrayMerge(a, b) == a + b
  {
    if |b| > 0 {
      var init := b[..|b| - 1];
      ArrayMergeItems(a, init);
      assert a + init + [b[|b| - 1]] == a + b;
    }
  }

  /**
   * The merge step of the hook: when the collected array is non-empty it
   * gets `relation => AND` and is merged over the existing array.
   */
  function MergeInto(existing: seq<Entry<Clause>>, collected: seq<Entry<Clause>>): seq<Entry<Clause>>
  {
    if |collected| > 0 then ArrayMerge(existing, SetNamed(collected, "relation", Relation("AND")))
    else existing
  }

  /**
   * Because the collected array starts out as a copy of the existing one,
   * every existing numbered clause ends up in the merged array twice.
   */
  lemma MergeDuplicatesExisting(existing: seq<Entry<Clause>>, added: seq<Clause>)
    requires |existing| + |added| > 0
    ensures ItemCount(MergeInto(existing, existing + Items(added))) == 2 * ItemCount(existing) + |added|
  {
    ItemCountAppend(existing, Items(added));
    ItemCountsOfItems(added);
  }

  lemma {:induction false} ItemCountsOfItems<V>(xs: seq<V>)
    ensures ItemCount(Items(xs)) == |xs|
  {
    if |xs| > 0 {
      assert Items(xs)[1..] == Items(xs[1..]);
      ItemCountsOfItems(xs[1..]);
    }
  }

  /** With only numbered clauses in place, the merged array is existing, existing again, the new clauses, then the relation. */
  lemma MergeShapeAllItems(existing: seq<Entry<Clause>>, added: seq<Clause>)
    requires AllItems(existing) && |existing| + |added| > 0
    ensures MergeInto(existing, existing + Items(added)) ==
      existing + existing + Items(added) + [Named("relation", Relation("AND"))]
  {
    var collected := existing + Items(added);
    var rel: Entry<Clause> := Named("relation", Relation("AND"));
    assert AllItems(collected);
    var withRel := SetNamed(collected, "relation", Relation("AND"));
    assert withRel == collected + [rel];
    assert withRel[..|withRel| - 1] == collected;
    ArrayMergeItems(existing, collected);
    var merged := ArrayMerge(existing, collected);
    assert merged == existing + collected;
    assert ArrayMerge(existing, withRel) == SetNamed(merged, "relation", Relation("AND"));
    assert AllItems(merged);
    assert existing + collected == existing + existing + Items(added);
  }

  /**
   * Merging an array that begins with a copy of the existing numbered
   * clauses: the existing clauses, then the whole copy, then the relation.
   */
  lemma MergeOverCopy(existing: seq<Entry<Clause>>, collected: seq<Entry<Clause>>)
    requires AllItems(collected) && existing <= collected
    ensures MergeInto(existing, collected) ==
      if |collected| == 0 then existing else existing + collected + [Named("relation", Relation("AND"))]
  {
    if |collected| > 0 {
      var rel: Entry<Clause> := Named("relation", Relation("AND"));
      var withRel := SetNamed(collected, "relation", Relation("AND"));
      assert withRel == collected + [rel];
      assert withRel[..|withRel| - 1] == collected;
      ArrayMergeItems(existing, collected);
      assert ArrayMerge(existing, withRel) == SetNamed(existing + collected, "relation", Relation("AND"));
      assert AllItems(existing + collected) by {
        forall i | 0 <= i < |existing + collected| ensures (existing + collected)[i].Item? {
          if i < |existing| { assert (existing + collected)[i] == collected[i]; }
        }
      }
    }
  }

  // ---------------------------------------------------------------------
  // Deciding whether to filter
  // ---------------------------------------------------------------------

  /** Some request parameter name starts with `cfs_`. */
  predicate HasCfsParams(get: Params)
  {
    exists i :: 0 <= i < |get| && StartsWith(get[i].0, "cfs_")
  }

  /** `!empty($post_type)` and not one of page, revision, nav_menu_item. */
  predicate SpecificPostType(pt: PostTypeVar)
  {
    match pt
    case NoPostType => false
    case OneType(n) => !Falsy(n) && n != "page" && n != "revision" && n != "nav_menu_item"
    case ManyTypes(ns) => |ns| > 0
  }

  /**
   * Filter a query flagged `cfs_filter`, the main query when the URL has
   * `cfs_` parameters, and on the front end any secondary query for a
   * specific post type when it has them; then let the
   * `cfs_should_filter_query` filter decide.
   */
  function ShouldFilter(flags: QueryFlags, req: Request, host: Host): bool
  {
    var has := HasCfsParams(req.get);
    var should := flags.cfsFilter || (flags.isMain && has) ||
      (has && !req.isAdmin && !flags.isMain && SpecificPostType(flags.postType));
    host.shouldFilterHook(should, has)
  }

  // ---------------------------------------------------------------------
  // Clauses
  // ---------------------------------------------------------------------

  /** `$filter['values'][0]` as a clause value: null when there is no first value. */
  function FirstVal(values: Option<seq<string>>): CVal
  {
    if values.Some? && |values.value| > 0 then VStr(values.value[0]) else VNull
  }

  /** `$filter['values'][0]` used as text (null reads as ''). */
  function FirstText(values: Option<seq<string>>): string
  {
    if values.Some? && |values.value| > 0 then values.value[0] else ""
  }

  /** A range bound as a clause value. */
  function NumOrNull(x: Option<real>): CVal
  {
    if x.Some? then VNum(x.value) else VNull
  }

  /** The clause type for a meta type: NUMERIC, DECIMAL(10,2), or none for CHAR. */
  function TypeFor(metaType: string): Option<string>
  {
    if metaType == "NUMERIC" then Some("NUMERIC")
    else if metaType == "DECIMAL" then Some("DECIMAL(10,2)")
    else None
  }

  /** The facet types with their own clause shape; the rest compare values with = or IN. */
  predicate SpecialType(ftype: string)
  {
    ftype == "range" || ftype == "search" || ftype == "date" || ftype == "rating"
  }

  /** The data type setting, 'auto' when unset. */
  function DataTypeOf(facet: Facet): string
  {
    if facet.settings.dataType.Some? then facet.settings.dataType.value else "auto"
  }

  /** `count($filter['values'])` on a filter without values is a fatal TypeError. */
  predicate Crashes(f: Filter, facet: Option<Facet>)
  {
    facet.Some? && facet.value.source == "custom_field" && !SpecialType(facet.value.ftype) && f.values.None?
  }

  /**
   * The meta clause for a filter on a custom-field facet: BETWEEN the bounds
   * for a range, LIKE the escaped first value for a search, BETWEEN or = for
   * a date, >= for a rating, and otherwise = the single value or IN the list.
   */
  function MetaClauseFor(f: Filter, facet: Facet, host: Host): (c: Outcome<Clause>)
    ensures c.Fatal? <==> !SpecialType(facet.ftype) && f.values.None?
    ensures c.Ok? ==> c.value.MetaClause? && c.value.key == facet.sourceKey
    ensures c.Ok? && facet.ftype == "search" ==>
      c.value.compare == "LIKE" && c.value.value == VStr("%" + EscLike(FirstText(f.values)) + "%") &&
      c.value.mtype == None
    ensures c.Ok? && !SpecialType(facet.ftype) ==>
      (c.value.compare == "=" <==> |f.values.value| == 1) &&
      (c.value.compare == "IN" <==> |f.values.value| != 1) &&
      c.value.mtype == TypeFor(MetaTypeOf(DataTypeOf(facet), f.values, host)) &&
      (|f.values.value| == 1 ==> c.value.value == VStr(f.values.value[0])) &&
      (|f.values.value| != 1 ==> c.value.value.VList? && |c.value.value.xs| == |f.values.value|
                                 && forall i :: 0 <= i < |f.values.value| ==> c.value.value.xs[i] == VStr(f.values.value[i]))
    ensures c.Ok? && facet.ftype == "range" ==>
      c.value.compare == "BETWEEN" && c.value.mtype == Some("NUMERIC")
      && c.value.value == VList([NumOrNull(f.min), NumOrNull(f.max)])
    ensures c.Ok? && facet.ftype == "date" ==>
      c.value.mtype == Some("DATE")
      && (c.value.compare == "BETWEEN" <==> f.from.Some? && f.to.Some?)
      && (c.value.compare == "BETWEEN" ==> c.value.value == VList([VStr(f.from.value), VStr(f.to.value)]))
      && (c.value.compare != "BETWEEN" ==> c.value.compare == "=" && c.value.value == FirstVal(f.values))
    ensures c.Ok? && facet.ftype == "rating" ==>
      c.value.compare == ">=" && c.value.mtype == Some("NUMERIC") && c.value.value == FirstVal(f.values)
  {
    var key := facet.sourceKey;
    var metaType := MetaTypeOf(DataTypeOf(facet), f.values, host);
    if facet.ftype == "range" then
      Ok(MetaClause(key, VList([NumOrNull(f.min), NumOrNull(f.max)]), Some("NUMERIC"), "BETWEEN"))
    else if facet.ftype == "search" then
      Ok(MetaClause(key, VStr("%" + EscLike(FirstText(f.values)) + "%"), None, "LIKE"))
    else if facet.ftype == "date" then
      if f.from.Some? && f.to.Some? then
        Ok(MetaClause(key, VList([VStr(f.from.value), VStr(f.to.value)]), Some("DATE"), "BETWEEN"))
      else Ok(MetaClause(key, FirstVal(f.values), Some("DATE"), "="))
    else if facet.ftype == "rating" then
      Ok(MetaClause(key, FirstVal(f.values), Some("NUMERIC"), ">="))
    else if f.values.None? then Fatal
    else
      var vs := f.values.value;
      if |vs| == 1 then Ok(MetaClause(key, VStr(vs[0]), TypeFor(metaType), "="))
      else Ok(MetaClause(key, VList(seq(|vs|, i requires 0 <= i < |vs| => VStr(vs[i]))), TypeFor(metaType), "IN"))
  }

  /** What the first loop of the hook accumulates. */
  datatype Acc = Acc(
    meta: seq<Entry<Clause>>,
    tax: seq<Entry<Clause>>,
    authorIn: Var<seq<string>>,
    dateQuery: Var<DateWindow>)

  /** `author__in` set to the filter's values (null when it has none). */
  function ValuesVar(values: Option<seq<string>>): Var<seq<string>>
  {
    if values.Some? then Val(values.value) else Null
  }

  /** One turn of the first loop; a filter for an unknown slug is skipped. */
  function ApplyFilter(acc: Acc, f: Filter, facet: Option<Facet>, host: Host): (r: Outcome<Acc>)
    ensures r.Fatal? <==> Crashes(f, facet)
    ensures r.Ok? ==> Extends(acc, r.value)
    ensures facet.None? ==> r == Ok(acc)
    ensures facet.Some? && facet.value.source == "taxonomy" ==>
      r == Ok(acc.(tax := acc.tax + [Item(TaxClause(facet.value.sourceKey, f.values))]))
    ensures r.Ok? && facet.Some? && facet.value.source == "custom_field" ==>
      r.value == acc.(meta := acc.meta + [Item(MetaClauseFor(f, facet.value, host).value)])
    ensures facet.Some? && facet.value.source == "post_attribute" ==>
      r.Ok? && r.value.meta == acc.meta && r.value.tax == acc.tax
      && r.value.authorIn == (if facet.value.sourceKey == "post_author" then ValuesVar(f.values) else acc.authorIn)
      && r.value.dateQuery == (if facet.value.sourceKey == "post_date" && f.from.Some?
                               then Val(DateWindow(f.from.value, if f.to.Some? then f.to.value else "", true))
                               else acc.dateQuery)
    ensures facet.Some? && facet.value.source !in ["taxonomy", "custom_field", "post_attribute"] ==> r == Ok(acc)
  {
    if facet.None? then Ok(acc)
    else
      var fc := facet.value;
      if fc.source == "taxonomy" then
        Ok(acc.(tax := acc.tax + [Item(TaxClause(fc.sourceKey, f.values))]))
      else if fc.source == "custom_field" then
        match MetaClauseFor(f, fc, host)
        case Fatal => Fatal
        case Ok(c) => Ok(acc.(meta := acc.meta + [Item(c)]))
      else if fc.source == "post_attribute" && fc.sourceKey == "post_author" then
        Ok(acc.(authorIn := ValuesVar(f.values)))
      else if fc.source == "post_attribute" && fc.sourceKey == "post_date" && f.from.Some? then
        Ok(acc.(dateQuery := Val(DateWindow(f.from.value, if f.to.Some? then f.to.value else "", true))))
      else Ok(acc)
  }

  /**
   * The first loop over the active filters: the existing clauses stay in
   * front, only numbered meta and tax clauses are added, and the request
   * dies exactly when some filter reaches a standard custom-field facet
   * without values.
   */
  function Collect(fs: seq<Filter>, rows: seq<Facet>, acc: Acc, host: Host): (r: Outcome<Acc>)
    ensures r.Fatal? <==> exists i :: 0 <= i < |fs| && Crashes(fs[i], FindRow(rows, fs[i].slug))
    ensures r.Ok? ==> Extends(acc, r.value)
  {
    if |fs| == 0 then Ok(acc)
    else
      var init := fs[..|fs| - 1];
      var f := fs[|fs| - 1];
      var before := Collect(init, rows, acc, host);
      assert forall i :: 0 <= i < |init| ==> init[i] == fs[i];
      if before.Fatal? then Fatal
      else
        var r := ApplyFilter(before.value, f, FindRow(rows, f.slug), host);
        if r.Ok? then ExtendsTrans(acc, before.value, r.value); r else r
  }

  /**
   * The accumulator when the first loop stops: after every filter when none
   * crashes, otherwise after the filters before the first crash.
   */
  function CollectUntilCrash(fs: seq<Filter>, rows: seq<Facet>, acc: Acc, host: Host): (r: Acc)
    ensures Collect(fs, rows, acc, host).Ok? ==> r == Collect(fs, rows, acc, host).value
  {
    if |fs| == 0 then acc
    else
      var init := fs[..|fs| - 1];
      var f := fs[|fs| - 1];
      match Collect(init, rows, acc, host)
      case Fatal => CollectUntilCrash(init, rows, acc, host)
      case Ok(before) =>
        match ApplyFilter(before, f, FindRow(rows, f.slug), host)
        case Fatal => before
        case Ok(next) => next
  }

  /** A facet whose filter sets a query variable directly. */
  predicate OnPostAttribute(facet: Option<Facet>)
  {
    facet.Some? && facet.value.source == "post_attribute"
  }

  /** Only post-attribute filters change `author__in` and `date_query` before the loop stops. */
  lemma {:induction false} UntilCrashKeepsVars(fs: seq<Filter>, rows: seq<Facet>, acc: Acc, host: Host)
    requires forall i :: 0 <= i < |fs| ==> !OnPostAttribute(FindRow(rows, fs[i].slug))
    ensures CollectUntilCrash(fs, rows, acc, host).authorIn == acc.authorIn
    ensures CollectUntilCrash(fs, rows, acc, host).dateQuery == acc.dateQuery
  {
    if |fs| > 0 {
      var init := fs[..|fs| - 1];
      assert forall i :: 0 <= i < |init| ==> init[i] == fs[i];
      UntilCrashKeepsVars(init, rows, acc, host);
      assert !OnPostAttribute(FindRow(rows, fs[|fs| - 1].slug));
    }
  }

  /** Once a prefix of the filters crashes, later filters do not change where the loop stopped. */
  lemma {:induction false} UntilCrashSticky(fs: seq<Filter>, n: int, rows: seq<Facet>, acc: Acc, host: Host)
    requires 0 <= n <= |fs| && Collect(fs[..n], rows, acc, host).Fatal?
    ensures CollectUntilCrash(fs, rows, acc, host) == CollectUntilCrash(fs[..n], rows, acc, host)
    decreases |fs|
  {
    if n < |fs| {
      var init := fs[..|fs| - 1];
      assert init[..n] == fs[..n];
      CollectFatalExtends(init, n, rows, acc, host);
      UntilCrashSticky(init, n, rows, acc, host);
    } else {
      assert fs[..n] == fs;
    }
  }

  /**
   * The clause lists of `next` keep those of `acc` in front and add only
   * numbered meta clauses and numbered tax clauses.
   */
  predicate Extends(acc: Acc, next: Acc)
  {
    acc.meta <= next.meta && acc.tax <= next.tax
    && (forall i :: |acc.meta| <= i < |next.meta| ==> next.meta[i].Item? && next.meta[i].v.MetaClause?)
    && (forall i :: |acc.tax| <= i < |next.tax| ==> next.tax[i].Item? && next.tax[i].v.TaxClause?)
  }

  lemma ExtendsTrans(a: Acc, b: Acc, c: Acc)
    requires Extends(a, b) && Extends(b, c)
    ensures Extends(a, c)
  {
  }

  /** What a search facet's filter sets `s` to: its first value, or null. */
  function SearchValue(f: Filter): Var<string>
  {
    if f.values.Some? && |f.values.value| > 0 then Val(f.values.value[0]) else Null
  }

  /** The second loop: search facets on a post attribute set `s`, in filter order. */
  function SearchOverride(fs: seq<Filter>, rows: seq<Facet>, s: Var<string>): (r: Var<string>)
    ensures (forall i :: 0 <= i < |fs| ==> !SetsSearch(FindRow(rows, fs[i].slug))) ==> r == s
    ensures r != s ==> exists i :: 0 <= i < |fs| && SetsSearch(FindRow(rows, fs[i].slug))
  {
    if |fs| == 0 then s
    else
      var init := fs[..|fs| - 1];
      var f := fs[|fs| - 1];
      var before := SearchOverride(init, rows, s);
      assert forall i :: 0 <= i < |init| ==> init[i] == fs[i];
      if SetsSearch(FindRow(rows, f.slug)) then SearchValue(f)
      else before
  }

  /** The last search facet wins: `s` ends as the value of the last filter whose facet sets it. */
  lemma {:induction false} SearchLastWins(fs: seq<Filter>, rows: seq<Facet>, s: Var<string>, k: int)
    requires 0 <= k < |fs| && SetsSearch(FindRow(rows, fs[k].slug))
    requires forall i :: k < i < |fs| ==> !SetsSearch(FindRow(rows, fs[i].slug))
    ensures SearchOverride(fs, rows, s) == SearchValue(fs[k])
    decreases |fs|
  {
    var init := fs[..|fs| - 1];
    if k < |fs| - 1 {
      assert !SetsSearch(FindRow(rows, fs[|fs| - 1].slug));
      assert forall i :: k < i < |init| ==> init[i] == fs[i];
      SearchLastWins(init, rows, s, k);
    }
  }

  predicate SetsSearch(facet: Option<Facet>)
  {
    facet.Some? && facet.value.ftype == "search" && facet.value.source == "post_attribute"
  }

  /** The whole hook on a query's variables; `Fatal` when the request dies. */
  function Hooked(st: QueryState, flags: QueryFlags, req: Request, rows: seq<Facet>, host: Host): Outcome<QueryState>
  {
    if req.isAdmin && !req.doingAjax then Ok(st)
    else if !ShouldFilter(flags, req, host) then Ok(st)
    else
      var fs := ActiveFilters(req.get, host);
      if |fs| == 0 then Ok(st)
      else Filtered(st, fs, rows, host)
  }

  /**
   * The query's variables when the hook dies: the meta and tax arrays are
   * still local, so only `author__in` and `date_query`, which the first loop
   * sets on the query directly, show the filters before the crash.
   */
  function CrashState(st: QueryState, fs: seq<Filter>, rows: seq<Facet>, host: Host): (r: QueryState)
    ensures r.metaQuery == st.metaQuery && r.taxQuery == st.taxQuery && r.search == st.search
  {
    var a := CollectUntilCrash(fs, rows, Acc(st.metaQuery, st.taxQuery, st.authorIn, st.dateQuery), host);
    st.(authorIn := a.authorIn, dateQuery := a.dateQuery)
  }

  /** Without post-attribute facets among the filters, a crash leaves the query as it was. */
  lemma CrashStateUnchanged(st: QueryState, fs: seq<Filter>, rows: seq<Facet>, host: Host)
    requires forall i :: 0 <= i < |fs| ==> !OnPostAttribute(FindRow(rows, fs[i].slug))
    ensures CrashState(st, fs, rows, host) == st
  {
    UntilCrashKeepsVars(fs, rows, Acc(st.metaQuery, st.taxQuery, st.authorIn, st.dateQuery), host);
  }

  /** The two loops of the hook over a non-empty list of active filters. */
  function Filtered(st: QueryState, fs: seq<Filter>, rows: seq<Facet>, host: Host): Outcome<QueryState>
  {
    match Collect(fs, rows, Acc(st.metaQuery, st.taxQuery, st.authorIn, st.dateQuery), host)
    case Fatal => Fatal
    case Ok(acc) =>
      Ok(QueryState(MergeInto(st.metaQuery, acc.meta), MergeInto(st.taxQuery, acc.tax),
                    acc.authorIn, acc.dateQuery, SearchOverride(fs, rows, st.search)))
  }

  /**
   * With only numbered clauses on the query, a successful hook keeps the
   * existing clauses in front, repeats them, adds the new clauses and ends
   * with `relation => AND`; an array with nothing collected is left as it was.
   */
  lemma FilteredClauses(st: QueryState, fs: seq<Filter>, rows: seq<Facet>, host: Host)
    requires AllItems(st.metaQuery) && AllItems(st.taxQuery)
    requires Filtered(st, fs, rows, host).Ok?
    ensures var acc := Collect(fs, rows, Acc(st.metaQuery, st.taxQuery, st.authorIn, st.dateQuery), host).value;
      var out := Filtered(st, fs, rows, host).value;
      && st.metaQuery <= acc.meta && st.taxQuery <= acc.tax
      && (forall i :: |st.metaQuery| <= i < |acc.meta| ==> acc.meta[i].Item? && acc.meta[i].v.MetaClause?)
      && (forall i :: |st.taxQuery| <= i < |acc.tax| ==> acc.tax[i].Item? && acc.tax[i].v.TaxClause?)
      && out.metaQuery == (if |acc.meta| == 0 then st.metaQuery
                           else st.metaQuery + acc.meta + [Named("relation", Relation("AND"))])
      && out.taxQuery == (if |acc.tax| == 0 then st.taxQuery
                          else st.taxQuery + acc.tax + [Named("relation", Relation("AND"))])
  {
    var acc0 := Acc(st.metaQuery, st.taxQuery, st.authorIn, st.dateQuery);
    var acc := Collect(fs, rows, acc0, host).value;
    assert Extends(acc0, acc);
    assert AllItems(acc.meta) by {
      forall i | 0 <= i < |acc.meta| ensures acc.meta[i].Item? {
        if i < |st.metaQuery| { assert acc.meta[i] == st.metaQuery[i]; }
      }
    }
    assert AllItems(acc.tax) by {
      forall i | 0 <= i < |acc.tax| ensures acc.tax[i].Item? {
        if i < |st.taxQuery| { assert acc.tax[i] == st.taxQuery[i]; }
      }
    }
    MergeOverCopy(st.metaQuery, acc.meta);
    MergeOverCopy(st.taxQuery, acc.tax);
  }

  /** A request without `cfs_` parameters leaves every query as it was, whatever the flags and the filter hook say. */
  lemma NoCfsParamsNoChange(st: QueryState, flags: QueryFlags, req: Request, rows: seq<Facet>, host: Host)
    requires !HasCfsParams(req.get)
    ensures Hooked(st, flags, req, rows, host) == Ok(st)
  {
    CfsOnlyEmpty(req.get);
    ParseOnlyCfsKeys(req.get, host);
  }

  lemma {:induction false} CfsOnlyEmpty(ps: Params)
    requires !HasCfsParams(ps)
    ensures CfsOnly(ps) == []
  {
    if |ps| > 0 {
      assert !StartsWith(ps[|ps| - 1].0, "cfs_");
      var init := ps[..|ps| - 1];
      assert !HasCfsParams(init) by {
        forall i | 0 <= i < |init| ensures !StartsWith(init[i].0, "cfs_") {
          assert init[i] == ps[i];
        }
      }
      CfsOnlyEmpty(ps[..|ps| - 1]);
    }
  }

  /** A query as the hook sees it. */
  class WpQuery {
    var metaQuery: seq<Entry<Clause>>
    var taxQuery: seq<Entry<Clause>>
    var authorIn: Var<seq<string>>
    var dateQuery: Var<DateWindow>
    var search: Var<string>
    const flags: QueryFlags

    function State(): QueryState
      reads this
    {
      QueryState(metaQuery, taxQuery, authorIn, dateQuery, search)
    }

    constructor (st: QueryState, f: QueryFlags)
      ensures State() == st && flags == f
    {
      metaQuery := st.metaQuery;
      taxQuery := st.taxQuery;
      authorIn := st.authorIn;
      dateQuery := st.dateQuery;
      search := st.search;
      flags := f;
    }

    /**
     * `modify_query`.  When the request dies (`fatal`) the query keeps the
     * `author__in` and `date_query` set before the crash and is otherwise as
     * it was; without a crash its new variables are those of `Hooked`.
     */
    method ModifyQuery(req: Request, reg: FacetRegistry, host: Host) returns (fatal: bool)
      requires reg.Valid()
      modifies this, reg
      ensures reg.Valid()
      ensures fatal <==> Hooked(old(State()), flags, req, reg.rows, host).Fatal?
      ensures fatal ==> State() == CrashState(old(State()), ActiveFilters(req.get, host), reg.rows, host)
      ensures !fatal ==> State() == Hooked(old(State()), flags, req, reg.rows, host).value
    {
      var next, crash := RunHook(State(), flags, req, reg, host);
      if next.Fatal? {
        authorIn, dateQuery := crash.authorIn, crash.dateQuery;
        return true;
      }
      fatal := false;
      metaQuery, taxQuery, authorIn, dateQuery, search :=
        next.value.metaQuery, next.value.taxQuery, next.value.authorIn, next.value.dateQuery, next.value.search;
    }
  }

  /** The steps of `modify_query` on a copy of the query's variables. */
  method RunHook(st: QueryState, flags: QueryFlags, req: Request, reg: FacetRegistry, host: Host)
    returns (r: Outcome<QueryState>, crash: QueryState)
    requires reg.Valid()
    modifies reg
    ensures reg.Valid()
    ensures r == Hooked(st, flags, req, reg.rows, host)
    ensures r.Fatal? ==> crash == CrashState(st, ActiveFilters(req.get, host), reg.rows, host)
  {
    if req.isAdmin && !req.doingAjax {
      return Ok(st), st;
    }
    var hasCfs := FindCfsParam(req.get);
    var should := flags.cfsFilter || (flags.isMain && hasCfs) ||
      (hasCfs && !req.isAdmin && !flags.isMain && SpecificPostType(flags.postType));
    should := host.shouldFilterHook(should, hasCfs);
    if !should {
      return Ok(st), st;
    }
    var fs := GetActiveFilters(req.get, host);
    if |fs| == 0 {
      return Ok(st), st;
    }
    r, crash := FilterQuery(st, fs, reg, host);
  }

  /** The two loops of `modify_query`, run on a copy of the query's variables. */
  method FilterQuery(st: QueryState, fs: seq<Filter>, reg: FacetRegistry, host: Host)
    returns (r: Outcome<QueryState>, crash: QueryState)
    requires reg.Valid()
    modifies reg
    ensures reg.Valid()
    ensures r == Filtered(st, fs, reg.rows, host)
    ensures r.Fatal? ==> crash == CrashState(st, fs, reg.rows, host)
  {
    var collected, partial := CollectClauses(fs, reg, Acc(st.metaQuery, st.taxQuery, st.authorIn, st.dateQuery), host);
    crash := st.(authorIn := partial.authorIn, dateQuery := partial.dateQuery);
    if collected.Fatal? {
      return Fatal, crash;
    }
    var acc := collected.value;
    var s := ApplySearch(fs, reg, st.search);
    return Ok(QueryState(MergeInto(st.metaQuery, acc.meta), MergeInto(st.taxQuery, acc.tax), acc.authorIn, acc.dateQuery, s)), crash;
  }

  /** The scan for a `cfs_` parameter name, stopping at the first one. */
  method FindCfsParam(get: Params) returns (found: bool)
    ensures found == HasCfsParams(get)
  {
    found := false;
    var k := 0;
    while k < |get|
      invariant 0 <= k <= |get|
      invariant found <==> exists j :: 0 <= j < k && StartsWith(get[j].0, "cfs_")
      invariant !found ==> forall j :: 0 <= j < k ==> !StartsWith(get[j].0, "cfs_")
    {
      if StartsWith(get[k].0, "cfs_") {
        found := true;
        return;
      }
      k := k + 1;
    }
  }

  /** The first loop of the hook, looking each facet up through the registry. */
  method CollectClauses(fs: seq<Filter>, reg: FacetRegistry, acc0: Acc, host: Host) returns (r: Outcome<Acc>, partial: Acc)
    requires reg.Valid()
    modifies reg
    ensures reg.Valid()
    ensures r == Collect(fs, reg.rows, acc0, host)
    ensures partial == CollectUntilCrash(fs, reg.rows, acc0, host)
  {
    var acc := acc0;
    var i := 0;
    while i < |fs|
      invariant 0 <= i <= |fs|
      invariant reg.Valid()
      invariant Collect(fs[..i], reg.rows, acc0, host) == Ok(acc)
    {
      CollectSnoc(fs, i, reg.rows, acc0, acc, host);
      var facet := reg.GetFacet(fs[i].slug);
      var next := ApplyOne(acc, fs[i], facet, host);
      if next.Fatal? {
        CollectFatalExtends(fs, i + 1, reg.rows, acc0, host);
        assert fs[..i + 1][..i] == fs[..i];
        UntilCrashSticky(fs, i + 1, reg.rows, acc0, host);
        return Fatal, acc;
      }
      acc := next.value;
      i := i + 1;
    }
    assert fs[..|fs|] == fs;
    return Ok(acc), acc;
  }

  /** The second loop of the hook: search facets on post attributes set `s`. */
  method ApplySearch(fs: seq<Filter>, reg: FacetRegistry, s0: Var<string>) returns (s: Var<string>)
    requires reg.Valid()
    modifies reg
    ensures reg.Valid()
    ensures s == SearchOverride(fs, reg.rows, s0)
  {
    s := s0;
    var j := 0;
    while j < |fs|
      invariant 0 <= j <= |fs|
      invariant reg.Valid()
      invariant s == SearchOverride(fs[..j], reg.rows, s0)
    {
      var facet := reg.GetFacet(fs[j].slug);
      SearchOverrideSnoc(fs, j, reg.rows, s0);
      s := SearchStep(s, fs[j], facet);
      j := j + 1;
    }
    assert fs[..|fs|] == fs;
  }

  /** One turn of the second loop. */
  method SearchStep(s: Var<string>, f: Filter, facet: Option<Facet>) returns (r: Var<string>)
    ensures SetsSearch(facet) ==> r == SearchValue(f)
    ensures !SetsSearch(facet) ==> r == s
  {
    r := s;
    if facet.Some? && facet.value.ftype == "search" && facet.value.source == "post_attribute" {
      r := if f.values.Some? && |f.values.value| > 0 then Val(f.values.value[0]) else Null;
    }
  }

  lemma SearchOverrideSnoc(fs: seq<Filter>, j: int, rows: seq<Facet>, s0: Var<string>)
    requires 0 <= j < |fs|
    ensures SearchOverride(fs[..j + 1], rows, s0) ==
      if SetsSearch(FindRow(rows, fs[j].slug)) then SearchValue(fs[j])
      else SearchOverride(fs[..j], rows, s0)
  {
    assert fs[..j + 1][..j] == fs[..j];
  }

  lemma CollectSnoc(fs: seq<Filter>, i: int, rows: seq<Facet>, acc0: Acc, acc: Acc, host: Host)
    requires 0 <= i < |fs| && Collect(fs[..i], rows, acc0, host) == Ok(acc)
    ensures Collect(fs[..i + 1], rows, acc0, host) == ApplyFilter(acc, fs[i], FindRow(rows, fs[i].slug), host)
  {
    assert fs[..i + 1][..i] == fs[..i];
  }

  /** Once a prefix of the filters is fatal, the whole run is. */
  lemma CollectFatalExtends(fs: seq<Filter>, n: int, rows: seq<Facet>, acc: Acc, host: Host)
    requires 0 <= n <= |fs|
    requires Collect(fs[..n], rows, acc, host).Fatal?
    ensures Collect(fs, rows, acc, host).Fatal?
  {
    var i :| 0 <= i < n && Crashes(fs[..n][i], FindRow(rows, fs[..n][i].slug));
    assert fs[..n][i] == fs[i];
  }

  /** One turn of the first loop, choosing the meta type with `GetMetaType`. */
  method ApplyOne(acc: Acc, f: Filter, facet: Option<Facet>, host: Host) returns (r: Outcome<Acc>)
    ensures r == ApplyFilter(acc, f, facet, host)
  {
    if facet.None? {
      return Ok(acc);
    }
    var fc := facet.value;
    if fc.source == "taxonomy" {
      return Ok(acc.(tax := acc.tax + [Item(TaxClause(fc.sourceKey, f.values))]));
    }
    if fc.source == "custom_field" {
      var metaType := GetMetaType(DataTypeOf(fc), f.values, host);
      var key := fc.sourceKey;
      var c: Clause;
      if fc.ftype == "range" {
        c := MetaClause(key, VList([NumOrNull(f.min), NumOrNull(f.max)]), Some("NUMERIC"), "BETWEEN");
      } else if fc.ftype == "search" {
        c := MetaClause(key, VStr("%" + EscLike(FirstText(f.values)) + "%"), None, "LIKE");
      } else if fc.ftype == "date" {
        if f.from.Some? && f.to.Some? {
          c := MetaClause(key, VList([VStr(f.from.value), VStr(f.to.value)]), Some("DATE"), "BETWEEN");
        } else {
          c := MetaClause(key, FirstVal(f.values), Some("DATE"), "=");
        }
      } else if fc.ftype == "rating" {
        c := MetaClause(key, FirstVal(f.values), Some("NUMERIC"), ">=");
      } else {
        if f.values.None? {
          return Fatal;
        }
        var vs := f.values.value;
        if |vs| == 1 {
          c := MetaClause(key, VStr(vs[0]), TypeFor(metaType), "=");
        } else {
          c := MetaClause(key, VList(seq(|vs|, i requires 0 <= i < |vs| => VStr(vs[i]))), TypeFor(metaType), "IN");
        }
      }
      return Ok(acc.(meta := acc.meta + [Item(c)]));
    }
    if fc.source == "post_attribute" && fc.sourceKey == "post_author" {
      return Ok(acc.(authorIn := ValuesVar(f.values)));
    }
    if fc.source == "post_attribute" && fc.sourceKey == "post_date" && f.from.Some? {
      return Ok(acc.(dateQuery := Val(DateWindow(f.from.value, if f.to.Some? then f.to.value else "", true))));
    }
    return Ok(acc);
  }
}
