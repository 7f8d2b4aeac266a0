/**
 * The browser-side controller of the search page (assets/js/frontend.js):
 * gathering the state of the facet controls into a filter object, rewriting
 * the page URL from it, the registry of result grids, the choice of the grid
 * a facet drives, the choice of the element that receives new results, and
 * the single `isLoading` flag that keeps at most one request in flight.
 *
 * The DOM is abstract: a facet is its target grid and its controls in
 * document order, and jQuery lookups are the uninterpreted functions of `Dom`.
 */
module Frontend {
  import opened Php

  // ---------------------------------------------------------------------
  // Facet controls and the filter object
  // ---------------------------------------------------------------------

  /** What `$(select).val()` returns: nothing, one string, or the list of a multiple select. */
  datatype SelectValue = NoSelection | OneValue(s: string) | ManyValues(xs: seq<string>)

  /** One form control inside a facet, with the state `gatherFilters` reads from it. */
  datatype Control =
    | Checkbox(name: string, value: string, checked: bool)
    | Radio(name: string, value: string, checked: bool)
    | Select(name: string, selected: SelectValue)
    | SearchInput(name: string, text: string)
    | RangeInputs(minName: string, maxName: string, dataMin: real, dataMax: real, curMin: real, curMax: real)
    | DateInput(name: string, text: string)

  /** A `.cfs-facet` element: its `data-target-grid` ("" when absent) and its controls. */
  datatype FacetElem = FacetElem(target: string, controls: seq<Control>)

  /** A value of the filter object: text, an array of texts, or a number. */
  datatype JsVal = JText(s: string) | JList(xs: seq<string>) | JNum(r: real)

  /** A plain JavaScript object: keys in insertion order, an assignment keeps the position. */
  type Filters = seq<(string, JsVal)>

  /** The six passes of `gatherFilters`, one per kind of control, in this order. */
  datatype Kind = CheckboxKind | RadioKind | SelectKind | SearchKind | RangeKind | DateKind

  function KindOf(c: Control): Kind
  {
    match c
    case Checkbox(_, _, _) => CheckboxKind
    case Radio(_, _, _) => RadioKind
    case Select(_, _) => SelectKind
    case SearchInput(_, _) => SearchKind
    case RangeInputs(_, _, _, _, _, _) => RangeKind
    case DateInput(_, _) => DateKind
  }

  /** The `name` attributes a control carries. */
  function Names(c: Control): seq<string>
  {
    match c
    case RangeInputs(lo, hi, _, _, _, _) => [lo, hi]
    case Checkbox(name, _, _) => [name]
    case Radio(name, _, _) => [name]
    case Select(name, _) => [name]
    case SearchInput(name, _) => [name]
    case DateInput(name, _) => [name]
  }

  /** A facet takes part when no grid is asked for, when it targets no grid, or when it targets that one. */
  predicate Targets(f: FacetElem, gridId: string)
  {
    gridId == "" || f.target == "" || f.target == gridId
  }

  /** The facets `gatherFilters` reads for a grid id ("" is a falsy id). */
  function Selected(facets: seq<FacetElem>, gridId: string): (r: seq<FacetElem>)
    ensures gridId == "" ==> r == facets
    ensures forall f :: f in r <==> f in facets && Targets(f, gridId)
  {
    if |facets| == 0 then []
    else
      var rest := Selected(facets[..|facets| - 1], gridId);
      assert facets == facets[..|facets| - 1] + [facets[|facets| - 1]];
      if Targets(facets[|facets| - 1], gridId) then rest + [facets[|facets| - 1]] else rest
  }

  /** The controls of the facets, in document order. */
  function ControlsOf(facets: seq<FacetElem>): (cs: seq<Control>)
    ensures forall c :: c in cs ==> exists f :: f in facets && c in f.controls
  {
    if |facets| == 0 then []
    else
      var rest := ControlsOf(facets[1..]);
      assert forall f :: f in facets[1..] ==> f in facets;
      facets[0].controls + rest
  }

  /** The effect of one control during the pass for `kind`. */
  function Apply(m: Filters, c: Control, kind: Kind): Filters
  {
    if KindOf(c) != kind then m
    else
      match c
      case Checkbox(name, v, checked) =>
        if !checked then m
        else if Get(m, name).Some? && Get(m, name).value.JList? then Put(m, name, JList(Get(m, name).value.xs + [v]))
        else Put(m, name, JList([v]))
      case Radio(name, v, checked) =>
        if checked && v != "" then Put(m, name, JText(v)) else m
      case Select(name, sel) =>
        (match sel
         case OneValue(s) => if s != "" then Put(m, name, JText(s)) else m
         case ManyValues(xs) => if |xs| > 0 then Put(m, name, JList(xs)) else m
         case NoSelection => m)
      case SearchInput(name, text) =>
        var t := Trim(text);
        if t != "" then Put(m, name, JText(t)) else m
      case RangeInputs(lo, hi, dmin, dmax, cmin, cmax) =>
        if cmin != dmin || cmax != dmax then Put(Put(m, lo, JNum(cmin)), hi, JNum(cmax)) else m
      case DateInput(name, text) =>
        if text != "" then Put(m, name, JText(text)) else m
  }

  /** One `.each` pass over the controls, in document order. */
  function RunPass(m: Filters, cs: seq<Control>, kind: Kind): Filters
  {
    if |cs| == 0 then m else Apply(RunPass(m, cs[..|cs| - 1], kind), cs[|cs| - 1], kind)
  }

  /** `gatherFilters(targetGridId)`: the six passes over the controls of the selected facets. */
  function Gather(facets: seq<FacetElem>, gridId: string): Filters
  {
    var cs := ControlsOf(Selected(facets, gridId));
    var m1 := RunPass([], cs, CheckboxKind);
    var m2 := RunPass(m1, cs, RadioKind);
    var m3 := RunPass(m2, cs, SelectKind);
    var m4 := RunPass(m3, cs, SearchKind);
    var m5 := RunPass(m4, cs, RangeKind);
    RunPass(m5, cs, DateKind)
  }

  /** One pass of `gatherFilters`, run step by step. */
  method ApplyPass(m: Filters, cs: seq<Control>, kind: Kind) returns (r: Filters)
    ensures r == RunPass(m, cs, kind)
  {
    r := m;
    var i := 0;
    while i < |cs|
      invariant 0 <= i <= |cs|
      invariant r == RunPass(m, cs[..i], kind)
    {
      assert cs[..i + 1][..i] == cs[..i];
      r := Apply(r, cs[i], kind);
      i := i + 1;
    }
    assert cs[..|cs|] == cs;
  }

  /** `gatherFilters`: select the facets, then run the six passes over their controls. */
  method GatherFilters(facets: seq<FacetElem>, gridId: string) returns (filters: Filters)
    ensures filters == Gather(facets, gridId)
  {
    var chosen := facets;
    if gridId != "" {
      chosen := [];
      var i := 0;
      while i < |facets|
        invariant 0 <= i <= |facets|
        invariant chosen == Selected(facets[..i], gridId)
      {
        assert facets[..i + 1][..i] == facets[..i];
        if facets[i].target == "" || facets[i].target == gridId {
          chosen := chosen + [facets[i]];
        }
        i := i + 1;
      }
      assert facets[..|facets|] == facets;
    }
    var cs: seq<Control> := [];
    var j := |chosen|;
    while j > 0
      invariant 0 <= j <= |chosen|
      invariant cs == ControlsOf(chosen[j..])
    {
      j := j - 1;
      assert chosen[j..][1..] == chosen[j + 1..];
      cs := chosen[j].controls + cs;
    }
    filters := ApplyPass([], cs, CheckboxKind);
    filters := ApplyPass(filters, cs, RadioKind);
    filters := ApplyPass(filters, cs, SelectKind);
    filters := ApplyPass(filters, cs, SearchKind);
    filters := ApplyPass(filters, cs, RangeKind);
    filters := ApplyPass(filters, cs, DateKind);
  }

  // ---------------------------------------------------------------------
  // What gatherFilters promises
  // ---------------------------------------------------------------------

  /** The value a non-checkbox control records under `name`, if it records one. */
  function Effect(c: Control, name: string): Option<JsVal>
  {
    match c
    case Checkbox(_, _, _) => None
    case Radio(n, v, checked) => if n == name && checked && v != "" then Some(JText(v)) else None
    case Select(n, sel) =>
      if n != name then None
      else if sel.OneValue? && sel.s != "" then Some(JText(sel.s))
      else if sel.ManyValues? && |sel.xs| > 0 then Some(JList(sel.xs))
      else None
    case SearchInput(n, text) => if n == name && Trim(text) != "" then Some(JText(Trim(text))) else None
    case RangeInputs(lo, hi, dmin, dmax, cmin, cmax) =>
      if cmin == dmin && cmax == dmax then None
      else if name == hi then Some(JNum(cmax))
      else if name == lo then Some(JNum(cmin))
      else None
    case DateInput(n, text) => if n == name && text != "" then Some(JText(text)) else None
  }

  /** The value the last recording control leaves under `name`. */
  function LastEffect(cs: seq<Control>, name: string): Option<JsVal>
  {
    if |cs| == 0 then None
    else if Effect(cs[|cs| - 1], name).Some? then Effect(cs[|cs| - 1], name)
    else LastEffect(cs[..|cs| - 1], name)
  }

  /** The values of the checked checkboxes called `name`, in document order. */
  function CheckedValues(cs: seq<Control>, name: string): seq<string>
  {
    if |cs| == 0 then []
    else
      var c := cs[|cs| - 1];
      CheckedValues(cs[..|cs| - 1], name) + (if c.Checkbox? && c.name == name && c.checked then [c.value] else [])
  }

  lemma ApplyUntouched(m: Filters, c: Control, kind: Kind, name: string)
    requires KindOf(c) != kind || name !in Names(c)
    ensures Get(Apply(m, c, kind), name) == Get(m, name)
  {
  }

  lemma ApplyEffect(m: Filters, c: Control, name: string)
    requires !c.Checkbox?
    ensures Get(Apply(m, c, KindOf(c)), name) == if Effect(c, name).Some? then Effect(c, name) else Get(m, name)
  {
  }

  /** A pass leaves alone every name that no control of its kind carries. */
  lemma {:induction false} PassUntouched(m: Filters, cs: seq<Control>, kind: Kind, name: string)
    requires forall c :: c in cs && name in Names(c) ==> KindOf(c) != kind
    ensures Get(RunPass(m, cs, kind), name) == Get(m, name)
  {
    if |cs| > 0 {
      assert cs[|cs| - 1] in cs;
      PassUntouched(m, cs[..|cs| - 1], kind, name);
      ApplyUntouched(RunPass(m, cs[..|cs| - 1], kind), cs[|cs| - 1], kind, name);
    }
  }

  /** In the pass of its kind, a name carried only by scalar controls ends with the last value recorded. */
  lemma {:induction false} PassLastWriter(m: Filters, cs: seq<Control>, kind: Kind, name: string)
    requires kind != CheckboxKind
    requires forall c :: c in cs && name in Names(c) ==> KindOf(c) == kind
    ensures Get(RunPass(m, cs, kind), name) == if LastEffect(cs, name).Some? then LastEffect(cs, name) else Get(m, name)
  {
    if |cs| > 0 {
      var c := cs[|cs| - 1];
      assert c in cs;
      PassLastWriter(m, cs[..|cs| - 1], kind, name);
      if KindOf(c) == kind {
        ApplyEffect(RunPass(m, cs[..|cs| - 1], kind), c, name);
      } else {
        ApplyUntouched(RunPass(m, cs[..|cs| - 1], kind), c, kind, name);
      }
    }
  }

  /** In the checkbox pass, a name carried only by checkboxes collects their checked values. */
  lemma {:induction false} PassCheckboxes(m: Filters, cs: seq<Control>, name: string)
    requires Get(m, name).None?
    requires forall c :: c in cs && name in Names(c) ==> c.Checkbox?
    ensures Get(RunPass(m, cs, CheckboxKind), name)
            == if CheckedValues(cs, name) == [] then None else Some(JList(CheckedValues(cs, name)))
  {
    if |cs| > 0 {
      var c := cs[|cs| - 1];
      assert c in cs;
      PassCheckboxes(m, cs[..|cs| - 1], name);
      assert RunPass(m, cs, CheckboxKind) == Apply(RunPass(m, cs[..|cs| - 1], CheckboxKind), c, CheckboxKind);
      var before := RunPass(m, cs[..|cs| - 1], CheckboxKind);
      if name !in Names(c) || !c.Checkbox? {
        ApplyUntouched(before, c, CheckboxKind, name);
        assert CheckedValues(cs, name) == CheckedValues(cs[..|cs| - 1], name);
      } else if c.checked {
        assert CheckedValues(cs, name) == CheckedValues(cs[..|cs| - 1], name) + [c.value];
        if Get(before, name).Some? {
          assert Apply(before, c, CheckboxKind) == Put(before, name, JList(CheckedValues(cs[..|cs| - 1], name) + [c.value]));
        } else {
          assert CheckedValues(cs[..|cs| - 1], name) == [];
          assert CheckedValues(cs, name) == [c.value];
          assert Apply(before, c, CheckboxKind) == Put(before, name, JList([c.value]));
        }
      } else {
        assert CheckedValues(cs, name) == CheckedValues(cs[..|cs| - 1], name);
      }
    }
  }

  /** The pass for `kind` seen from one name: the pass of its own kind decides, every other keeps. */
  lemma Stage(m: Filters, cs: seq<Control>, pass: Kind, kind: Kind, name: string)
    requires kind != CheckboxKind
    requires forall c :: c in cs && name in Names(c) ==> KindOf(c) == kind
    ensures Get(RunPass(m, cs, pass), name)
            == if pass == kind && LastEffect(cs, name).Some? then LastEffect(cs, name) else Get(m, name)
  {
    if pass == kind {
      PassLastWriter(m, cs, kind, name);
    } else {
      PassUntouched(m, cs, pass, name);
    }
  }

  /**
   * A radio, select, search, range or date name of the selected facets ends
   * with the value recorded by the last control that records one, or is
   * absent when none does: empty values are skipped and later controls win.
   */
  lemma GatherLastWriterWins(facets: seq<FacetElem>, gridId: string, kind: Kind, name: string)
    requires kind != CheckboxKind
    requires forall c :: c in ControlsOf(Selected(facets, gridId)) && name in Names(c) ==> KindOf(c) == kind
    ensures Get(Gather(facets, gridId), name) == LastEffect(ControlsOf(Selected(facets, gridId)), name)
  {
    var cs := ControlsOf(Selected(facets, gridId));
    var m1 := RunPass([], cs, CheckboxKind);
    var m2 := RunPass(m1, cs, RadioKind);
    var m3 := RunPass(m2, cs, SelectKind);
    var m4 := RunPass(m3, cs, SearchKind);
    var m5 := RunPass(m4, cs, RangeKind);
    Stage([], cs, CheckboxKind, kind, name);
    Stage(m1, cs, RadioKind, kind, name);
    Stage(m2, cs, SelectKind, kind, name);
    Stage(m3, cs, SearchKind, kind, name);
    Stage(m4, cs, RangeKind, kind, name);
    Stage(m5, cs, DateKind, kind, name);
  }

  /** A checkbox name collects the values of its checked boxes in document order, and is absent when none is checked. */
  lemma GatherCheckboxes(facets: seq<FacetElem>, gridId: string, name: string)
    requires forall c :: c in ControlsOf(Selected(facets, gridId)) && name in Names(c) ==> c.Checkbox?
    ensures var vs := CheckedValues(ControlsOf(Selected(facets, gridId)), name);
            Get(Gather(facets, gridId), name) == if vs == [] then None else Some(JList(vs))
  {
    var cs := ControlsOf(Selected(facets, gridId));
    var m1 := RunPass([], cs, CheckboxKind);
    var m2 := RunPass(m1, cs, RadioKind);
    var m3 := RunPass(m2, cs, SelectKind);
    var m4 := RunPass(m3, cs, SearchKind);
    var m5 := RunPass(m4, cs, RangeKind);
    PassCheckboxes([], cs, name);
    PassUntouched(m1, cs, RadioKind, name);
    PassUntouched(m2, cs, SelectKind, name);
    PassUntouched(m3, cs, SearchKind, name);
    PassUntouched(m4, cs, RangeKind, name);
    PassUntouched(m5, cs, DateKind, name);
  }

  lemma {:induction false} SoleWriter(cs: seq<Control>, r: Control, name: string)
    requires forall c :: c in cs && name in Names(c) ==> c == r
    ensures LastEffect(cs, name) == if r in cs then Effect(r, name) else None
  {
    if |cs| > 0 {
      var c := cs[|cs| - 1];
      assert cs == cs[..|cs| - 1] + [c];
      assert c in cs;
      SoleWriter(cs[..|cs| - 1], r, name);
    }
  }

  /**
   * A range slider whose two names belong to it alone sends both bounds when
   * either differs from its `data-min`/`data-max`, and neither otherwise.
   */
  lemma GatherRangeBothOrNeither(facets: seq<FacetElem>, gridId: string, r: Control)
    requires r.RangeInputs? && r.minName != r.maxName
    requires r in ControlsOf(Selected(facets, gridId))
    requires forall c :: c in ControlsOf(Selected(facets, gridId)) && (r.minName in Names(c) || r.maxName in Names(c)) ==> c == r
    ensures var moved := r.curMin != r.dataMin || r.curMax != r.dataMax;
            && Get(Gather(facets, gridId), r.minName) == (if moved then Some(JNum(r.curMin)) else None)
            && Get(Gather(facets, gridId), r.maxName) == (if moved then Some(JNum(r.curMax)) else None)
  {
    var cs := ControlsOf(Selected(facets, gridId));
    GatherLastWriterWins(facets, gridId, RangeKind, r.minName);
    GatherLastWriterWins(facets, gridId, RangeKind, r.maxName);
    SoleWriter(cs, r, r.minName);
    SoleWriter(cs, r, r.maxName);
  }

  lemma {:induction false} PassKeysFrom(m: Filters, cs: seq<Control>, kind: Kind, name: string)
    requires Get(RunPass(m, cs, kind), name).Some?
    ensures Get(m, name).Some? || exists c :: c in cs && name in Names(c)
  {
    if |cs| > 0 {
      var c := cs[|cs| - 1];
      assert c in cs;
      if name !in Names(c) {
        ApplyUntouched(RunPass(m, cs[..|cs| - 1], kind), c, kind, name);
        PassKeysFrom(m, cs[..|cs| - 1], kind, name);
        if exists c' :: c' in cs[..|cs| - 1] && name in Names(c') {
          var c' :| c' in cs[..|cs| - 1] && name in Names(c');
          assert c' in cs;
        }
      }
    }
  }

  /** Every gathered name is the name of a control of a facet that targets the grid (or of any facet, for a falsy id). */
  lemma GatherOnlySelected(facets: seq<FacetElem>, gridId: string, name: string)
    requires Get(Gather(facets, gridId), name).Some?
    ensures exists f :: f in facets && Targets(f, gridId) && exists c :: c in f.controls && name in Names(c)
  {
    var cs := ControlsOf(Selected(facets, gridId));
    var m1 := RunPass([], cs, CheckboxKind);
    var m2 := RunPass(m1, cs, RadioKind);
    var m3 := RunPass(m2, cs, SelectKind);
    var m4 := RunPass(m3, cs, SearchKind);
    var m5 := RunPass(m4, cs, RangeKind);
    if !exists c :: c in cs && name in Names(c) {
      PassKeysFrom(m5, cs, DateKind, name);
      PassKeysFrom(m4, cs, RangeKind, name);
      PassKeysFrom(m3, cs, SearchKind, name);
      PassKeysFrom(m2, cs, SelectKind, name);
      PassKeysFrom(m1, cs, RadioKind, name);
      PassKeysFrom([], cs, CheckboxKind, name);
      assert false;
    }
    var c :| c in cs && name in Names(c);
    var f :| f in Selected(facets, gridId) && c in f.controls;
  }

  lemma {:induction false} PassKeepsUnique(m: Filters, cs: seq<Control>, kind: Kind)
    requires UniqueKeys(m)
    ensures UniqueKeys(RunPass(m, cs, kind))
  {
    if |cs| > 0 {
      PassKeepsUnique(m, cs[..|cs| - 1], kind);
    }
  }

  /** The filter object never holds a name twice. */
  lemma GatherUnique(facets: seq<FacetElem>, gridId: string)
    ensures UniqueKeys(Gather(facets, gridId))
  {
    var cs := ControlsOf(Selected(facets, gridId));
    var m1 := RunPass([], cs, CheckboxKind);
    var m2 := RunPass(m1, cs, RadioKind);
    var m3 := RunPass(m2, cs, SelectKind);
    var m4 := RunPass(m3, cs, SearchKind);
    var m5 := RunPass(m4, cs, RangeKind);
    PassKeepsUnique([], cs, CheckboxKind);
    PassKeepsUnique(m1, cs, RadioKind);
    PassKeepsUnique(m2, cs, SelectKind);
    PassKeepsUnique(m3, cs, SearchKind);
    PassKeepsUnique(m4, cs, RangeKind);
    PassKeepsUnique(m5, cs, DateKind);
  }

  // ---------------------------------------------------------------------
  // updateURL
  // ---------------------------------------------------------------------

  /** `url.searchParams`: name/value pairs in order; a name may occur several times. */
  type SearchParams = seq<(string, string)>

  /** The pairs whose name is not in `names`, in order. */
  function WithoutNames(ps: SearchParams, names: seq<string>): (r: SearchParams)
    ensures forall p :: p in r <==> p in ps && p.0 !in names
  {
    if |ps| == 0 then []
    else (if ps[0].0 in names then [] else [ps[0]]) + WithoutNames(ps[1..], names)
  }

  /** `searchParams.delete(name)`. */
  function Delete(ps: SearchParams, name: string): SearchParams
  {
    if |ps| == 0 then []
    else (if ps[0].0 == name then [] else [ps[0]]) + Delete(ps[1..], name)
  }

  /** `searchParams.set(name, v)`: the first pair called `name` takes `v` and the others go; with none, the pair is appended. */
  function SetParam(ps: SearchParams, name: string, v: string): SearchParams
  {
    if |ps| == 0 then [(name, v)]
    else if ps[0].0 == name then [(name, v)] + Delete(ps[1..], name)
    else [ps[0]] + SetParam(ps[1..], name, v)
  }

  /** The pairs whose name does not start with `cfs_`, in order. */
  function NonCfs(ps: SearchParams): (r: SearchParams)
    ensures forall p :: p in r <==> p in ps && !StartsWith(p.0, "cfs_")
  {
    if |ps| == 0 then []
    else (if StartsWith(ps[0].0, "cfs_") then [] else [ps[0]]) + NonCfs(ps[1..])
  }

  /** One pair per element of a list value. */
  function Spread(name: string, xs: seq<string>): (r: SearchParams)
    ensures |r| == |xs| && forall i :: 0 <= i < |xs| ==> r[i] == (name, xs[i])
  {
    seq(|xs|, i requires 0 <= i < |xs| => (name, xs[i]))
  }

  /** What one filter does to the query: append every element of an array, set a scalar. */
  function AddFilter(ps: SearchParams, f: (string, JsVal), numText: real -> string): SearchParams
  {
    match f.1
    case JList(xs) => ps + Spread(f.0, xs)
    case JText(t) => SetParam(ps, f.0, t)
    case JNum(r) => SetParam(ps, f.0, numText(r))
  }

  function AddFilters(ps: SearchParams, fs: Filters, numText: real -> string): SearchParams
  {
    if |fs| == 0 then ps else AddFilter(AddFilters(ps, fs[..|fs| - 1], numText), fs[|fs| - 1], numText)
  }

  /**
   * The query `updateURL` leaves: every `cfs_` pair removed, then the filters
   * added.  `numText` is JavaScript's number-to-string conversion.
   */
  function UpdatedQuery(ps: SearchParams, fs: Filters, numText: real -> string): SearchParams
  {
    AddFilters(NonCfs(ps), fs, numText)
  }

  lemma {:induction false} DeleteMore(ps: SearchParams, names: seq<string>, k: string)
    ensures Delete(WithoutNames(ps, names), k) == WithoutNames(ps, names + [k])
  {
    if |ps| > 0 {
      DeleteMore(ps[1..], names, k);
      var head := if ps[0].0 in names then [] else [ps[0]];
      assert WithoutNames(ps, names) == head + WithoutNames(ps[1..], names);
      if head == [] {
        assert WithoutNames(ps, names) == WithoutNames(ps[1..], names);
        assert Delete(WithoutNames(ps, names), k) == Delete(WithoutNames(ps[1..], names), k);
      } else {
        assert Delete(WithoutNames(ps, names), k)
            == (if ps[0].0 == k then [] else [ps[0]]) + Delete(WithoutNames(ps[1..], names), k);
      }
    }
  }

  lemma {:induction false} WithoutCfsNames(ps: SearchParams, names: seq<string>)
    requires forall p :: p in ps ==> (p.0 in names <==> StartsWith(p.0, "cfs_"))
    ensures WithoutNames(ps, names) == NonCfs(ps)
  {
    if |ps| > 0 {
      assert ps[0] in ps;
      assert forall p :: p in ps[1..] ==> p in ps;
      WithoutCfsNames(ps[1..], names);
    }
  }

  /** The `forEach` that collects the names of the `cfs_` pairs. */
  method CollectCfsNames(ps: SearchParams) returns (names: seq<string>)
    ensures forall p :: p in ps ==> (p.0 in names <==> StartsWith(p.0, "cfs_"))
  {
    names := [];
    var i := 0;
    while i < |ps|
      invariant 0 <= i <= |ps|
      invariant forall p :: p in ps[..i] ==> (p.0 in names <==> StartsWith(p.0, "cfs_"))
      invariant forall k :: k in names ==> StartsWith(k, "cfs_")
    {
      assert ps[..i + 1] == ps[..i] + [ps[i]];
      if StartsWith(ps[i].0, "cfs_") {
        names := names + [ps[i].0];
      }
      i := i + 1;
    }
    assert ps[..|ps|] == ps;
  }

  /** One more deleted name: the parameters without the first `j + 1` names. */
  lemma DeleteNext(ps: SearchParams, names: seq<string>, j: int)
    requires 0 <= j < |names|
    ensures Delete(WithoutNames(ps, names[..j]), names[j]) == WithoutNames(ps, names[..j + 1])
  {
    DeleteMore(ps, names[..j], names[j]);
    assert names[..j + 1] == names[..j] + [names[j]];
  }

  /** `keysToRemove.forEach(key => url.searchParams.delete(key))`. */
  method DeleteNames(ps: SearchParams, names: seq<string>) returns (r: SearchParams)
    ensures r == WithoutNames(ps, names)
  {
    WithoutNoNames(ps);
    assert names[..0] == [];
    r := ps;
    for j := 0 to |names|
      invariant r == WithoutNames(ps, names[..j])
    {
      DeleteNext(ps, names, j);
      r := Delete(r, names[j]);
    }
    assert names[..|names|] == names;
  }

  /** The loop over `Object.keys(filters)`: append every array element, set every scalar. */
  method AddAll(base: SearchParams, fs: Filters, numText: real -> string) returns (r: SearchParams)
    ensures r == AddFilters(base, fs, numText)
  {
    r := base;
    var n := 0;
    while n < |fs|
      invariant 0 <= n <= |fs|
      invariant r == AddFilters(base, fs[..n], numText)
    {
      assert fs[..n + 1][..n] == fs[..n];
      var (key, v) := fs[n];
      if v.JList? {
        var before := r;
        var k := 0;
        while k < |v.xs|
          invariant 0 <= k <= |v.xs|
          invariant r == before + Spread(key, v.xs[..k])
        {
          assert Spread(key, v.xs[..k + 1]) == Spread(key, v.xs[..k]) + [(key, v.xs[k])];
          r := r + [(key, v.xs[k])];
          k := k + 1;
        }
        assert v.xs[..|v.xs|] == v.xs;
      } else if v.JText? {
        r := SetParam(r, key, v.s);
      } else {
        r := SetParam(r, key, numText(v.r));
      }
      n := n + 1;
    }
    assert fs[..|fs|] == fs;
  }

  /** `updateURL`: collect the `cfs_` names, delete each, then append or set every filter. */
  method UpdateUrl(ps: SearchParams, fs: Filters, numText: real -> string) returns (r: SearchParams)
    ensures r == UpdatedQuery(ps, fs, numText)
  {
    var names := CollectCfsNames(ps);
    var kept := DeleteNames(ps, names);
    WithoutCfsNames(ps, names);
    r := AddAll(kept, fs, numText);
  }

  lemma {:induction false} WithoutNoNames(ps: SearchParams)
    ensures WithoutNames(ps, []) == ps
  {
    if |ps| > 0 {
      WithoutNoNames(ps[1..]);
      assert ps == [ps[0]] + ps[1..];
    }
  }

  /** The pairs one filter contributes when its name is not yet present. */
  function Contribution(f: (string, JsVal), numText: real -> string): SearchParams
  {
    match f.1
    case JList(xs) => Spread(f.0, xs)
    case JText(t) => [(f.0, t)]
    case JNum(r) => [(f.0, numText(r))]
  }

  /** The pairs the filters contribute when none of their names is already present. */
  function Expanded(fs: Filters, numText: real -> string): SearchParams
  {
    if |fs| == 0 then [] else Expanded(fs[..|fs| - 1], numText) + Contribution(fs[|fs| - 1], numText)
  }

  lemma {:induction false} SetAbsent(ps: SearchParams, name: string, v: string)
    requires forall p :: p in ps ==> p.0 != name
    ensures SetParam(ps, name, v) == ps + [(name, v)]
  {
    if |ps| > 0 {
      assert ps[0] in ps;
      assert forall p :: p in ps[1..] ==> p in ps;
      SetAbsent(ps[1..], name, v);
    }
  }

  lemma {:induction false} ExpandedNames(fs: Filters, numText: real -> string)
    ensures forall p :: p in Expanded(fs, numText) ==> p.0 in Keys(fs)
  {
    if |fs| > 0 {
      var last := fs[|fs| - 1];
      ExpandedNames(fs[..|fs| - 1], numText);
      KeysSnoc(fs);
    }
  }

  lemma AddFilterFresh(acc: SearchParams, f: (string, JsVal), numText: real -> string)
    requires forall p :: p in acc ==> p.0 != f.0
    ensures AddFilter(acc, f, numText) == acc + Contribution(f, numText)
  {
    match f.1
    case JList(xs) =>
    case JText(t) => SetAbsent(acc, f.0, t);
    case JNum(r) => SetAbsent(acc, f.0, numText(r));
  }

  lemma LastKeyFresh(fs: Filters)
    requires UniqueKeys(fs) && |fs| > 0
    ensures fs[|fs| - 1].0 !in Keys(fs[..|fs| - 1])
  {
    var init := fs[..|fs| - 1];
    forall i | 0 <= i < |init| ensures Keys(init)[i] != fs[|fs| - 1].0 {
      assert init[i] == fs[i];
    }
  }

  lemma AccumulatedFresh(ps: SearchParams, init: Filters, k: string, numText: real -> string)
    requires k !in Keys(init) && StartsWith(k, "cfs_")
    ensures forall p :: p in NonCfs(ps) + Expanded(init, numText) ==> p.0 != k
  {
    ExpandedNames(init, numText);
  }

  /**
   * With filter names that are distinct and all start with `cfs_` (as control
   * names do), the new query is the old non-`cfs_` pairs, untouched and in
   * order, followed by one pair per scalar filter and one per array element.
   */
  lemma {:induction false} UpdatedQueryShape(ps: SearchParams, fs: Filters, numText: real -> string)
    requires UniqueKeys(fs)
    requires forall i :: 0 <= i < |fs| ==> StartsWith(fs[i].0, "cfs_")
    ensures UpdatedQuery(ps, fs, numText) == NonCfs(ps) + Expanded(fs, numText)
  {
    if |fs| > 0 {
      var init := fs[..|fs| - 1];
      var last := fs[|fs| - 1];
      assert UniqueKeys(init);
      UpdatedQueryShape(ps, init, numText);
      LastKeyFresh(fs);
      assert fs == init + [last];
      ShapeStep(ps, init, last, numText);
    }
  }

  lemma ShapeStep(ps: SearchParams, init: Filters, last: (string, JsVal), numText: real -> string)
    requires last.0 !in Keys(init) && StartsWith(last.0, "cfs_")
    requires UpdatedQuery(ps, init, numText) == NonCfs(ps) + Expanded(init, numText)
    ensures UpdatedQuery(ps, init + [last], numText) == NonCfs(ps) + Expanded(init + [last], numText)
  {
    UnfoldLast(ps, init, last, numText);
    AppendFresh(ps, init, last, numText);
    AppendAssoc(NonCfs(ps), Expanded(init, numText), Contribution(last, numText));
  }

  lemma UnfoldLast(ps: SearchParams, init: Filters, last: (string, JsVal), numText: real -> string)
    ensures UpdatedQuery(ps, init + [last], numText) == AddFilter(UpdatedQuery(ps, init, numText), last, numText)
    ensures Expanded(init + [last], numText) == Expanded(init, numText) + Contribution(last, numText)
  {
    var fs := init + [last];
    assert fs[..|fs| - 1] == init;
  }

  lemma AppendAssoc(a: SearchParams, b: SearchParams, c: SearchParams)
    ensures (a + b) + c == a + (b + c)
  {
  }

  /** A filter whose name is new adds its contribution at the end. */
  lemma AppendFresh(ps: SearchParams, init: Filters, last: (string, JsVal), numText: real -> string)
    requires last.0 !in Keys(init) && StartsWith(last.0, "cfs_")
    ensures AddFilter(NonCfs(ps) + Expanded(init, numText), last, numText)
      == NonCfs(ps) + Expanded(init, numText) + Contribution(last, numText)
  {
    AccumulatedFresh(ps, init, last.0, numText);
    AddFilterFresh(NonCfs(ps) + Expanded(init, numText), last, numText);
  }

  // ---------------------------------------------------------------------
  // The page: result grids and containers
  // ---------------------------------------------------------------------

  /** An element of the page. */
  type Node = nat

  /** The jQuery lookups the controller makes, as functions of the page. */
  datatype Dom = Dom(
    select: string -> seq<Node>,            // $(selector), in document order
    validSelector: string -> bool,          // false when $(selector) throws
    attr: (Node, string) -> string,         // $el.attr(name), "" when absent
    data: (Node, string) -> string,         // $el.data(name), "" when absent
    hasClass: (Node, string) -> bool,
    find: (seq<Node>, string) -> seq<Node>, // $set.find(selector), in document order
    children: seq<Node> -> seq<Node>)       // $set.children()

  /** JavaScript `a || b` on strings. */
  function Or(a: string, b: string): string
  {
    if a != "" then a else b
  }

  /** `.first()`. */
  function First(xs: seq<Node>): (r: seq<Node>)
    ensures |r| == if |xs| == 0 then 0 else 1
    ensures |xs| > 0 ==> r[0] == xs[0]
  {
    if |xs| == 0 then [] else [xs[0]]
  }

  /** A detection candidate: the id a pass computes for an element ("" when it skips it) and the element. */
  type Candidate = (string, Node)

  const WrapperSelector := ".cfs-results-wrapper"
  const BricksSelector := "[data-query-loop-id], .brxe-loop, .brxe-posts"
  const LoopContentSelector := ".elementor-loop-container, .elementor-posts-container, .elementor-grid, .e-loop-item, .elementor-widget-loop-grid"
  const CommonSelectors: seq<string> :=
    [".jet-listing-grid", ".wpgb-grid-wrapper", "[data-loop-grid]", ".elementor-posts",
     ".elementor-loop-container", ".cfs-bricks-results-wrapper"]

  /** Pass 1: a results wrapper is known by its `data-grid-id`, else its `id`. */
  function WrapperCandidates(dom: Dom): seq<Candidate>
  {
    var els := dom.select(WrapperSelector);
    seq(|els|, i requires 0 <= i < |els| => (Or(dom.data(els[i], "grid-id"), dom.attr(els[i], "id")), els[i]))
  }

  /** An Elementor element holding a loop or posts container, or being such a widget itself. */
  predicate LoopLike(dom: Dom, el: Node)
  {
    |dom.find([el], LoopContentSelector)| > 0
    || dom.hasClass(el, "elementor-widget-loop-grid") || dom.hasClass(el, "elementor-widget-posts")
  }

  /** Pass 2: a `[data-id]` element is a candidate under that id when it is loop-like. */
  function ElementorCandidates(dom: Dom): seq<Candidate>
  {
    var els := dom.select("[data-id]");
    seq(|els|, i requires 0 <= i < |els| => (if LoopLike(dom, els[i]) then dom.data(els[i], "id") else "", els[i]))
  }

  /** Pass 3: Bricks loops, known by `data-query-loop-id`, else `id`, else `bricks-grid-<index>`. */
  function BricksCandidates(dom: Dom): seq<Candidate>
  {
    var els := dom.select(BricksSelector);
    seq(|els|, i requires 0 <= i < |els| =>
      (Or(Or(dom.attr(els[i], "data-query-loop-id"), dom.attr(els[i], "id")), "bricks-grid-" + DecimalText(i)), els[i]))
  }

  /** Pass 4, one selector: known by `id`, else `data-id`, else `grid-<index within the selector>`. */
  function SelectorCandidates(dom: Dom, sel: string): seq<Candidate>
  {
    var els := dom.select(sel);
    seq(|els|, i requires 0 <= i < |els| =>
      (Or(Or(dom.attr(els[i], "id"), dom.data(els[i], "id")), "grid-" + DecimalText(i)), els[i]))
  }

  function CommonCandidates(dom: Dom, sels: seq<string>): seq<Candidate>
  {
    if |sels| == 0 then [] else CommonCandidates(dom, sels[..|sels| - 1]) + SelectorCandidates(dom, sels[|sels| - 1])
  }

  /** Pass 1 registers with plain assignment: a later wrapper with the same id replaces an earlier one. */
  function Overwrite(m: map<string, Node>, cs: seq<Candidate>): map<string, Node>
  {
    if |cs| == 0 then m
    else
      var before := Overwrite(m, cs[..|cs| - 1]);
      var (id, el) := cs[|cs| - 1];
      if id != "" then before[id := el] else before
  }

  /** Passes 2 to 4 register an id only when it is not registered yet. */
  function FirstWins(m: map<string, Node>, cs: seq<Candidate>): map<string, Node>
  {
    if |cs| == 0 then m
    else
      var before := FirstWins(m, cs[..|cs| - 1]);
      var (id, el) := cs[|cs| - 1];
      if id != "" && id !in before then before[id := el] else before
  }

  /** `detectGrids`: the registry after the four passes. */
  function DetectedGrids(dom: Dom): map<string, Node>
  {
    var m1 := Overwrite(map[], WrapperCandidates(dom));
    var m2 := FirstWins(m1, ElementorCandidates(dom));
    var m3 := FirstWins(m2, BricksCandidates(dom));
    FirstWins(m3, CommonCandidates(dom, CommonSelectors))
  }

  /** The element of the first candidate with that id, scanning from the front. */
  function FirstWith(cs: seq<Candidate>, id: string): Option<Node>
  {
    if |cs| == 0 then None else if cs[0].0 == id then Some(cs[0].1) else FirstWith(cs[1..], id)
  }

  /** The element of the last candidate with that id, scanning from the back. */
  function LastWith(cs: seq<Candidate>, id: string): Option<Node>
  {
    if |cs| == 0 then None
    else if cs[|cs| - 1].0 == id then Some(cs[|cs| - 1].1)
    else LastWith(cs[..|cs| - 1], id)
  }

  lemma {:induction false} FirstWithSnoc(cs: seq<Candidate>, c: Candidate, id: string)
    ensures FirstWith(cs + [c], id) == if FirstWith(cs, id).Some? then FirstWith(cs, id) else if c.0 == id then Some(c.1) else None
  {
    if |cs| > 0 {
      assert (cs + [c])[1..] == cs[1..] + [c];
      FirstWithSnoc(cs[1..], c, id);
    } else {
      assert cs + [c] == [c];
    }
  }

  lemma {:induction false} FirstWinsAppend(m: map<string, Node>, a: seq<Candidate>, b: seq<Candidate>)
    ensures FirstWins(m, a + b) == FirstWins(FirstWins(m, a), b)
  {
    if |b| == 0 {
      assert a + b == a;
    } else {
      assert (a + b)[..|a + b| - 1] == a + b[..|b| - 1];
      FirstWinsAppend(m, a, b[..|b| - 1]);
    }
  }

  /** A first-wins pass never changes an id already registered. */
  lemma {:induction false} FirstWinsKeeps(m: map<string, Node>, cs: seq<Candidate>)
    ensures forall id :: id in m ==> id in FirstWins(m, cs) && FirstWins(m, cs)[id] == m[id]
  {
    if |cs| > 0 {
      FirstWinsKeeps(m, cs[..|cs| - 1]);
    }
  }

  /** An id new to a first-wins pass goes to the first candidate carrying it. */
  lemma {:induction false} FirstWinsTakesFirst(m: map<string, Node>, cs: seq<Candidate>, id: string)
    requires id != "" && id !in m
    ensures id in FirstWins(m, cs) <==> FirstWith(cs, id).Some?
    ensures id in FirstWins(m, cs) ==> FirstWins(m, cs)[id] == FirstWith(cs, id).value
  {
    if |cs| > 0 {
      var init := cs[..|cs| - 1];
      FirstWinsTakesFirst(m, init, id);
      FirstWithSnoc(init, cs[|cs| - 1], id);
      assert init + [cs[|cs| - 1]] == cs;
    }
  }

  /** In the wrapper pass an id goes to the last wrapper carrying it. */
  lemma {:induction false} OverwriteTakesLast(m: map<string, Node>, cs: seq<Candidate>, id: string)
    requires id != ""
    ensures LastWith(cs, id).Some? ==> id in Overwrite(m, cs) && Overwrite(m, cs)[id] == LastWith(cs, id).value
    ensures LastWith(cs, id).None? ==> (id in Overwrite(m, cs) <==> id in m)
    ensures LastWith(cs, id).None? && id in m ==> Overwrite(m, cs)[id] == m[id]
  {
    if |cs| > 0 {
      OverwriteTakesLast(m, cs[..|cs| - 1], id);
    }
  }

  /**
   * `detectGrids` is first-wins across passes: an id found by a results
   * wrapper, an Elementor loop or a Bricks loop keeps the element of the
   * earliest pass that found it, and a wrapper id keeps the last wrapper
   * carrying it.
   */
  lemma DetectGridsFirstWins(dom: Dom)
    ensures var m1 := Overwrite(map[], WrapperCandidates(dom));
            var m2 := FirstWins(m1, ElementorCandidates(dom));
            var m3 := FirstWins(m2, BricksCandidates(dom));
            && (forall id :: id in m1 ==> id in DetectedGrids(dom) && DetectedGrids(dom)[id] == m1[id])
            && (forall id :: id in m2 ==> id in DetectedGrids(dom) && DetectedGrids(dom)[id] == m2[id])
            && (forall id :: id in m3 ==> id in DetectedGrids(dom) && DetectedGrids(dom)[id] == m3[id])
    ensures forall id :: id != "" && LastWith(WrapperCandidates(dom), id).Some? ==>
              id in DetectedGrids(dom) && DetectedGrids(dom)[id] == LastWith(WrapperCandidates(dom), id).value
  {
    var m1 := Overwrite(map[], WrapperCandidates(dom));
    var m2 := FirstWins(m1, ElementorCandidates(dom));
    var m3 := FirstWins(m2, BricksCandidates(dom));
    FirstWinsKeeps(m1, ElementorCandidates(dom));
    FirstWinsKeeps(m2, BricksCandidates(dom));
    FirstWinsKeeps(m3, CommonCandidates(dom, CommonSelectors));
    forall id | id != "" && LastWith(WrapperCandidates(dom), id).Some?
      ensures id in m1 && m1[id] == LastWith(WrapperCandidates(dom), id).value
    {
      OverwriteTakesLast(map[], WrapperCandidates(dom), id);
    }
  }

  /** The element a facet's explicit target is looked up in, attempt by attempt. */
  function CssAttempt(dom: Dom, target: string): seq<Node>
  {
    var sel := if StartsWith(target, ".") || StartsWith(target, "#") then target else "#" + target;
    if dom.validSelector(sel) then dom.select(sel) else []
  }

  /** `$(selector)` outside a `try` block: `None` when jQuery throws on the selector. */
  function Lookup(dom: Dom, sel: string): Option<seq<Node>>
  {
    if dom.validSelector(sel) then Some(dom.select(sel)) else None
  }

  /**
   * The lookups of `getTargetGrid` after the registry, in order. The first
   * four are unguarded; only the last, the CSS attempt, catches the exception.
   */
  function SelectorAttempts(dom: Dom, t: string): seq<Option<seq<Node>>>
  {
    [ Lookup(dom, "[data-id=\"" + t + "\"]"),
      Lookup(dom, "#elementor-element-" + t + ", .elementor-element-" + t),
      Lookup(dom, "[data-bricks-id=\"" + t + "\"], #brxe-" + t + ", .brxe-" + t),
      Lookup(dom, "[data-query-loop-id=\"" + t + "\"]"),
      Some(CssAttempt(dom, t)) ]
  }

  /** Every attempt before position `k` ran and found nothing. */
  predicate NothingBefore(attempts: seq<Option<seq<Node>>>, k: int)
    requires 0 <= k <= |attempts|
  {
    forall j :: 0 <= j < k ==> attempts[j] == Some([])
  }

  /**
   * The first non-empty lookup, or the fallback when every lookup found
   * nothing; a lookup that throws ends the search with the exception (`None`).
   */
  function FirstHit(attempts: seq<Option<seq<Node>>>, fallback: seq<Node>): (r: Option<seq<Node>>)
    ensures r.None? <==> exists k :: 0 <= k < |attempts| && attempts[k].None? && NothingBefore(attempts, k)
    ensures r.Some? ==>
      (exists k :: 0 <= k < |attempts| && attempts[k] == r && |r.value| > 0 && NothingBefore(attempts, k)) ||
      (r == Some(fallback) && NothingBefore(attempts, |attempts|))
  {
    if |attempts| == 0 then Some(fallback)
    else if attempts[0].None? then None
    else if |attempts[0].value| > 0 then attempts[0]
    else
      var rest := FirstHit(attempts[1..], fallback);
      assert forall k :: 0 <= k < |attempts[1..]| ==> attempts[1..][k] == attempts[k + 1];
      assert forall k :: 0 < k <= |attempts| && NothingBefore(attempts, k) ==> NothingBefore(attempts[1..], k - 1);
      assert forall k :: 0 <= k < |attempts[1..]| && NothingBefore(attempts[1..], k) ==> NothingBefore(attempts, k + 1);
      rest
  }

  /** The first results wrapper of the page. */
  function DefaultGrid(dom: Dom): seq<Node>
  {
    First(dom.select(".cfs-results-wrapper, .cfs-bricks-results-wrapper"))
  }

  // ---------------------------------------------------------------------
  // Results container
  // ---------------------------------------------------------------------

  const ContainerSelectors: seq<string> :=
    [".cfs-results", ".elementor-loop-container", ".elementor-posts-container", ".elementor-grid",
     ".brxe-loop", ".brxe-posts", "[data-query-loop-id]", ".jet-listing-grid__items", ".wpgb-grid",
     ".e-loop-items", "[data-elementor-type=\"loop-item\"]"]

  /** `$set.hasClass(c)`: some element of the set has the class. */
  predicate AnyHasClass(dom: Dom, w: seq<Node>, c: string)
  {
    exists i :: 0 <= i < |w| && dom.hasClass(w[i], c)
  }

  /** What `findResultsContainer` falls back to when no selector matches. */
  function ContainerFallback(dom: Dom, w: seq<Node>): seq<Node>
  {
    if AnyHasClass(dom, w, "cfs-results") || AnyHasClass(dom, w, "elementor-loop-container")
       || AnyHasClass(dom, w, "elementor-posts-container")
    then w
    else
      var child := First(dom.children(w));
      if |child| > 0 && |dom.children(child)| > 0 then child else w
  }

  function FirstFound(dom: Dom, w: seq<Node>, sels: seq<string>): Option<seq<Node>>
  {
    if |sels| == 0 then None
    else if |dom.find(w, sels[0])| > 0 then Some(First(dom.find(w, sels[0])))
    else FirstFound(dom, w, sels[1..])
  }

  /** `findResultsContainer($wrapper)`: None stands for `null`. */
  function ResultsContainer(dom: Dom, w: seq<Node>): (r: Option<seq<Node>>)
    ensures r.None? <==> |w| == 0
  {
    if |w| == 0 then None
    else
      var found := FirstFound(dom, w, ContainerSelectors);
      if found.Some? then found else Some(ContainerFallback(dom, w))
  }

  lemma {:induction false} FirstFoundAt(dom: Dom, w: seq<Node>, sels: seq<string>, i: nat)
    requires i < |sels| && |dom.find(w, sels[i])| > 0
    requires forall j :: 0 <= j < i ==> dom.find(w, sels[j]) == []
    ensures FirstFound(dom, w, sels) == Some([dom.find(w, sels[i])[0]])
  {
    if i > 0 {
      assert dom.find(w, sels[0]) == [];
      FirstFoundAt(dom, w, sels[1..], i - 1);
    }
  }

  lemma {:induction false} FirstFoundNone(dom: Dom, w: seq<Node>, sels: seq<string>)
    requires forall j :: 0 <= j < |sels| ==> dom.find(w, sels[j]) == []
    ensures FirstFound(dom, w, sels) == None
  {
    if |sels| > 0 {
      assert dom.find(w, sels[0]) == [];
      FirstFoundNone(dom, w, sels[1..]);
    }
  }

  /**
   * Container priority: the first element matched by the earliest selector of
   * the list that matches anything; with no match, the wrapper itself when it
   * carries a container class, else its first child when that child has
   * children, else the wrapper.
   */
  lemma ResultsContainerPriority(dom: Dom, w: seq<Node>)
    requires |w| > 0
    ensures forall i :: 0 <= i < |ContainerSelectors| && |dom.find(w, ContainerSelectors[i])| > 0
                        && (forall j :: 0 <= j < i ==> dom.find(w, ContainerSelectors[j]) == [])
                        ==> ResultsContainer(dom, w) == Some([dom.find(w, ContainerSelectors[i])[0]])
    ensures (forall j :: 0 <= j < |ContainerSelectors| ==> dom.find(w, ContainerSelectors[j]) == [])
            ==> ResultsContainer(dom, w) == Some(ContainerFallback(dom, w))
  {
    forall i | 0 <= i < |ContainerSelectors| && |dom.find(w, ContainerSelectors[i])| > 0
               && (forall j :: 0 <= j < i ==> dom.find(w, ContainerSelectors[j]) == [])
      ensures ResultsContainer(dom, w) == Some([dom.find(w, ContainerSelectors[i])[0]])
    {
      FirstFoundAt(dom, w, ContainerSelectors, i);
    }
    if forall j :: 0 <= j < |ContainerSelectors| ==> dom.find(w, ContainerSelectors[j]) == [] {
      FirstFoundNone(dom, w, ContainerSelectors);
    }
  }

  /** `findResultsContainer`, with its loop over the selector list. */
  method FindResultsContainer(dom: Dom, w: seq<Node>) returns (r: Option<seq<Node>>)
    ensures r == ResultsContainer(dom, w)
  {
    if |w| == 0 {
      return None;
    }
    var i := 0;
    while i < |ContainerSelectors|
      invariant 0 <= i <= |ContainerSelectors|
      invariant FirstFound(dom, w, ContainerSelectors) == FirstFound(dom, w, ContainerSelectors[i..])
    {
      var found := dom.find(w, ContainerSelectors[i]);
      if |found| > 0 {
        return Some(First(found));
      }
      assert ContainerSelectors[i..][1..] == ContainerSelectors[i + 1..];
      i := i + 1;
    }
    r := Some(ContainerFallback(dom, w));
  }

  // ---------------------------------------------------------------------
  // The request guard
  // ---------------------------------------------------------------------

  /** What can happen to the controller: a filter call (with or without a wrapper), a load-more click, a request completing. */
  datatype Event = FilterCall(hasWrapper: bool) | LoadMoreCall | Completed

  /** The guard as a transition: the new `isLoading` and whether a request was sent. */
  function GuardStep(loading: bool, e: Event): (bool, bool)
  {
    match e
    case FilterCall(hasWrapper) => if loading || !hasWrapper then (loading, false) else (true, true)
    case LoadMoreCall => if loading then (loading, false) else (true, true)
    case Completed => (false, false)
  }

  /** `isLoading` and the number of requests sent and not yet completed after a run of events. */
  function Replay(events: seq<Event>): (bool, int)
  {
    if |events| == 0 then (false, 0)
    else
      var (loading, inFlight) := Replay(events[..|events| - 1]);
      var e := events[|events| - 1];
      var (next, sent) := GuardStep(loading, e);
      (next, if sent then inFlight + 1 else if e.Completed? then inFlight - 1 else inFlight)
  }

  /** Completions come only from requests that were sent. */
  ghost predicate Causal(events: seq<Event>)
  {
    forall i :: 0 <= i < |events| && events[i].Completed? ==> Replay(events[..i]).1 > 0
  }

  /** The flag tells exactly whether a request is in flight, so there is never more than one. */
  lemma {:induction false} AtMostOneInFlight(events: seq<Event>)
    requires Causal(events)
    ensures Replay(events).1 == if Replay(events).0 then 1 else 0
  {
    if |events| > 0 {
      var init := events[..|events| - 1];
      assert Causal(init) by {
        forall i | 0 <= i < |init| && init[i].Completed? ensures Replay(init[..i]).1 > 0 {
          assert init[..i] == events[..i];
        }
      }
      AtMostOneInFlight(init);
      assert events[..|events| - 1] == init;
    }
  }

  /** After a load-more response, the button's next page: `page + 1` while more remain, none once it is removed. */
  function LoadMoreNext(page: int, hasMore: bool): (r: Option<int>)
    ensures r.Some? <==> hasMore
    ensures r.Some? ==> r.value == page + 1
  {
    if hasMore then Some(page + 1) else None
  }

  /** The sort dropdown's value split at '-' as `[orderby, order] = val.split('-')`; a missing part is "". */
  function SplitSort(v: string): (r: (string, string))
    ensures '-' !in r.0 && '-' !in r.1
    ensures '-' !in v ==> r == (v, "")
    ensures r.0 <= v && (|r.0| < |v| ==> v[|r.0|] == '-')
    ensures |r.0| < |v| ==> r.1 <= v[|r.0| + 1..]
    ensures |r.0| + 1 + |r.1| < |v| ==> v[|r.0| + 1 + |r.1|] == '-'
    ensures |r.0| == |v| ==> r.1 == ""
  {
    var i := IndexOfDash(v);
    if i == |v| then (v, "")
    else
      var rest := v[i + 1..];
      (v[..i], rest[..IndexOfDash(rest)])
  }

  function IndexOfDash(s: string): (i: nat)
    ensures i <= |s| && '-' !in s[..i]
    ensures i < |s| ==> s[i] == '-'
  {
    if |s| == 0 || s[0] == '-' then 0
    else
      var j := IndexOfDash(s[1..]);
      assert s[..j + 1] == [s[0]] + s[1..][..j];
      j + 1
  }

  /** The data of the filter request `doAjaxFilter` posts. */
  datatype FilterRequest = FilterRequest(
    gridId: string, postType: string, postsPerPage: string, paged: int,
    template: string, orderby: string, order: string, filters: Filters)

  /** The request built for a wrapper: grid id from `data-grid-id`, `id` or `data-id`; page 1 when none is given. */
  function FilterRequestFor(dom: Dom, w: Node, page: Option<int>, facets: seq<FacetElem>, sortVal: string): (r: FilterRequest)
    ensures r.paged == if page.Some? && page.value != 0 then page.value else 1
    ensures r.filters == Gather(facets, r.gridId)
    ensures r.postType != "" && r.postsPerPage != ""
  {
    var gridId := Or(Or(dom.data(w, "grid-id"), dom.attr(w, "id")), dom.data(w, "id"));
    var (orderby, order) := SplitSort(Or(sortVal, "date-DESC"));
    FilterRequest(gridId, Or(dom.data(w, "post-type"), "post"), Or(dom.data(w, "posts-per-page"), "12"),
                  if page.Some? && page.value != 0 then page.value else 1,
                  dom.data(w, "template"), orderby, order, Gather(facets, gridId))
  }

  /** The grid id `loadMore` gathers for: `data-grid-id`, else `id` (it does not look at `data-id`). */
  function LoadMoreGridId(dom: Dom, w: Node): string
  {
    Or(dom.data(w, "grid-id"), dom.attr(w, "id"))
  }

  // ---------------------------------------------------------------------
  // The controller object
  // ---------------------------------------------------------------------

  /** The `CFS` object: its grid registry and its loading flag. */
  class Controller {
    var grids: map<string, Node>
    var isLoading: bool

    constructor()
      ensures grids == map[] && !isLoading
    {
      grids := map[];
      isLoading := false;
    }

    /** `detectGrids`: four passes over the page filling the registry. */
    method DetectGrids(dom: Dom)
      modifies this
      ensures grids == DetectedGrids(dom)
      ensures isLoading == old(isLoading)
    {
      grids := map[];
      RegisterWrappers(dom);
      RegisterElementor(dom);
      RegisterBricks(dom);
      var m3 := grids;
      var s := 0;
      while s < |CommonSelectors|
        invariant 0 <= s <= |CommonSelectors|
        invariant grids == FirstWins(m3, CommonCandidates(dom, CommonSelectors[..s]))
        invariant isLoading == old(isLoading)
      {
        RegisterSelector(dom, CommonSelectors[s]);
        assert CommonSelectors[..s + 1][..s] == CommonSelectors[..s];
        FirstWinsAppend(m3, CommonCandidates(dom, CommonSelectors[..s]), SelectorCandidates(dom, CommonSelectors[s]));
        s := s + 1;
      }
      assert CommonSelectors[..|CommonSelectors|] == CommonSelectors;
    }

    /** The first pass: results wrappers, by assignment. */
    method RegisterWrappers(dom: Dom)
      modifies this
      ensures grids == Overwrite(old(grids), WrapperCandidates(dom))
      ensures isLoading == old(isLoading)
    {
      var m0 := grids;
      var els := dom.select(WrapperSelector);
      var i := 0;
      while i < |els|
        invariant 0 <= i <= |els|
        invariant grids == Overwrite(m0, WrapperCandidates(dom)[..i])
        invariant isLoading == old(isLoading)
      {
        assert WrapperCandidates(dom)[..i + 1][..i] == WrapperCandidates(dom)[..i];
        var gridId := Or(dom.data(els[i], "grid-id"), dom.attr(els[i], "id"));
        if gridId != "" {
          grids := grids[gridId := els[i]];
        }
        i := i + 1;
      }
      assert WrapperCandidates(dom)[..|els|] == WrapperCandidates(dom);
    }

    /** The second pass: loop-like Elementor elements, first one wins. */
    method RegisterElementor(dom: Dom)
      modifies this
      ensures grids == FirstWins(old(grids), ElementorCandidates(dom))
      ensures isLoading == old(isLoading)
    {
      var m1 := grids;
      var els := dom.select("[data-id]");
      var i := 0;
      while i < |els|
        invariant 0 <= i <= |els|
        invariant grids == FirstWins(m1, ElementorCandidates(dom)[..i])
        invariant isLoading == old(isLoading)
      {
        assert ElementorCandidates(dom)[..i + 1][..i] == ElementorCandidates(dom)[..i];
        var elementorId := dom.data(els[i], "id");
        if elementorId != "" && elementorId !in grids && LoopLike(dom, els[i]) {
          grids := grids[elementorId := els[i]];
        }
        i := i + 1;
      }
      assert ElementorCandidates(dom)[..|els|] == ElementorCandidates(dom);
    }

    /** The third pass: Bricks loops, first one wins. */
    method RegisterBricks(dom: Dom)
      modifies this
      ensures grids == FirstWins(old(grids), BricksCandidates(dom))
      ensures isLoading == old(isLoading)
    {
      var m2 := grids;
      var els := dom.select(BricksSelector);
      var i := 0;
      while i < |els|
        invariant 0 <= i <= |els|
        invariant grids == FirstWins(m2, BricksCandidates(dom)[..i])
        invariant isLoading == old(isLoading)
      {
        assert BricksCandidates(dom)[..i + 1][..i] == BricksCandidates(dom)[..i];
        var bricksId := Or(Or(dom.attr(els[i], "data-query-loop-id"), dom.attr(els[i], "id")), "bricks-grid-" + DecimalText(i));
        if bricksId !in grids {
          grids := grids[bricksId := els[i]];
        }
        i := i + 1;
      }
      assert BricksCandidates(dom)[..|els|] == BricksCandidates(dom);
    }

    /** One selector of the last pass of `detectGrids`, first one wins. */
    method RegisterSelector(dom: Dom, sel: string)
      modifies this
      ensures grids == FirstWins(old(grids), SelectorCandidates(dom, sel))
      ensures isLoading == old(isLoading)
    {
      var m := grids;
      var els := dom.select(sel);
      var i := 0;
      while i < |els|
        invariant 0 <= i <= |els|
        invariant grids == FirstWins(m, SelectorCandidates(dom, sel)[..i])
        invariant isLoading == old(isLoading)
      {
        assert SelectorCandidates(dom, sel)[..i + 1][..i] == SelectorCandidates(dom, sel)[..i];
        var id := Or(Or(dom.attr(els[i], "id"), dom.data(els[i], "id")), "grid-" + DecimalText(i));
        if id !in grids {
          grids := grids[id := els[i]];
        }
        i := i + 1;
      }
      assert SelectorCandidates(dom, sel)[..|els|] == SelectorCandidates(dom, sel);
    }

    /**
     * `getTargetGrid($facet)`: the registry first, then the selector lookups,
     * else the first results wrapper. `None` when one of the unguarded
     * lookups throws, which ends `triggerFilter` before it filters.
     */
    function TargetGrid(dom: Dom, facet: Node): Option<seq<Node>>
      reads this
    {
      var t := dom.data(facet, "target-grid");
      var dataId := "[data-id=\"" + t + "\"]";
      var elementor := "#elementor-element-" + t + ", .elementor-element-" + t;
      var bricks := "[data-bricks-id=\"" + t + "\"], #brxe-" + t + ", .brxe-" + t;
      var loop := "[data-query-loop-id=\"" + t + "\"]";
      if t == "" then Some(DefaultGrid(dom))
      else if t in grids then Some([grids[t]])
      else if !dom.validSelector(dataId) then None
      else if |dom.select(dataId)| > 0 then Some(dom.select(dataId))
      else if !dom.validSelector(elementor) then None
      else if |dom.select(elementor)| > 0 then Some(dom.select(elementor))
      else if !dom.validSelector(bricks) then None
      else if |dom.select(bricks)| > 0 then Some(dom.select(bricks))
      else if !dom.validSelector(loop) then None
      else if |dom.select(loop)| > 0 then Some(dom.select(loop))
      else if |CssAttempt(dom, t)| > 0 then Some(CssAttempt(dom, t))
      else Some(DefaultGrid(dom))
    }

    /** `doAjaxFilter` up to sending: nothing while loading or without a wrapper, otherwise the flag goes up first. */
    method BeginFilter(dom: Dom, w: seq<Node>, page: Option<int>, facets: seq<FacetElem>, sortVal: string)
      returns (request: Option<FilterRequest>)
      modifies this
      ensures (isLoading, request.Some?) == GuardStep(old(isLoading), FilterCall(|w| > 0))
      ensures request.Some? ==> request.value == FilterRequestFor(dom, w[0], page, facets, sortVal)
      ensures grids == old(grids)
    {
      if isLoading || |w| == 0 {
        return None;
      }
      isLoading := true;
      request := Some(FilterRequestFor(dom, w[0], page, facets, sortVal));
    }

    /** `loadMore` up to sending: only the flag is checked. */
    method BeginLoadMore(dom: Dom, w: Node, facets: seq<FacetElem>) returns (filters: Option<Filters>)
      modifies this
      ensures (isLoading, filters.Some?) == GuardStep(old(isLoading), LoadMoreCall)
      ensures filters.Some? ==> filters.value == Gather(facets, LoadMoreGridId(dom, w))
      ensures grids == old(grids)
    {
      if isLoading {
        return None;
      }
      isLoading := true;
      filters := Some(Gather(facets, LoadMoreGridId(dom, w)));
    }

    /** The `complete` callback, run after success and after error alike. */
    method Complete()
      modifies this
      ensures (isLoading, false) == GuardStep(old(isLoading), Completed)
      ensures grids == old(grids)
    {
      isLoading := false;
    }
  }

  lemma FirstHitCons(x: Option<seq<Node>>, rest: seq<Option<seq<Node>>>, fallback: seq<Node>)
    ensures FirstHit([x] + rest, fallback) ==
      if x.None? then None else if |x.value| > 0 then x else FirstHit(rest, fallback)
  {
    assert ([x] + rest)[0] == x;
    assert ([x] + rest)[1..] == rest;
  }

  /**
   * `getTargetGrid` tries the registry and then the lookups in a fixed order
   * and falls back to the first wrapper; it throws when an unguarded lookup
   * throws before any lookup has found something.
   */
  lemma TargetGridOrder(c: Controller, dom: Dom, facet: Node)
    ensures var t := dom.data(facet, "target-grid");
            c.TargetGrid(dom, facet)
            == if t == "" then Some(DefaultGrid(dom))
               else FirstHit([Some(if t in c.grids then [c.grids[t]] else [])] + SelectorAttempts(dom, t), DefaultGrid(dom))
  {
    var t := dom.data(facet, "target-grid");
    if t != "" {
      var a := SelectorAttempts(dom, t);
      var fb := DefaultGrid(dom);
      assert a == [a[0]] + ([a[1]] + ([a[2]] + ([a[3]] + ([a[4]] + []))));
      FirstHitCons(a[4], [], fb);
      FirstHitCons(a[3], [a[4]] + [], fb);
      FirstHitCons(a[2], [a[3]] + ([a[4]] + []), fb);
      FirstHitCons(a[1], [a[2]] + ([a[3]] + ([a[4]] + [])), fb);
      FirstHitCons(a[0], [a[1]] + ([a[2]] + ([a[3]] + ([a[4]] + []))), fb);
      FirstHitCons(Some(if t in c.grids then [c.grids[t]] else []), a, fb);
    }
  }
}
