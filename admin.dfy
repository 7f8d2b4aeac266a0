/**
 * The administration side (CFS_Admin): the plugin settings sanitiser, the
 * facet save and delete handlers over the facets table, and the lists of
 * facet types, data sources and post types offered in the facet form.
 */
module Admin {
  import opened Php
  import opened Facets
  import opened Shortcodes
  import opened Ajax

  /** A value of a settings array as it is stored (JSON) and read back. */
  datatype SVal = SText(s: string) | SFlag(b: bool) | SNum(r: real) | SList(xs: seq<string>)

  type SettingsArray = seq<(string, SVal)>

  /** `isset($input[name])`: request values are never null, so present means set. */
  predicate IsSet(input: Params, name: string)
  {
    Get(input, name).Some?
  }

  // ---------------------------------------------------------------------
  // Plugin settings
  // ---------------------------------------------------------------------

  const SettingsKeys: seq<string> := ["enable_ajax", "ajax_url_update", "scroll_to_results", "loading_animation",
                                      "results_container", "pagination_type", "debug_mode"]

  /**
   * `sanitize_settings`: exactly the seven known keys in a fixed order, the
   * five flags true iff submitted, the two texts sanitised with their defaults.
   */
  function SanitizeSettings(input: Params, host: Host): (r: SettingsArray)
    ensures Keys(r) == SettingsKeys && UniqueKeys(r)
    ensures forall i :: 0 <= i < |r| && i != 4 && i != 5 ==> r[i].1 == SFlag(IsSet(input, SettingsKeys[i]))
    ensures r[4].1 == SText(PostedText(input, "results_container", ".cfs-results", host))
    ensures r[5].1 == SText(PostedText(input, "pagination_type", "standard", host))
  {
    SettingsKeysDistinct();
    seq(|SettingsKeys|, i requires 0 <= i < |SettingsKeys| =>
      var k := SettingsKeys[i];
      (k, if k == "results_container" then SText(PostedText(input, k, ".cfs-results", host))
          else if k == "pagination_type" then SText(PostedText(input, k, "standard", host))
          else SFlag(IsSet(input, k))))
  }

  lemma SettingsKeysDistinct()
    ensures Distinct(SettingsKeys)
    ensures SettingsKeys[4] == "results_container" && SettingsKeys[5] == "pagination_type"
  {
    forall i, j | 0 <= i < j < |SettingsKeys| ensures SettingsKeys[i] != SettingsKeys[j] {
      assert SettingsKeys[i][0] != SettingsKeys[j][0] || |SettingsKeys[i]| != |SettingsKeys[j]|;
    }
  }

  /** `$settings['pagination_type']` as the AJAX pager reads it (a missing or non-text value counts as absent). */
  function TextAt(a: SettingsArray, k: string): Option<string>
  {
    match Get(a, k)
    case Some(v) => if v.SText? then Some(v.s) else None
    case None => None
  }

  /**
   * Saving the settings form without choosing a pagination type stores
   * "standard", and the AJAX handler then renders the numbered pager.
   */
  lemma UnsetPaginationTypeIsStandard(input: Params, host: Host, paged: nat, total: int)
    requires !IsSet(input, "pagination_type") && host.sanitizeText("standard") == "standard" && total > 1
    ensures TextAt(SanitizeSettings(input, host), "pagination_type") == Some("standard")
    ensures AjaxPagination(TextAt(SanitizeSettings(input, host), "pagination_type"), paged, total)
            == Some(StandardPager(Pagination(paged, total).value))
  {
    var r := SanitizeSettings(input, host);
    GetUnique(r, 5);
  }

  /** The keys of a concatenation. */
  lemma KeysAppend<V>(a: seq<(string, V)>, b: seq<(string, V)>)
    ensures Keys(a + b) == Keys(a) + Keys(b)
  {
  }

  /** No string occurs twice. */
  predicate Distinct(ks: seq<string>)
  {
    forall i, j :: 0 <= i < j < |ks| ==> ks[i] != ks[j]
  }

  // ---------------------------------------------------------------------
  // Facet settings built by the save handler
  // ---------------------------------------------------------------------

  const BaseKeys: seq<string> := ["post_types", "label", "placeholder", "show_count", "hide_empty", "multiple",
                                  "hierarchical", "orderby", "order", "data_type"]
  const RangeKeys: seq<string> := ["min", "max", "step", "prefix", "suffix", "format", "inputs_enabled"]
  const DateKeys: seq<string> := ["date_format", "date_type"]

  /** `floatval($_POST[name] ?? default)`. */
  function PostedFloat(post: Params, name: string, default: real, host: Host): real
  {
    match Get(post, name)
    case Some(v) => FloatOf(v, host)
    case None => default
  }

  /** `array_map('sanitize_text_field', $_POST['post_types'] ?? [])`; a scalar makes `array_map` throw. */
  function PostedPostTypes(post: Params, host: Host): (r: Outcome<seq<string>>)
    ensures r.Fatal? <==> Get(post, "post_types").Some? && Get(post, "post_types").value.Str?
  {
    match Get(post, "post_types")
    case None => Ok([])
    case Some(v) => if v.List? then Ok(SanitizedList(v, host)) else Fatal
  }

  /** The facet name: `sanitize_text_field($_POST['name'] ?? '')`. */
  function NameOf(post: Params, host: Host): string
  {
    PostedText(post, "name", "", host)
  }

  /** The settings every facet gets, in the order the array literal lists them. */
  function BaseSettings(post: Params, postTypes: seq<string>, host: Host): SettingsArray
  {
    [("post_types", SList(postTypes)),
     ("label", SText(PostedText(post, "label", NameOf(post, host), host))),
     ("placeholder", SText(PostedText(post, "placeholder", "", host))),
     ("show_count", SFlag(IsSet(post, "show_count"))),
     ("hide_empty", SFlag(IsSet(post, "hide_empty"))),
     ("multiple", SFlag(IsSet(post, "multiple"))),
     ("hierarchical", SFlag(IsSet(post, "hierarchical"))),
     ("orderby", SText(PostedText(post, "orderby", "name", host))),
     ("order", SText(PostedText(post, "order", "ASC", host))),
     ("data_type", SText(PostedText(post, "data_type", "auto", host)))]
  }

  /** The settings a range facet gets on top. */
  function RangeSettings(post: Params, host: Host): SettingsArray
  {
    [("min", SNum(PostedFloat(post, "min", 0.0, host))),
     ("max", SNum(PostedFloat(post, "max", 100.0, host))),
     ("step", SNum(PostedFloat(post, "step", 1.0, host))),
     ("prefix", SText(PostedText(post, "prefix", "", host))),
     ("suffix", SText(PostedText(post, "suffix", "", host))),
     ("format", SText(PostedText(post, "format", "number", host))),
     ("inputs_enabled", SFlag(IsSet(post, "inputs_enabled")))]
  }

  /** The settings a date facet gets on top. */
  function DateSettings(post: Params, host: Host): SettingsArray
  {
    [("date_format", SText(PostedText(post, "date_format", "Y-m-d", host))),
     ("date_type", SText(PostedText(post, "date_type", "single", host)))]
  }

  /** The facet type: `sanitize_text_field($_POST['type'] ?? '')`. */
  function TypeOf(post: Params, host: Host): string
  {
    PostedText(post, "type", "", host)
  }

  lemma BaseKeysOf(post: Params, pts: seq<string>, host: Host)
    ensures Keys(BaseSettings(post, pts, host)) == BaseKeys
  {
  }

  lemma RangeKeysOf(post: Params, host: Host)
    ensures Keys(RangeSettings(post, host)) == RangeKeys
  {
  }

  lemma DateKeysOf(post: Params, host: Host)
    ensures Keys(DateSettings(post, host)) == DateKeys
  {
  }

  lemma KeyListsDistinct()
    ensures Distinct(BaseKeys + RangeKeys) && Distinct(BaseKeys + DateKeys) && Distinct(BaseKeys)
  {
  }

  /**
   * The settings array of `ajax_save_facet`, or the fatal error of a scalar
   * `post_types`.  Each extra `$settings[key] = ...` assigns a key the base
   * array does not have, so it appends.
   */
  function SettingsFor(post: Params, host: Host): Outcome<SettingsArray>
  {
    match PostedPostTypes(post, host)
    case Fatal => Fatal
    case Ok(pts) =>
      var t := TypeOf(post, host);
      Ok(BaseSettings(post, pts, host) + (if t == "range" then RangeSettings(post, host) else [])
         + (if t == "date" then DateSettings(post, host) else []))
  }

  /**
   * The base keys are always present, the range keys exactly for a range
   * facet and the date keys exactly for a date facet; no key appears twice.
   */
  lemma SettingsKeysByType(post: Params, host: Host)
    requires SettingsFor(post, host).Ok?
    ensures var t := TypeOf(post, host);
      Keys(SettingsFor(post, host).value)
        == BaseKeys + (if t == "range" then RangeKeys else []) + (if t == "date" then DateKeys else [])
    ensures UniqueKeys(SettingsFor(post, host).value)
  {
    var r := SettingsFor(post, host).value;
    var t := TypeOf(post, host);
    var base := BaseSettings(post, PostedPostTypes(post, host).value, host);
    BaseKeysOf(post, PostedPostTypes(post, host).value, host);
    KeyListsDistinct();
    if t == "range" {
      assert r == base + RangeSettings(post, host);
      KeysAppend(base, RangeSettings(post, host));
      RangeKeysOf(post, host);
      assert Keys(r) == BaseKeys + RangeKeys + [];
    } else if t == "date" {
      assert r == base + DateSettings(post, host);
      KeysAppend(base, DateSettings(post, host));
      DateKeysOf(post, host);
      assert Keys(r) == BaseKeys + [] + DateKeys;
    } else {
      assert r == base;
      assert Keys(r) == BaseKeys + [] + [];
    }
    DistinctKeysUnique(r);
  }

  /** Distinct keys make an array without repeated keys. */
  lemma DistinctKeysUnique<V>(m: seq<(string, V)>)
    requires Distinct(Keys(m))
    ensures UniqueKeys(m)
  {
  }

  // ---------------------------------------------------------------------
  // Reading the stored settings back
  // ---------------------------------------------------------------------

  function FlagAt(a: SettingsArray, k: string): Option<bool>
  {
    match Get(a, k)
    case Some(v) => if v.SFlag? then Some(v.b) else None
    case None => None
  }

  function NumAt(a: SettingsArray, k: string): Option<real>
  {
    match Get(a, k)
    case Some(v) => if v.SNum? then Some(v.r) else None
    case None => None
  }

  function ListAt(a: SettingsArray, k: string): Option<seq<string>>
  {
    match Get(a, k)
    case Some(v) => if v.SList? then Some(v.xs) else None
    case None => None
  }

  /** The `settings` column as the renderer sees it once `json_decode` has read it back. */
  function DecodeSettings(a: SettingsArray): Settings
  {
    Settings(TextAt(a, "label"), TextAt(a, "placeholder"), FlagAt(a, "show_count") == Some(true),
             FlagAt(a, "hide_empty"), FlagAt(a, "multiple") == Some(true), FlagAt(a, "hierarchical") == Some(true),
             TextAt(a, "orderby"), TextAt(a, "order"), TextAt(a, "data_type"), ListAt(a, "post_types"),
             NumAt(a, "min"), NumAt(a, "max"), NumAt(a, "step"), TextAt(a, "prefix"), TextAt(a, "suffix"),
             FlagAt(a, "inputs_enabled"), TextAt(a, "date_type"))
  }

  lemma {:induction false} GetAppendLeft<V>(a: seq<(string, V)>, b: seq<(string, V)>, k: string)
    requires Get(a, k).Some?
    ensures Get(a + b, k) == Get(a, k)
  {
    if a[0].0 != k {
      assert (a + b)[1..] == a[1..] + b;
      GetAppendLeft(a[1..], b, k);
    }
  }

  lemma {:induction false} GetAppendRight<V>(a: seq<(string, V)>, b: seq<(string, V)>, k: string)
    requires k !in Keys(a)
    ensures Get(a + b, k) == Get(b, k)
  {
    if |a| == 0 {
      assert a + b == b;
    } else {
      assert Keys(a)[0] == a[0].0;
      assert Keys(a) == [a[0].0] + Keys(a[1..]);
      assert (a + b)[1..] == a[1..] + b;
      GetAppendRight(a[1..], b, k);
    }
  }

  /** The stored settings are the base array followed by the type's extra keys. */
  lemma SettingsParts(post: Params, host: Host) returns (base: SettingsArray, extra: SettingsArray)
    requires SettingsFor(post, host).Ok?
    ensures SettingsFor(post, host).value == base + extra && UniqueKeys(base + extra)
    ensures base == BaseSettings(post, PostedPostTypes(post, host).value, host)
    ensures extra == if TypeOf(post, host) == "range" then RangeSettings(post, host)
                     else if TypeOf(post, host) == "date" then DateSettings(post, host) else []
  {
    base := BaseSettings(post, PostedPostTypes(post, host).value, host);
    var t := TypeOf(post, host);
    extra := if t == "range" then RangeSettings(post, host) else if t == "date" then DateSettings(post, host) else [];
    if t == "range" {
      assert SettingsFor(post, host).value == base + extra + [];
    } else if t == "date" {
      assert SettingsFor(post, host).value == base + [] + extra;
    } else {
      assert SettingsFor(post, host).value == base + [] + [];
    }
    SettingsKeysByType(post, host);
  }

  /**
   * What the admin saves for every facet is what the renderer reads: the
   * label (the name when none is posted), the flags as ticked, the post
   * types and the data type.
   */
  lemma SavedBaseReadBack(post: Params, host: Host)
    requires SettingsFor(post, host).Ok?
    ensures var s := DecodeSettings(SettingsFor(post, host).value);
      s.caption == Some(PostedText(post, "label", NameOf(post, host), host))
      && (s.showCount <==> IsSet(post, "show_count")) && s.hideEmpty == Some(IsSet(post, "hide_empty"))
      && (s.multiple <==> IsSet(post, "multiple"))
      && s.postTypes == Some(PostedPostTypes(post, host).value)
      && s.dataType == Some(PostedText(post, "data_type", "auto", host))
  {
    var base, extra := SettingsParts(post, host);
    var r := base + extra;
    GetUnique(r, 0);
    GetUnique(r, 1);
    GetUnique(r, 3);
    GetUnique(r, 4);
    GetUnique(r, 5);
    GetUnique(r, 9);
  }

  /**
   * A range facet stores its bounds and step (0, 100 and 1 when not posted)
   * and the manual-inputs flag.
   */
  lemma SavedRangeReadBack(post: Params, host: Host)
    requires SettingsFor(post, host).Ok? && TypeOf(post, host) == "range"
    ensures var s := DecodeSettings(SettingsFor(post, host).value);
      s.min == Some(PostedFloat(post, "min", 0.0, host))
      && s.max == Some(PostedFloat(post, "max", 100.0, host))
      && s.step == Some(PostedFloat(post, "step", 1.0, host))
      && s.inputsEnabled == Some(IsSet(post, "inputs_enabled"))
  {
    var base, extra := SettingsParts(post, host);
    var r := base + extra;
    assert r[10] == extra[0] && r[11] == extra[1] && r[12] == extra[2] && r[16] == extra[6];
    GetUnique(r, 10);
    GetUnique(r, 11);
    GetUnique(r, 12);
    GetUnique(r, 16);
  }

  /** Any other facet stores no bounds, so the range renderer's defaults would apply. */
  lemma OnlyRangeStoresBounds(post: Params, host: Host)
    requires SettingsFor(post, host).Ok? && TypeOf(post, host) != "range"
    ensures var s := DecodeSettings(SettingsFor(post, host).value);
      s.min.None? && s.max.None? && s.step.None?
  {
    var r := SettingsFor(post, host).value;
    SettingsKeysByType(post, host);
    var ks := BaseKeys + (if TypeOf(post, host) == "date" then DateKeys else []);
    assert Keys(r) == ks;
    MinMaxStepNotListed(TypeOf(post, host) == "date");
    AbsentKey(r, "min");
    AbsentKey(r, "max");
    AbsentKey(r, "step");
  }

  lemma MinMaxStepNotListed(date: bool)
    ensures var ks := BaseKeys + (if date then DateKeys else []);
      "min" !in ks && "max" !in ks && "step" !in ks
  {
  }

  lemma AbsentKey(a: SettingsArray, k: string)
    requires k !in Keys(a)
    ensures NumAt(a, k).None? && TextAt(a, k).None? && FlagAt(a, k).None?
  {
    GetSomeHasKey(a, k);
  }

  /** A date facet stores its mode (single when not posted); any other facet stores none. */
  lemma SavedDateReadBack(post: Params, host: Host)
    requires SettingsFor(post, host).Ok?
    ensures var s := DecodeSettings(SettingsFor(post, host).value);
      var t := TypeOf(post, host);
      (s.dateType.Some? <==> t == "date")
      && (t == "date" ==> s.dateType == Some(PostedText(post, "date_type", "single", host)))
  {
    if TypeOf(post, host) == "date" {
      SavedDateType(post, host);
    } else {
      NoDateTypeSaved(post, host);
    }
  }

  lemma SavedDateType(post: Params, host: Host)
    requires SettingsFor(post, host).Ok? && TypeOf(post, host) == "date"
    ensures DecodeSettings(SettingsFor(post, host).value).dateType == Some(PostedText(post, "date_type", "single", host))
  {
    var base, extra := SettingsParts(post, host);
    var r := base + extra;
    assert r[11] == extra[1];
    GetUnique(r, 11);
  }

  lemma NoDateTypeSaved(post: Params, host: Host)
    requires SettingsFor(post, host).Ok? && TypeOf(post, host) != "date"
    ensures DecodeSettings(SettingsFor(post, host).value).dateType.None?
  {
    var r := SettingsFor(post, host).value;
    SettingsKeysByType(post, host);
    DateTypeNotListed(TypeOf(post, host) == "range");
    AbsentKey(r, "date_type");
  }

  lemma DateTypeNotListed(range: bool)
    ensures "date_type" !in BaseKeys + (if range then RangeKeys else []) + []
  {
  }

  // ---------------------------------------------------------------------
  // The facets table
  // ---------------------------------------------------------------------

  /** The columns a save writes. */
  datatype FacetData = FacetData(name: string, slug: string, ftype: string, source: string, sourceKey: string,
                                 settings: SettingsArray)

  datatype TableRow = TableRow(id: int, data: FacetData)

  /** A stored row as the renderer loads it. */
  function AsFacet(row: TableRow): (f: Facet)
    ensures f.id == row.id && f.slug == row.data.slug && f.ftype == row.data.ftype
  {
    Facet(row.id, row.data.name, row.data.slug, row.data.ftype, row.data.source, row.data.sourceKey,
          DecodeSettings(row.data.settings))
  }

  /** The facets table: `id` AUTO_INCREMENT PRIMARY KEY, `slug` UNIQUE KEY. */
  class FacetTable {
    var rows: seq<TableRow>
    var nextId: int

    ghost predicate Valid()
      reads this
    {
      nextId >= 1
      && (forall i :: 0 <= i < |rows| ==> 1 <= rows[i].id < nextId)
      && (forall i, j :: 0 <= i < j < |rows| ==> rows[i].id != rows[j].id && rows[i].data.slug != rows[j].data.slug)
    }

    /** Some row other than `except` already uses the slug. */
    predicate SlugTaken(slug: string, except: int)
      reads this
    {
      exists i :: 0 <= i < |rows| && rows[i].data.slug == slug && rows[i].id != except
    }

    /** Some row has the id. */
    predicate HasId(id: int)
      reads this
    {
      exists i :: 0 <= i < |rows| && rows[i].id == id
    }

    constructor ()
      ensures Valid() && rows == [] && nextId == 1
    {
      rows := [];
      nextId := 1;
    }

    /**
     * `$wpdb->insert`: fails on a taken slug, otherwise appends a row under
     * the next id.  The AUTO_INCREMENT value is taken before the duplicate
     * key is detected (InnoDB), so a failed insert still uses it up.
     */
    method Insert(data: FacetData) returns (failed: bool, insertId: int)
      requires Valid()
      modifies this
      ensures Valid()
      ensures failed <==> old(SlugTaken(data.slug, 0))
      ensures nextId == old(nextId) + 1
      ensures failed ==> rows == old(rows)
      ensures !failed ==> insertId == old(nextId) && rows == old(rows) + [TableRow(old(nextId), data)]
    {
      failed := SlugTaken(data.slug, 0);
      if failed {
        insertId := 0;
        nextId := nextId + 1;
        return;
      }
      insertId := nextId;
      rows := rows + [TableRow(nextId, data)];
      nextId := nextId + 1;
    }

    /**
     * `$wpdb->update ... WHERE id = id`: fails when the row with that id
     * exists and another row has the slug; otherwise rewrites the row with
     * that id, if there is one.  Matching no row changes nothing and is not
     * a failure.
     */
    method Update(id: int, data: FacetData) returns (failed: bool)
      requires Valid()
      modifies this
      ensures Valid()
      ensures failed <==> old(HasId(id) && SlugTaken(data.slug, id))
      ensures !old(HasId(id)) ==> rows == old(rows)
      ensures nextId == old(nextId) && |rows| == |old(rows)|
      ensures failed ==> unchanged(this)
      ensures !failed ==> forall i :: 0 <= i < |rows| ==>
        rows[i] == if old(rows[i].id) == id then TableRow(id, data) else old(rows[i])
    {
      failed := HasId(id) && SlugTaken(data.slug, id);
      if failed {
        return;
      }
      rows := seq(|rows|, i requires 0 <= i < |rows| reads this => if rows[i].id == id then TableRow(id, data) else rows[i]);
    }

    /** `$wpdb->delete ... WHERE id = id`. */
    method Delete(id: int)
      requires Valid()
      modifies this
      ensures Valid()
      ensures nextId == old(nextId)
      ensures forall r :: r in rows <==> r in old(rows) && r.id != id
    {
      var kept: seq<TableRow> := [];
      var i := 0;
      ghost var from: seq<int> := [];
      while i < |rows|
        invariant 0 <= i <= |rows|
        invariant forall r :: r in kept <==> r in rows[..i] && r.id != id
        invariant |from| == |kept| && forall a :: 0 <= a < |kept| ==> 0 <= from[a] < i && kept[a] == rows[from[a]]
        invariant forall a, b :: 0 <= a < b < |kept| ==> from[a] < from[b]
      {
        if rows[i].id != id {
          kept := kept + [rows[i]];
          from := from + [i];
        }
        assert rows[..i + 1] == rows[..i] + [rows[i]];
        i := i + 1;
      }
      assert rows[..|rows|] == rows;
      rows := kept;
    }
  }

  /** The facets the front end loads from the table (`SELECT * FROM facets`), in table order. */
  function Loaded(rows: seq<TableRow>): (fs: seq<Facet>)
    ensures |fs| == |rows| && forall i :: 0 <= i < |rows| ==> fs[i] == AsFacet(rows[i])
  {
    if |rows| == 0 then [] else [AsFacet(rows[0])] + Loaded(rows[1..])
  }

  /**
   * The table's UNIQUE slug key carries over to the loaded facets, so a
   * registry can be built over them, and looking a slug up finds exactly
   * the row stored under it.
   */
  lemma LoadedFindsStored(rows: seq<TableRow>, slug: string)
    requires forall i, j :: 0 <= i < j < |rows| ==> rows[i].data.slug != rows[j].data.slug
    ensures UniqueSlugs(Loaded(rows))
    ensures FindRow(Loaded(rows), slug).None? <==> forall i :: 0 <= i < |rows| ==> rows[i].data.slug != slug
    ensures forall i :: 0 <= i < |rows| && rows[i].data.slug == slug ==> FindRow(Loaded(rows), slug) == Some(AsFacet(rows[i]))
  {
    var fs := Loaded(rows);
    assert UniqueSlugs(fs);
    forall i | 0 <= i < |rows| && rows[i].data.slug == slug
      ensures FindRow(fs, slug) == Some(AsFacet(rows[i]))
    {
      FindRowAt(fs, i);
    }
    if FindRow(fs, slug).None? {
      forall i | 0 <= i < |rows|
        ensures rows[i].data.slug != slug
      {
        assert fs[i] in fs;
      }
    }
  }


  // ---------------------------------------------------------------------
  // The save and delete handlers
  // ---------------------------------------------------------------------

  /** The answers of `ajax_save_facet`. */
  datatype SaveResponse =
    | PermissionDenied
    | Crashed                             // a PHP fatal error before the database is touched
    | SaveFailed                          // "Failed to save facet."
    | Saved(id: int, shortcode: string)   // "Facet saved successfully."

  /** The row id the form posts: `isset($_POST['id']) ? intval($_POST['id']) : 0`. */
  function SaveIdOf(post: Params, host: Host): int
  {
    PostedInt(post, "id", 0, host)
  }

  /**
   * The slug: `sanitize_title` of the posted slug when that field is present,
   * even if empty, else of the name; an array there makes `sanitize_title` throw.
   */
  function SlugOf(post: Params, host: Host): (r: Outcome<string>)
    ensures Get(post, "slug").None? ==> r == Ok(host.sanitizeTitle(NameOf(post, host)))
    ensures Get(post, "slug").Some? && Get(post, "slug").value.Str? ==> r == Ok(host.sanitizeTitle(Get(post, "slug").value.s))
    ensures r.Fatal? <==> Get(post, "slug").Some? && Get(post, "slug").value.List?
  {
    match Get(post, "slug")
    case None => Ok(host.sanitizeTitle(NameOf(post, host)))
    case Some(v) => if v.Str? then Ok(host.sanitizeTitle(v.s)) else Fatal
  }

  /** The columns of the row to write, or the fatal error raised while building them. */
  function FacetDataFor(post: Params, host: Host): (r: Outcome<FacetData>)
    ensures r.Fatal? <==> SlugOf(post, host).Fatal? || SettingsFor(post, host).Fatal?
    ensures r.Ok? ==> r.value.slug == SlugOf(post, host).value && r.value.ftype == TypeOf(post, host)
                      && r.value.settings == SettingsFor(post, host).value
  {
    match SlugOf(post, host)
    case Fatal => Fatal
    case Ok(slug) =>
      match SettingsFor(post, host)
      case Fatal => Fatal
      case Ok(settings) =>
        Ok(FacetData(NameOf(post, host), slug, TypeOf(post, host), PostedText(post, "source", "", host),
                     PostedText(post, "source_key", "", host), settings))
  }

  /** The shortcode the success message offers for a slug. */
  function ShortcodeFor(slug: string): string
  {
    "[cfs_facet slug=\"" + slug + "\"]"
  }

  /**
   * `ajax_save_facet`: refuse without `manage_options`; a positive id updates
   * that row, anything else inserts a new one; a database failure is reported,
   * success answers the id and the shortcode.
   */
  method SaveFacet(table: FacetTable, canManage: bool, post: Params, host: Host) returns (r: SaveResponse)
    requires table.Valid()
    modifies table
    ensures table.Valid()
    ensures !canManage ==> r == PermissionDenied && unchanged(table)
    ensures canManage && FacetDataFor(post, host).Fatal? ==> r == Crashed && unchanged(table)
    ensures canManage && FacetDataFor(post, host).Ok? && SaveIdOf(post, host) > 0 ==>
      var id := SaveIdOf(post, host);
      var d := FacetDataFor(post, host).value;
      (r == SaveFailed <==> old(table.HasId(id) && table.SlugTaken(d.slug, id)))
      && (r == SaveFailed ==> unchanged(table))
      && (r != SaveFailed ==> r == Saved(id, ShortcodeFor(d.slug)) && table.nextId == old(table.nextId)
                              && |table.rows| == |old(table.rows)|
                              && forall i :: 0 <= i < |table.rows| ==>
                                   table.rows[i] == if old(table.rows[i].id) == id then TableRow(id, d) else old(table.rows[i]))
    ensures canManage && FacetDataFor(post, host).Ok? && SaveIdOf(post, host) <= 0 ==>
      var d := FacetDataFor(post, host).value;
      (r == SaveFailed <==> old(table.SlugTaken(d.slug, 0)))
      && table.nextId == old(table.nextId) + 1
      && (r == SaveFailed ==> table.rows == old(table.rows))
      && (r != SaveFailed ==> r == Saved(old(table.nextId), ShortcodeFor(d.slug))
                              && table.rows == old(table.rows) + [TableRow(old(table.nextId), d)])
  {
    if !canManage {
      return PermissionDenied;
    }
    var id := SaveIdOf(post, host);
    var data := FacetDataFor(post, host);
    if data.Fatal? {
      return Crashed;
    }
    var failed: bool;
    if id > 0 {
      failed := table.Update(id, data.value);
    } else {
      failed, id := table.Insert(data.value);
    }
    if failed {
      return SaveFailed;
    }
    r := Saved(id, ShortcodeFor(data.value.slug));
  }

  /** The answers of `ajax_delete_facet`. */
  datatype DeleteResponse = DeleteDenied | Deleted | InvalidId

  /** `ajax_delete_facet`: a positive id deletes that row (if any) and succeeds; any other id is invalid. */
  method DeleteFacet(table: FacetTable, canManage: bool, post: Params, host: Host) returns (r: DeleteResponse)
    requires table.Valid()
    modifies table
    ensures table.Valid()
    ensures !canManage ==> r == DeleteDenied && unchanged(table)
    ensures canManage ==> (r == Deleted <==> PostedInt(post, "id", 0, host) > 0) && (r == Deleted || r == InvalidId)
    ensures canManage && r == Deleted ==>
      forall row :: row in table.rows <==> row in old(table.rows) && row.id != PostedInt(post, "id", 0, host)
    ensures r != Deleted ==> unchanged(table)
  {
    if !canManage {
      return DeleteDenied;
    }
    var id := PostedInt(post, "id", 0, host);
    if id > 0 {
      table.Delete(id);
      return Deleted;
    }
    r := InvalidId;
  }

  /**
   * The shortcode a save offers renders the saved facet with its label on,
   * unless the slug is PHP-empty ("" or "0"), when it renders the error comment.
   */
  lemma OfferedShortcodeRenders(slug: string)
    ensures FacetShortcodeArgs([("slug", slug)]) == if Falsy(slug) then None else Some((slug, RenderArgs("", true, "", "", "")))
  {
    var atts := [("slug", slug)];
    assert atts[1..] == [];
    assert AttOr(atts, "slug", "") == slug;
    assert Get(atts, "show_label").None?;
    assert Get(atts, "target_grid").None?;
    assert Get(atts, "class").None?;
  }

  // ---------------------------------------------------------------------
  // Choices offered in the form
  // ---------------------------------------------------------------------

  /** `get_facet_types`: type to label, in display order. */
  const FacetTypes: seq<(string, string)> := [("checkbox", "Checkboxes"), ("radio", "Radio Buttons"), ("dropdown", "Dropdown"),
                                              ("range", "Range Slider"), ("search", "Search Box"), ("date", "Date Picker"),
                                              ("rating", "Rating")]

  /** `get_sources`: source to label. */
  const Sources: seq<(string, string)> := [("taxonomy", "Taxonomy"), ("custom_field", "Custom Field (Post Meta)"),
                                           ("post_attribute", "Post Attribute")]

  /**
   * Every type the form offers has its own renderer, and a type the form
   * does not offer renders no control at all.
   */
  lemma OfferedTypesRender(f: Facet, choices: seq<Choice>, current: Current, host: Host)
    ensures BodyFor(f, choices, current, host) == NoControl <==> f.ftype !in Keys(FacetTypes)
  {
    FacetTypeNames();
    match f.ftype
    case "checkbox" => CheckboxRenders(f, choices, current, host);
    case "radio" => RadioRenders(f, choices, current, host);
    case "dropdown" => DropdownRenders(f, choices, current, host);
    case "range" => RangeRenders(f, choices, current, host);
    case "search" => SearchRenders(f, choices, current, host);
    case "date" => DateRenders(f, choices, current, host);
    case "rating" => RatingRenders(f, choices, current, host);
    case _ => OtherRendersNothing(f, choices, current, host);
  }

  lemma FacetTypeNames()
    ensures Keys(FacetTypes) == ["checkbox", "radio", "dropdown", "range", "search", "date", "rating"]
  {
  }

  lemma CheckboxRenders(f: Facet, choices: seq<Choice>, current: Current, host: Host)
    requires f.ftype == "checkbox"
    ensures BodyFor(f, choices, current, host).CheckboxList? || BodyFor(f, choices, current, host).NoChoices?
  {
  }

  lemma RadioRenders(f: Facet, choices: seq<Choice>, current: Current, host: Host)
    requires f.ftype == "radio"
    ensures BodyFor(f, choices, current, host).RadioList?
  {
  }

  lemma DropdownRenders(f: Facet, choices: seq<Choice>, current: Current, host: Host)
    requires f.ftype == "dropdown"
    ensures BodyFor(f, choices, current, host).Dropdown?
  {
  }

  lemma RangeRenders(f: Facet, choices: seq<Choice>, current: Current, host: Host)
    requires f.ftype == "range"
    ensures BodyFor(f, choices, current, host).RangeSlider?
  {
  }

  lemma SearchRenders(f: Facet, choices: seq<Choice>, current: Current, host: Host)
    requires f.ftype == "search"
    ensures BodyFor(f, choices, current, host).SearchBox?
  {
  }

  lemma DateRenders(f: Facet, choices: seq<Choice>, current: Current, host: Host)
    requires f.ftype == "date"
    ensures BodyFor(f, choices, current, host).DateRange? || BodyFor(f, choices, current, host).DateSingle?
  {
  }

  lemma RatingRenders(f: Facet, choices: seq<Choice>, current: Current, host: Host)
    requires f.ftype == "rating"
    ensures BodyFor(f, choices, current, host).Rating?
  {
  }

  lemma OtherRendersNothing(f: Facet, choices: seq<Choice>, current: Current, host: Host)
    requires f.ftype !in ["checkbox", "radio", "dropdown", "range", "search", "date", "rating"]
    ensures BodyFor(f, choices, current, host) == NoControl
  {
  }

  /** The public post types offered, in registration order, without `attachment`; a later duplicate name overwrites. */
  function PublicPostTypes(types: seq<(string, string)>): (r: seq<(string, string)>)
    ensures forall k :: Get(r, k).Some? <==> k != "attachment" && k in Keys(types)
  {
    if |types| == 0 then []
    else
      var init := types[..|types| - 1];
      var last := types[|types| - 1];
      var before := PublicPostTypes(init);
      KeysSnoc(types);
      if last.0 == "attachment" then before else Put(before, last.0, last.1)
  }

  /** The label registered last under the name `k`, searching from the end. */
  function LastLabel(types: seq<(string, string)>, k: string): (r: Option<string>)
    ensures r.Some? ==> (k, r.value) in types
    ensures r.None? ==> k !in Keys(types)
  {
    if |types| == 0 then None
    else if types[|types| - 1].0 == k then Some(types[|types| - 1].1)
    else
      KeysSnoc(types);
      LastLabel(types[..|types| - 1], k)
  }

  /** Each offered post type maps to the label of its last registration under that name. */
  lemma {:induction false} PublicPostTypesLabels(types: seq<(string, string)>, k: string)
    ensures Get(PublicPostTypes(types), k) == if k == "attachment" then None else LastLabel(types, k)
  {
    if |types| > 0 {
      PublicPostTypesLabels(types[..|types| - 1], k);
    }
  }

  /** The foreach loop of `get_post_types`. */
  method GetPostTypes(types: seq<(string, string)>) returns (result: seq<(string, string)>)
    ensures result == PublicPostTypes(types)
  {
    result := [];
    var i := 0;
    while i < |types|
      invariant 0 <= i <= |types|
      invariant result == PublicPostTypes(types[..i])
    {
      assert types[..i + 1][..i] == types[..i];
      if types[i].0 != "attachment" {
        result := Put(result, types[i].0, types[i].1);
      }
      i := i + 1;
    }
    assert types[..|types|] == types;
  }
}
