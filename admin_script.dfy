/**
 * The facet editor's browser script (CFSAdmin in admin.js): slug generation
 * from the name, the type and source panels the form shows, the source key
 * it submits, and what it does once the save request answers.
 */
module AdminScript {
  import opened Php
  import opened Facets
  import opened Admin

  // ---------------------------------------------------------------------
  // generateSlug
  // ---------------------------------------------------------------------

  /**
   * `toLowerCase` on one character: ASCII letters exactly; other ASCII
   * characters are unchanged; the rest is the engine's Unicode table, a
   * parameter here.
   */
  function LowerChar(c: char, lowerOther: char -> char): char
  {
    if 'A' <= c <= 'Z' then (c as int + 32) as char
    else if c < '\U{80}' then c
    else lowerOther(c)
  }

  /** A lowercasing table that never produces an upper-case ASCII letter, as every Unicode one does. */
  predicate LowerHost(lowerOther: char -> char)
  {
    forall c :: !('A' <= lowerOther(c) <= 'Z')
  }

  function LowerAll(s: string, lowerOther: char -> char): (r: string)
    ensures |r| == |s| && forall i :: 0 <= i < |s| ==> r[i] == LowerChar(s[i], lowerOther)
  {
    seq(|s|, i requires 0 <= i < |s| => LowerChar(s[i], lowerOther))
  }

  /** `\w` without the `u` flag: ASCII letters, digits and underscore. */
  predicate WordChar(c: char)
  {
    'a' <= c <= 'z' || 'A' <= c <= 'Z' || '0' <= c <= '9' || c == '_'
  }

  /** The characters `/[^\w\s-]/g` leaves in place. */
  predicate KeptChar(c: char)
  {
    WordChar(c) || JsSpace(c) || c == '-'
  }

  /** `.replace(/[^\w\s-]/g, '')`. */
  function Keep(s: string): (r: string)
    ensures |r| <= |s| && forall i :: 0 <= i < |r| ==> KeptChar(r[i])
    ensures (forall i :: 0 <= i < |s| ==> KeptChar(s[i])) ==> r == s
  {
    if |s| == 0 then []
    else (if KeptChar(s[0]) then [s[0]] else []) + Keep(s[1..])
  }

  /** Filtering keeps any property every input character has. */
  lemma {:induction false} KeepPreserves(s: string, q: char -> bool)
    requires forall i :: 0 <= i < |s| ==> q(s[i])
    ensures forall i :: 0 <= i < |Keep(s)| ==> q(Keep(s)[i])
  {
    if |s| > 0 {
      KeepPreserves(s[1..], q);
    }
  }

  predicate IsDash(c: char)
  {
    c == '-'
  }

  /** Drops the run of `p`-characters at the front. */
  function SkipRun(s: string, p: char -> bool): (r: string)
    ensures |r| <= |s| && r == s[|s| - |r|..]
    ensures r == [] || !p(r[0])
  {
    if |s| > 0 && p(s[0]) then SkipRun(s[1..], p) else s
  }

  /**
   * Every maximal run of `p`-characters becomes one `-`: `.replace(/\s+/g, '-')`
   * with `p` the whitespace class, `.replace(/--+/g, '-')` with `p` the dash
   * (a single dash is left as it is either way).
   */
  function RunsToDash(s: string, p: char -> bool): (r: string)
    ensures |r| <= |s|
    ensures |s| > 0 ==> |r| > 0 && r[0] == (if p(s[0]) then '-' else s[0])
    ensures forall i :: 0 <= i < |r| ==> r[i] == '-' || !p(r[i])
    decreases |s|
  {
    if |s| == 0 then []
    else if p(s[0]) then "-" + RunsToDash(SkipRun(s[1..], p), p)
    else [s[0]] + RunsToDash(s[1..], p)
  }

  /** Replacing runs by a dash keeps any property the dash and every input character have. */
  lemma {:induction false} RunsPreserve(s: string, p: char -> bool, q: char -> bool)
    requires q('-') && forall i :: 0 <= i < |s| ==> q(s[i])
    ensures forall i :: 0 <= i < |RunsToDash(s, p)| ==> q(RunsToDash(s, p)[i])
    decreases |s|
  {
    if |s| > 0 {
      if p(s[0]) {
        var t := SkipRun(s[1..], p);
        assert forall i :: 0 <= i < |t| ==> t[i] == s[|s| - |t| + i];
        RunsPreserve(t, p, q);
      } else {
        RunsPreserve(s[1..], p, q);
      }
    }
  }

  predicate NotUpper(c: char)
  {
    !('A' <= c <= 'Z')
  }

  predicate NotSpace(c: char)
  {
    !JsSpace(c)
  }

  predicate SlugOrSpace(c: char)
  {
    SlugChar(c) || JsSpace(c)
  }

  /** `generateSlug`: lowercase, drop other characters, dash the whitespace, collapse dashes, trim. */
  function GenerateSlug(text: string, lowerOther: char -> char): string
  {
    Trim(RunsToDash(RunsToDash(Keep(LowerAll(text, lowerOther)), JsSpace), IsDash))
  }

  /** The characters a slug is made of: `[a-z0-9_-]`. */
  predicate SlugChar(c: char)
  {
    'a' <= c <= 'z' || '0' <= c <= '9' || c == '_' || c == '-'
  }

  /** No two dashes in a row. */
  predicate NoDoubleDash(s: string)
    decreases |s|
  {
    |s| < 2 || (!(s[0] == '-' && s[1] == '-') && NoDoubleDash(s[1..]))
  }

  /** Collapsing dash runs leaves no two dashes in a row. */
  lemma {:induction false} CollapsedHasNoDoubleDash(s: string)
    ensures NoDoubleDash(RunsToDash(s, IsDash))
    decreases |s|
  {
    if |s| > 0 {
      if IsDash(s[0]) {
        var t := SkipRun(s[1..], IsDash);
        CollapsedHasNoDoubleDash(t);
        assert RunsToDash(s, IsDash) == "-" + RunsToDash(t, IsDash);
        assert ("-" + RunsToDash(t, IsDash))[1..] == RunsToDash(t, IsDash);
      } else {
        CollapsedHasNoDoubleDash(s[1..]);
        assert ([s[0]] + RunsToDash(s[1..], IsDash))[1..] == RunsToDash(s[1..], IsDash);
      }
    }
  }

  /** Without any `p`-character there is no run to replace. */
  lemma {:induction false} RunsToDashNoRun(s: string, p: char -> bool)
    requires forall i :: 0 <= i < |s| ==> !p(s[i])
    ensures RunsToDash(s, p) == s
    decreases |s|
  {
    if |s| > 0 {
      RunsToDashNoRun(s[1..], p);
      assert s == [s[0]] + s[1..];
    }
  }

  /** With single dashes only, collapsing dash runs changes nothing. */
  lemma {:induction false} CollapseSingleDashes(s: string)
    requires NoDoubleDash(s)
    ensures RunsToDash(s, IsDash) == s
    decreases |s|
  {
    if |s| > 0 {
      if |s| > 1 {
        assert NoDoubleDash(s[1..]);
      }
      CollapseSingleDashes(s[1..]);
      if IsDash(s[0]) {
        assert SkipRun(s[1..], IsDash) == s[1..];
      }
      assert s == [s[0]] + s[1..];
    }
  }

  /** `trim` on a string without whitespace returns it unchanged. */
  lemma TrimNoSpace(s: string)
    requires forall k :: 0 <= k < |s| ==> !JsSpace(s[k])
    ensures Trim(s) == s
  {
    var i, j :| 0 <= i <= j <= |s| && Trim(s) == s[i..j]
                && (forall k :: 0 <= k < i ==> JsSpace(s[k])) && (forall k :: j <= k < |s| ==> JsSpace(s[k]));
    if |s| > 0 {
      assert !JsSpace(s[0]) && !JsSpace(s[|s| - 1]);
    }
    assert i == 0 && j == |s|;
  }

  /** The two replacement stages in front of `trim`. */
  function Dashed(text: string, lowerOther: char -> char): string
  {
    RunsToDash(RunsToDash(Keep(LowerAll(text, lowerOther)), JsSpace), IsDash)
  }

  /**
   * Whitespace is already gone when `trim` runs, so the final `trim` changes
   * nothing: a name with leading or trailing blanks yields a slug with a
   * leading or trailing dash.  The slug has no two dashes in a row.
   */
  lemma SlugBeforeTrim(text: string, lowerOther: char -> char)
    ensures GenerateSlug(text, lowerOther) == Dashed(text, lowerOther)
    ensures NoDoubleDash(GenerateSlug(text, lowerOther))
  {
    var d := Dashed(text, lowerOther);
    var w := RunsToDash(Keep(LowerAll(text, lowerOther)), JsSpace);
    assert forall k :: 0 <= k < |w| ==> NotSpace(w[k]);
    RunsPreserve(w, IsDash, NotSpace);
    TrimNoSpace(d);
    CollapsedHasNoDoubleDash(w);
  }

  /** A generated slug uses only lower-case ASCII letters, digits, `_` and `-`. */
  lemma SlugCharset(text: string, lowerOther: char -> char)
    requires LowerHost(lowerOther)
    ensures forall k :: 0 <= k < |GenerateSlug(text, lowerOther)| ==> SlugChar(GenerateSlug(text, lowerOther)[k])
  {
    SlugBeforeTrim(text, lowerOther);
    var l := LowerAll(text, lowerOther);
    LowerAllNotUpper(text, lowerOther);
    KeptSlugOrSpace(l);
    DashedSlugChars(Keep(l));
  }

  lemma LowerAllNotUpper(text: string, lowerOther: char -> char)
    requires LowerHost(lowerOther)
    ensures forall k :: 0 <= k < |LowerAll(text, lowerOther)| ==> NotUpper(LowerAll(text, lowerOther)[k])
  {
  }

  lemma KeptSlugOrSpace(l: string)
    requires forall k :: 0 <= k < |l| ==> NotUpper(l[k])
    ensures forall k :: 0 <= k < |Keep(l)| ==> SlugOrSpace(Keep(l)[k])
  {
    KeepPreserves(l, NotUpper);
  }

  lemma DashedSlugChars(kept: string)
    requires forall k :: 0 <= k < |kept| ==> SlugOrSpace(kept[k])
    ensures forall k :: 0 <= k < |RunsToDash(RunsToDash(kept, JsSpace), IsDash)| ==> SlugChar(RunsToDash(RunsToDash(kept, JsSpace), IsDash)[k])
  {
    RunsPreserve(kept, JsSpace, SlugOrSpace);
    var w := RunsToDash(kept, JsSpace);
    assert forall k :: 0 <= k < |w| ==> SlugChar(w[k]);
    RunsPreserve(w, IsDash, SlugChar);
  }

  lemma SlugCharsNoSpace(s: string)
    requires forall k :: 0 <= k < |s| ==> SlugChar(s[k])
    ensures forall k :: 0 <= k < |s| ==> !JsSpace(s[k])
  {
  }

  /** Lowercasing and filtering keep slug characters as they are. */
  lemma SlugCharsKept(s: string, lowerOther: char -> char)
    requires forall k :: 0 <= k < |s| ==> SlugChar(s[k])
    ensures Keep(LowerAll(s, lowerOther)) == s
  {
    assert LowerAll(s, lowerOther) == s;
  }

  /** The dash stages and `trim` leave a string of single-dashed slug characters as it is. */
  lemma SlugDashesKept(s: string)
    requires forall k :: 0 <= k < |s| ==> SlugChar(s[k])
    requires NoDoubleDash(s)
    ensures Trim(RunsToDash(RunsToDash(s, JsSpace), IsDash)) == s
  {
    SlugCharsNoSpace(s);
    RunsToDashNoRun(s, JsSpace);
    CollapseSingleDashes(s);
    TrimNoSpace(s);
  }

  /** A string of slug characters without two dashes in a row is its own slug. */
  lemma SlugFixedPoint(s: string, lowerOther: char -> char)
    requires forall k :: 0 <= k < |s| ==> SlugChar(s[k])
    requires NoDoubleDash(s)
    ensures GenerateSlug(s, lowerOther) == s
  {
    SlugCharsKept(s, lowerOther);
    SlugDashesKept(s);
  }

  /** Generating a slug from a generated slug gives it back. */
  lemma SlugIdempotent(text: string, lowerOther: char -> char)
    requires LowerHost(lowerOther)
    ensures GenerateSlug(GenerateSlug(text, lowerOther), lowerOther) == GenerateSlug(text, lowerOther)
  {
    SlugCharset(text, lowerOther);
    SlugBeforeTrim(text, lowerOther);
    SlugFixedPoint(GenerateSlug(text, lowerOther), lowerOther);
  }

  // ---------------------------------------------------------------------
  // The editor form
  // ---------------------------------------------------------------------

  /** The type-specific settings panels (`.cfs-type-settings`). */
  datatype Panel = RangePanel | ListPanel | DatePanel

  /** The source-specific rows of the form. */
  datatype SourceRow = TaxonomyRow | CustomFieldRow | PostAttributeRow

  /** `toggleTypeSettings`: the one panel a type shows, if any. */
  function TypePanel(ftype: string): Option<Panel>
  {
    if ftype == "range" then Some(RangePanel)
    else if ListsChoices(ftype) then Some(ListPanel)
    else if ftype == "date" then Some(DatePanel)
    else None
  }

  function PanelsFor(ftype: string): set<Panel>
  {
    match TypePanel(ftype)
    case Some(p) => {p}
    case None => {}
  }

  /** `toggleSourceFields`: the rows a source shows, if any. */
  function SourceRowFor(source: string): Option<SourceRow>
  {
    if source == "taxonomy" then Some(TaxonomyRow)
    else if source == "custom_field" then Some(CustomFieldRow)
    else if source == "post_attribute" then Some(PostAttributeRow)
    else None
  }

  function RowsFor(source: string): set<SourceRow>
  {
    match SourceRowFor(source)
    case Some(r) => {r}
    case None => {}
  }

  /** The three source-key inputs of the form. */
  datatype SourceFields = SourceFields(taxonomy: string, meta: string, attribute: string)

  /** The input that sits in a source row. */
  function FieldIn(row: SourceRow, fields: SourceFields): string
  {
    match row
    case TaxonomyRow => fields.taxonomy
    case CustomFieldRow => fields.meta
    case PostAttributeRow => fields.attribute
  }

  /**
   * The form shows a settings panel for exactly the settings the server
   * stores: the range panel iff the saved settings have the range keys, the
   * date panel iff they have the date keys, the list panel iff the renderer
   * lists choices for the type.
   */
  lemma PanelsMatchSavedSettings(post: Params, host: Host)
    requires SettingsFor(post, host).Ok?
    ensures var t := TypeOf(post, host);
      var keys := Keys(SettingsFor(post, host).value);
      (RangePanel in PanelsFor(t) <==> "min" in keys)
      && (DatePanel in PanelsFor(t) <==> "date_type" in keys)
      && (ListPanel in PanelsFor(t) <==> ListsChoices(t))
      && |PanelsFor(t)| <= 1
  {
    SettingsKeysByType(post, host);
    var t := TypeOf(post, host);
    KeyMembership();
    PanelsOfType(t);
  }

  /** Where the range and date keys sit among the stored key lists. */
  lemma KeyMembership()
    ensures "min" !in BaseKeys + [] + DateKeys && "min" !in BaseKeys + [] + []
    ensures "min" in BaseKeys + RangeKeys + []
    ensures "date_type" !in BaseKeys + RangeKeys + [] && "date_type" !in BaseKeys + [] + []
    ensures "date_type" in BaseKeys + [] + DateKeys
  {
    assert BaseKeys + RangeKeys + [] == BaseKeys + RangeKeys;
    assert BaseKeys + [] + DateKeys == BaseKeys + DateKeys;
    assert BaseKeys + [] + [] == BaseKeys;
  }

  /** The panels a type shows. */
  lemma PanelsOfType(t: string)
    ensures RangePanel in PanelsFor(t) <==> t == "range"
    ensures DatePanel in PanelsFor(t) <==> t == "date"
    ensures ListPanel in PanelsFor(t) <==> ListsChoices(t)
    ensures |PanelsFor(t)| <= 1
  {
  }

  /** Each source the server offers has its own row, and an unknown source shows none. */
  lemma OfferedSourcesHaveRows(source: string)
    ensures SourceRowFor(source).Some? <==> source in Keys(Sources)
    ensures forall a, b :: a in Keys(Sources) && b in Keys(Sources) && SourceRowFor(a) == SourceRowFor(b) ==> a == b
  {
    assert Keys(Sources) == ["taxonomy", "custom_field", "post_attribute"];
  }

  /** The editor form: its inputs and what it currently shows. */
  class AdminForm {
    var idField: string
    var name: string
    var slug: string
    var ftype: string
    var source: string
    var panels: set<Panel>
    var dropdownOnly: bool
    var sourceRows: set<SourceRow>
    var submitLabel: string

    /** What is shown agrees with the chosen type and source. */
    ghost predicate Valid()
      reads this
    {
      panels == PanelsFor(ftype) && sourceRows == RowsFor(source)
      && (ListsChoices(ftype) ==> (dropdownOnly <==> ftype == "dropdown"))
    }

    /**
     * The form as the page renders it, after `initFormHandlers` has set the
     * panels; `id` is the hidden id input, "0" for a new facet.
     */
    constructor (id: string, name: string, slug: string, ftype: string, source: string)
      ensures Valid()
      ensures idField == id && this.name == name && this.slug == slug && this.ftype == ftype && this.source == source
      ensures dropdownOnly <==> ftype == "dropdown"
      ensures submitLabel == "Create Facet" <==> Falsy(id)
      ensures submitLabel in {"Create Facet", "Update Facet"}
    {
      idField := id;
      this.name := name;
      this.slug := slug;
      this.ftype := ftype;
      this.source := source;
      panels := PanelsFor(ftype);
      dropdownOnly := ftype == "dropdown";
      sourceRows := RowsFor(source);
      submitLabel := TemplateLabel(id);
    }

    /** Leaving the name field fills the slug only while the slug field is empty. */
    method OnNameBlur(lowerOther: char -> char)
      modifies this`slug
      ensures old(slug) == "" ==> slug == GenerateSlug(name, lowerOther)
      ensures old(slug) != "" ==> slug == old(slug)
      ensures unchanged(this`idField, this`name, this`ftype, this`source, this`panels)
      ensures unchanged(this`dropdownOnly, this`sourceRows, this`submitLabel)
    {
      if slug == "" {
        slug := GenerateSlug(name, lowerOther);
      }
    }

    /**
     * Choosing a type hides every panel and shows the type's own; the
     * dropdown-only option follows the type only for list types and keeps
     * its state otherwise (it sits inside the hidden list panel).
     */
    method OnTypeChange(t: string)
      requires Valid()
      modifies this
      ensures Valid()
      ensures ftype == t && panels == PanelsFor(t)
      ensures dropdownOnly == if ListsChoices(t) then t == "dropdown" else old(dropdownOnly)
      ensures idField == old(idField) && name == old(name) && slug == old(slug) && source == old(source)
      ensures sourceRows == old(sourceRows) && submitLabel == old(submitLabel)
    {
      ftype := t;
      panels := {};
      if t == "range" {
        panels := {RangePanel};
      } else if t == "checkbox" || t == "radio" || t == "dropdown" {
        panels := {ListPanel};
        dropdownOnly := t == "dropdown";
      } else if t == "date" {
        panels := {DatePanel};
      }
    }

    /** Choosing a source hides every source row and shows the chosen source's own. */
    method OnSourceChange(s: string)
      requires Valid()
      modifies this
      ensures Valid()
      ensures source == s && sourceRows == RowsFor(s)
      ensures idField == old(idField) && name == old(name) && slug == old(slug) && ftype == old(ftype)
      ensures panels == old(panels) && dropdownOnly == old(dropdownOnly) && submitLabel == old(submitLabel)
    {
      source := s;
      sourceRows := {};
      if s == "taxonomy" {
        sourceRows := {TaxonomyRow};
      } else if s == "custom_field" {
        sourceRows := {CustomFieldRow};
      } else if s == "post_attribute" {
        sourceRows := {PostAttributeRow};
      }
    }

    /** The `source_key` `saveFacet` submits: the input of the visible source row, '' when none is visible. */
    method SubmittedSourceKey(fields: SourceFields) returns (key: string)
      requires Valid()
      ensures forall row :: sourceRows == {row} ==> key == FieldIn(row, fields)
      ensures sourceRows == {} ==> key == ""
    {
      key := "";
      if source == "taxonomy" {
        key := fields.taxonomy;
      } else if source == "custom_field" {
        key := fields.meta;
      } else if source == "post_attribute" {
        key := fields.attribute;
      }
    }

    /**
     * The `success`/`complete` callbacks of `saveFacet`, as corrected: a form
     * for a new facet (id not a positive integer, as the server decides)
     * redirects after a successful save, and the button reads "Update Facet"
     * only for an existing facet.
     */
    method OnSaveAnswered(success: bool, host: Host) returns (redirect: bool)
      modifies this
      ensures redirect <==> success && IsNewFacet(idField, host)
      ensures submitLabel == SubmitLabel(idField, host)
      ensures idField == old(idField) && name == old(name) && slug == old(slug) && ftype == old(ftype)
      ensures source == old(source) && panels == old(panels) && dropdownOnly == old(dropdownOnly)
      ensures sourceRows == old(sourceRows)
    {
      redirect := success && IsNewFacet(idField, host);
      submitLabel := SubmitLabel(idField, host);
    }
  }

  // ---------------------------------------------------------------------
  // New or existing facet
  // ---------------------------------------------------------------------

  /** As written: the script treats the facet as new iff the hidden id input is empty (JavaScript truthiness). */
  predicate IsNewFacetAsWritten(idField: string)
  {
    idField == ""
  }

  /** As written: "Update Facet" iff the hidden id input is non-empty. */
  function SubmitLabelAsWritten(idField: string): string
  {
    if idField != "" then "Update Facet" else "Create Facet"
  }

  /** The hidden id the form template writes for a facet being created. */
  const NewFormId: string := "0"

  /** The template's button: PHP truthiness of the id it printed into the hidden input. */
  function TemplateLabel(id: string): string
  {
    if Falsy(id) then "Create Facet" else "Update Facet"
  }

  /**
   * For every id the template prints (0 for a new facet, a stored row's id
   * otherwise) the page's button and the corrected script's label agree.
   */
  lemma TemplateLabelAgrees(n: nat, host: Host)
    requires host.intval(DecimalText(n)) == n
    ensures TemplateLabel(DecimalText(n)) == SubmitLabel(DecimalText(n), host)
  {
    if 1 <= n < 10 {
      assert DecimalText(n) == [DigitChar(n)];
    }
  }

  /**
   * The template gives a new facet the id "0", a non-empty string: the
   * script never redirects after creating and relabels the button "Update
   * Facet", while the server, reading `intval("0")`, inserts.
   */
  lemma NewFormLooksExisting(post: Params, host: Host)
    requires Get(post, "id") == Some(Str(NewFormId)) && host.intval(NewFormId) == 0
    ensures !IsNewFacetAsWritten(NewFormId) && SubmitLabelAsWritten(NewFormId) == "Update Facet"
    ensures SaveIdOf(post, host) <= 0
  {
  }

  /** Corrected: a facet is new iff its id is not a positive integer, the server's own test. */
  predicate IsNewFacet(idField: string, host: Host)
  {
    !(host.intval(idField) > 0)
  }

  function SubmitLabel(idField: string, host: Host): string
  {
    if IsNewFacet(idField, host) then "Create Facet" else "Update Facet"
  }

  /**
   * The corrected test agrees with the server on every posted id: the script
   * treats the form as new exactly when the save handler inserts.
   */
  lemma NewFacetAgreesWithServer(post: Params, idField: string, host: Host)
    requires Get(post, "id") == Some(Str(idField))
    ensures IsNewFacet(idField, host) <==> SaveIdOf(post, host) <= 0
    ensures SubmitLabel(idField, host) == "Update Facet" <==> SaveIdOf(post, host) > 0
  {
  }
}
