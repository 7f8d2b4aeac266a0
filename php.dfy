/**
 * Runtime vocabulary shared by the model: PHP ordered arrays, the few string
 * functions of PHP and JavaScript the repository relies on, and the host
 * functions (WordPress sanitisers, number parsing and printing) that the
 * repository calls but does not define.  Those host functions are fields of
 * `Host`: every lemma holds for whatever they compute.
 */
module Php {

  datatype Option<+T> = None | Some(value: T)

  /** A computation that may end the request with a PHP fatal error (a TypeError under PHP 8). */
  datatype Outcome<+T> = Ok(value: T) | Fatal

  /** A request parameter as PHP delivers it: a scalar string or a list (`name[]`). */
  datatype ParamValue = Str(s: string) | List(items: seq<string>)

  /** `$_GET` / `$_POST`: an ordered array from parameter name to value. */
  type Params = seq<(string, ParamValue)>

  /** Functions of WordPress, PHP and the browser that the model leaves uninterpreted. */
  datatype Host = Host(
    sanitizeText: string -> string,   // sanitize_text_field on a string
    sanitizeTitle: string -> string,  // sanitize_title
    floatval: string -> real,         // floatval / (float) on a string
    intval: string -> int,            // intval on a string
    isNumeric: string -> bool,        // is_numeric on a string
    floatText: real -> string,        // PHP float-to-string conversion
    parseStr: string -> Params,       // parse_str
    shouldFilterHook: (bool, bool) -> bool) // the 'cfs_should_filter_query' filter

  /** PHP `empty()` on a string: exactly "" and "0" are falsy. */
  predicate Falsy(s: string) { s == "" || s == "0" }

  predicate StartsWith(s: string, p: string) { |p| <= |s| && s[..|p|] == p }

  predicate EndsWith(s: string, p: string) { |p| <= |s| && s[|s| - |p|..] == p }

  /** `needle` occurs somewhere inside `s`. */
  ghost predicate Occurs(s: string, needle: string)
  {
    exists i :: OccursAt(s, needle, i)
  }

  predicate OccursAt(s: string, needle: string, i: int)
  {
    0 <= i && i + |needle| <= |s| && s[i..i + |needle|] == needle
  }

  /**
   * `str_replace(needle, '', s)`: scans left to right and deletes every
   * non-overlapping occurrence; the text left behind is not scanned again.
   */
  function RemoveAll(s: string, needle: string): (r: string)
    requires needle != []
    ensures |r| <= |s|
    decreases |s|
  {
    if |s| < |needle| then s
    else if s[..|needle|] == needle then RemoveAll(s[|needle|..], needle)
    else [s[0]] + RemoveAll(s[1..], needle)
  }

  /** Text without the needle comes back unchanged. */
  lemma {:induction false} RemoveAllAbsent(s: string, needle: string)
    requires needle != [] && !Occurs(s, needle)
    ensures RemoveAll(s, needle) == s
    decreases |s|
  {
    if |s| >= |needle| {
      assert s[0..0 + |needle|] == s[..|needle|];
      assert !OccursAt(s, needle, 0);
      OccursInTail(s, needle);
      RemoveAllAbsent(s[1..], needle);
    }
  }

  /** An occurrence in the tail is an occurrence in the whole text. */
  lemma OccursInTail(s: string, needle: string)
    requires |s| > 0
    ensures Occurs(s[1..], needle) ==> Occurs(s, needle)
  {
    if Occurs(s[1..], needle) {
      var i :| OccursAt(s[1..], needle, i);
      assert s[i + 1..i + 1 + |needle|] == s[1..][i..i + |needle|];
      assert OccursAt(s, needle, i + 1);
    }
  }

  /** A leading needle is deleted and the scan resumes right after it. */
  lemma RemoveAllLeading(needle: string, s: string)
    requires needle != []
    ensures RemoveAll(needle + s, needle) == RemoveAll(s, needle)
  {
    assert (needle + s)[..|needle|] == needle;
    assert (needle + s)[|needle|..] == s;
  }

  /** Text holding the needle loses at least one character. */
  lemma {:induction false} RemoveAllShrinks(s: string, needle: string)
    requires needle != [] && Occurs(s, needle)
    ensures |RemoveAll(s, needle)| < |s|
    decreases |s|
  {
    var i :| OccursAt(s, needle, i);
    if s[..|needle|] != needle {
      assert i != 0 by { assert s[0..0 + |needle|] == s[..|needle|]; }
      assert s[1..][i - 1..i - 1 + |needle|] == s[i..i + |needle|];
      assert OccursAt(s[1..], needle, i - 1);
      RemoveAllShrinks(s[1..], needle);
    }
  }

  /** `str_replace` leaves a text unchanged exactly when the needle does not occur in it. */
  lemma RemoveAllFixedIff(s: string, needle: string)
    requires needle != []
    ensures RemoveAll(s, needle) == s <==> !Occurs(s, needle)
  {
    if Occurs(s, needle) {
      RemoveAllShrinks(s, needle);
    } else {
      RemoveAllAbsent(s, needle);
    }
  }

  /** `implode(sep, xs)`. */
  function Implode(sep: string, xs: seq<string>): string
  {
    if |xs| == 0 then "" else if |xs| == 1 then xs[0] else xs[0] + sep + Implode(sep, xs[1..])
  }

  /** Decimal digits of a natural number, as PHP and JavaScript print it. */
  function DecimalText(n: nat): (r: string)
    ensures |r| > 0
    ensures forall i :: 0 <= i < |r| ==> '0' <= r[i] <= '9'
  {
    if n < 10 then [DigitChar(n)] else DecimalText(n / 10) + [DigitChar(n % 10)]
  }

  function DigitChar(d: nat): (c: char)
    requires d < 10
    ensures '0' <= c <= '9'
  {
    ['0', '1', '2', '3', '4', '5', '6', '7', '8', '9'][d]
  }

  /** JavaScript white space and line terminators: the regular-expression class `\s`, and what `trim` strips. */
  predicate JsSpace(c: char)
  {
    c in {'\t', '\n', '\U{B}', '\U{C}', '\r', ' ', '\U{A0}', '\U{1680}', '\U{2028}', '\U{2029}',
          '\U{202F}', '\U{205F}', '\U{3000}', '\U{FEFF}'}
    || ('\U{2000}' <= c <= '\U{200A}')
  }

  function TrimStart(s: string): (r: string)
    ensures |r| <= |s| && r == s[|s| - |r|..]
    ensures forall i :: 0 <= i < |s| - |r| ==> JsSpace(s[i])
    ensures r == "" || !JsSpace(r[0])
  {
    if |s| > 0 && JsSpace(s[0]) then TrimStart(s[1..]) else s
  }

  function TrimEnd(s: string): (r: string)
    ensures |r| <= |s| && r == s[..|r|]
    ensures forall i :: |r| <= i < |s| ==> JsSpace(s[i])
    ensures r == "" || !JsSpace(r[|r| - 1])
  {
    if |s| > 0 && JsSpace(s[|s| - 1]) then TrimEnd(s[..|s| - 1]) else s
  }

  /** `s.trim()`: the longest slice of `s` with no leading or trailing whitespace. */
  function Trim(s: string): (r: string)
    ensures exists i, j :: 0 <= i <= j <= |s| && r == s[i..j]
                           && (forall k :: 0 <= k < i ==> JsSpace(s[k]))
                           && (forall k :: j <= k < |s| ==> JsSpace(s[k]))
    ensures r == "" || (!JsSpace(r[0]) && !JsSpace(r[|r| - 1]))
  {
    var a := TrimStart(s);
    var r := TrimEnd(a);
    assert r == s[|s| - |a|..|s| - |a| + |r|];
    r
  }

  // ---------------------------------------------------------------------
  // Ordered arrays keyed by strings (PHP arrays, JavaScript plain objects)
  // ---------------------------------------------------------------------

  /** `m[k]`: the value stored under `k`, if any (the first entry with that key). */
  function Get<V>(m: seq<(string, V)>, k: string): Option<V>
  {
    if |m| == 0 then None else if m[0].0 == k then Some(m[0].1) else Get(m[1..], k)
  }

  function Keys<V>(m: seq<(string, V)>): (ks: seq<string>)
    ensures |ks| == |m| && forall i :: 0 <= i < |m| ==> ks[i] == m[i].0
  {
    if |m| == 0 then [] else [m[0].0] + Keys(m[1..])
  }

  lemma KeysSnoc<V>(m: seq<(string, V)>)
    requires |m| > 0
    ensures Keys(m) == Keys(m[..|m| - 1]) + [m[|m| - 1].0]
  {
    SnocEq(Keys(m), Keys(m[..|m| - 1]), m[|m| - 1].0);
  }

  lemma SnocEq(a: seq<string>, b: seq<string>, x: string)
    requires |a| == |b| + 1 && a[|b|] == x && forall i :: 0 <= i < |b| ==> a[i] == b[i]
    ensures a == b + [x]
  {
  }

  /** No key occurs twice: the shape of every PHP array and JavaScript object. */
  predicate UniqueKeys<V>(m: seq<(string, V)>)
  {
    forall i, j :: 0 <= i < j < |m| ==> m[i].0 != m[j].0
  }

  lemma {:induction false} GetSomeHasKey<V>(m: seq<(string, V)>, k: string)
    ensures Get(m, k).Some? <==> k in Keys(m)
  {
    if |m| > 0 { GetSomeHasKey(m[1..], k); }
  }

  /** In a uniquely keyed map, looking up the key at position i finds position i. */
  lemma {:induction false} GetUnique<V>(m: seq<(string, V)>, i: int)
    requires UniqueKeys(m) && 0 <= i < |m|
    ensures Get(m, m[i].0) == Some(m[i].1)
  {
    if i > 0 {
      assert m[0].0 != m[i].0;
      assert UniqueKeys(m[1..]) by {
        forall a, b | 0 <= a < b < |m[1..]| ensures m[1..][a].0 != m[1..][b].0 {
          assert m[1..][a] == m[a + 1] && m[1..][b] == m[b + 1];
        }
      }
      GetUnique(m[1..], i - 1);
    }
  }

  /**
   * `m[k] = v`: an existing key keeps its position and gets the new value;
   * a new key is appended at the end.
   */
  function Put<V>(m: seq<(string, V)>, k: string, v: V): (r: seq<(string, V)>)
    ensures |r| == if Get(m, k).Some? then |m| else |m| + 1
    ensures forall i :: 0 <= i < |m| ==> r[i].0 == m[i].0
    ensures Get(r, k) == Some(v)
    ensures forall j :: j != k ==> Get(r, j) == Get(m, j)
    ensures Get(m, k).None? ==> r == m + [(k, v)]
    ensures UniqueKeys(m) ==> UniqueKeys(r)
  {
    if |m| == 0 then [(k, v)]
    else if m[0].0 == k then [(k, v)] + m[1..]
    else
      var rest := Put(m[1..], k, v);
      HeadKeyFresh(m, Keys(rest), k);
      ConsTail(m, (k, v));
      if UniqueKeys(m) then
        ConsUnique(m[0], rest);
        [m[0]] + rest
      else
        [m[0]] + rest
  }

  lemma ConsTail<V>(m: seq<(string, V)>, p: (string, V))
    requires |m| > 0
    ensures [m[0]] + (m[1..] + [p]) == m + [p]
  {
  }

  lemma ConsUnique<V>(x: (string, V), rest: seq<(string, V)>)
    requires UniqueKeys(rest) && forall i :: 0 <= i < |rest| ==> rest[i].0 != x.0
    ensures UniqueKeys([x] + rest)
  {
    var r := [x] + rest;
    forall i, j | 0 <= i < j < |r| ensures r[i].0 != r[j].0 {
      assert r[j] == rest[j - 1];
      if i > 0 { assert r[i] == rest[i - 1]; }
    }
  }

  /** The keys after the head of `m`, maybe with `k` appended, never repeat the head's key. */
  lemma HeadKeyFresh<V>(m: seq<(string, V)>, ks: seq<string>, k: string)
    requires |m| > 0 && m[0].0 != k
    requires |ks| <= |m| && forall i :: 0 <= i < |m| - 1 && i < |ks| ==> ks[i] == m[i + 1].0
    requires |ks| == |m| ==> ks[|m| - 1] == k
    ensures UniqueKeys(m) ==> forall i :: 0 <= i < |ks| ==> ks[i] != m[0].0
  {
  }

  /** `array_values(m)`. */
  function Values<V>(m: seq<(string, V)>): (vs: seq<V>)
    ensures |vs| == |m| && forall i :: 0 <= i < |m| ==> vs[i] == m[i].1
  {
    seq(|m|, i requires 0 <= i < |m| => m[i].1)
  }

  // ---------------------------------------------------------------------
  // Request parameters
  // ---------------------------------------------------------------------

  /** `array_map('sanitize_text_field', v)` on an array, `[sanitize_text_field(v)]` on a scalar. */
  function SanitizedList(v: ParamValue, host: Host): (r: seq<string>)
    ensures v.Str? ==> r == [host.sanitizeText(v.s)]
    ensures v.List? ==> |r| == |v.items| && forall i :: 0 <= i < |r| ==> r[i] == host.sanitizeText(v.items[i])
  {
    match v
    case Str(s) => [host.sanitizeText(s)]
    case List(xs) => seq(|xs|, i requires 0 <= i < |xs| => host.sanitizeText(xs[i]))
  }

  /** `sanitize_text_field(v)`: an array sanitises to the empty string. */
  function TextOf(v: ParamValue, host: Host): string
  {
    match v
    case Str(s) => host.sanitizeText(s)
    case List(_) => ""
  }

  /** `floatval(v)`: an empty array is 0, any other array 1. */
  function FloatOf(v: ParamValue, host: Host): real
  {
    match v
    case Str(s) => host.floatval(s)
    case List(xs) => if |xs| == 0 then 0.0 else 1.0
  }

  /** `intval(v)`: a string is parsed by the host; an empty array is 0, any other array 1. */
  function IntOf(v: ParamValue, host: Host): int
  {
    match v
    case Str(s) => host.intval(s)
    case List(xs) => if |xs| == 0 then 0 else 1
  }

  /** `sanitize_text_field($_POST[name] ?? default)`. */
  function PostedText(post: Params, name: string, default: string, host: Host): string
  {
    match Get(post, name)
    case Some(v) => TextOf(v, host)
    case None => host.sanitizeText(default)
  }

  /** `intval($_POST[name] ?? default)`. */
  function PostedInt(post: Params, name: string, default: int, host: Host): int
  {
    match Get(post, name)
    case Some(v) => IntOf(v, host)
    case None => default
  }

  /**
   * How PHP turns a decoded query string into `$_GET`: a name ending in `[]`
   * appends to the list under the name without the brackets (replacing a
   * scalar already there), any other name stores a scalar, the last one
   * winning.  Names whose base is empty are dropped.
   */
  function DecodeQuery(pairs: seq<(string, string)>): Params
    decreases |pairs|
  {
    if |pairs| == 0 then []
    else
      var before := DecodeQuery(pairs[..|pairs| - 1]);
      var (name, v) := pairs[|pairs| - 1];
      if |name| > 2 && EndsWith(name, "[]") then
        var base := name[..|name| - 2];
        var cur: Option<ParamValue> := Get(before, base);
        if cur.Some? && cur.value.List? then Put(before, base, List(cur.value.items + [v]))
        else Put(before, base, List([v]))
      else if name == "" || name == "[]" then before
      else Put(before, name, Str(v))
  }
}
