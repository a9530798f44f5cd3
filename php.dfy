/**
 * The part of the PHP runtime the plugin leans on: values and ordered arrays, the `(int)`,
 * `(bool)`, `(array)` and string casts, `empty()`, and the string helpers `strtolower`,
 * `ucwords`, `substr`, `implode`, `preg_replace('/\s+/', ...)` and WordPress's `sanitize_key`,
 * which is simple enough to be modelled concretely.
 *
 * Strings are sequences of single-byte characters; no locale or multibyte behaviour is modelled.
 */
module Php {

  datatype Option<T> = None | Some(value: T)

  /** An array key. PHP arrays are ordered maps keyed by integers or strings. */
  datatype Key = IntKey(n: int) | StrKey(s: string)

  /** The PHP values the plugin handles. Floats and objects other than the plugin's own are not modelled. */
  datatype Value = Null | Bool(b: bool) | Int(i: int) | Str(s: string) | Arr(entries: seq<(Key, Value)>)

  /** An ordered PHP array, as its sequence of entries. */
  type PArray = seq<(Key, Value)>

  // ---------------------------------------------------------------------------------------------
  // Truthiness and casts

  /** `empty($s)` for a string: only "" and "0" are empty. */
  predicate EmptyString(s: string) {
    s == "" || s == "0"
  }

  /** `(bool) $v`, which is also what `if ($v)`, `empty()` (negated) and `?:` test. */
  function ToBool(v: Value): bool {
    match v
    case Null => false
    case Bool(b) => b
    case Int(i) => i != 0
    case Str(s) => !EmptyString(s)
    case Arr(entries) => entries != []
  }

  /** `(array) $v`: null becomes the empty array, a scalar the one-element list `[0 => $v]`. */
  function ToArray(v: Value): PArray {
    match v
    case Null => []
    case Arr(entries) => entries
    case _ => [(IntKey(0), v)]
  }

  /** The whitespace class `\s` of PCRE, and also `ucwords`'s default delimiters: tab, LF, VT, FF, CR, space. */
  predicate IsSpace(c: char) {
    c == ' ' || (9 <= c as int <= 13)
  }

  predicate IsDigit(c: char) {
    '0' <= c <= '9'
  }

  function DigitValue(c: char): nat
    requires IsDigit(c)
  {
    c as int - '0' as int
  }

  /** The longest prefix of `s` made of decimal digits. */
  function DigitPrefix(s: string): (r: string)
    ensures |r| <= |s| && r == s[..|r|]
    ensures forall i :: 0 <= i < |r| ==> IsDigit(r[i])
    ensures |r| < |s| ==> !IsDigit(s[|r|])
  {
    if s != [] && IsDigit(s[0]) then [s[0]] + DigitPrefix(s[1..]) else []
  }

  /** The number a string of decimal digits denotes. */
  function DecimalValue(ds: string): nat
    requires forall i :: 0 <= i < |ds| ==> IsDigit(ds[i])
  {
    if ds == [] then 0 else DecimalValue(ds[..|ds| - 1]) * 10 + DigitValue(ds[|ds| - 1])
  }

  function DropSpaces(s: string): (r: string)
    ensures |r| <= |s| && r == s[|s| - |r|..]
    ensures r == [] || !IsSpace(r[0])
  {
    if s != [] && IsSpace(s[0]) then DropSpaces(s[1..]) else s
  }

  /**
   * `(int) $s` for a string: leading whitespace, an optional sign, then the longest run of
   * digits; a string with no such prefix gives 0 (so "42abc" gives 42 and "abc" gives 0).
   */
  function LeadingInt(s: string): int {
    var t := DropSpaces(s);
    if t != [] && (t[0] == '-' || t[0] == '+') then
      var n: int := DecimalValue(DigitPrefix(t[1..]));
      if t[0] == '-' then -n else n
    else
      DecimalValue(DigitPrefix(t))
  }

  /** `(int) $v`. */
  function ToInt(v: Value): int {
    match v
    case Null => 0
    case Bool(b) => if b then 1 else 0
    case Int(i) => i
    case Str(s) => LeadingInt(s)
    case Arr(entries) => if entries == [] then 0 else 1
  }

  function DigitChar(d: nat): (c: char)
    requires d < 10
    ensures IsDigit(c) && DigitValue(c) == d
  {
    ('0' as int + d) as char
  }

  /** The decimal spelling of a natural number, without leading zeros. */
  function NatToString(n: nat): (r: string)
    ensures r != [] && forall i :: 0 <= i < |r| ==> IsDigit(r[i])
    ensures DecimalValue(r) == n
  {
    if n < 10 then [DigitChar(n)]
    else
      var r := NatToString(n / 10) + [DigitChar(n % 10)];
      assert r[..|r| - 1] == NatToString(n / 10);
      r
  }

  /** The decimal spelling PHP uses when it turns an int into a string. */
  function IntToString(i: int): string {
    if i < 0 then "-" + NatToString(-i) else NatToString(i)
  }

  /** `(string) $v`, as used by string interpolation and concatenation. */
  function ToPhpString(v: Value): string {
    match v
    case Null => ""
    case Bool(b) => if b then "1" else ""
    case Int(i) => IntToString(i)
    case Str(s) => s
    case Arr(_) => "Array"
  }

  // ---------------------------------------------------------------------------------------------
  // Arrays

  /** The value stored under `k`, if any. */
  function Lookup(a: PArray, k: Key): Option<Value> {
    if a == [] then None
    else if a[0].0 == k then Some(a[0].1)
    else Lookup(a[1..], k)
  }

  /** A key is found exactly when some entry has it, and what is found is stored under it. */
  lemma {:induction false} LookupFinds(a: PArray, k: Key)
    ensures Lookup(a, k).Some? <==> exists i :: 0 <= i < |a| && a[i].0 == k
    ensures Lookup(a, k).Some? ==> exists i :: 0 <= i < |a| && a[i] == (k, Lookup(a, k).value)
    decreases |a|
  {
    if a != [] && a[0].0 != k {
      LookupFinds(a[1..], k);
      if exists i :: 0 <= i < |a| && a[i].0 == k {
        var i :| 0 <= i < |a| && a[i].0 == k;
        assert a[1..][i - 1].0 == k;
      }
      if Lookup(a, k).Some? {
        var j :| 0 <= j < |a[1..]| && a[1..][j] == (k, Lookup(a, k).value);
        assert a[j + 1] == (k, Lookup(a, k).value);
      }
    }
  }

  /**
   * True when `s` is a key PHP stores as an integer: "0", or an optional '-' followed by a
   * non-zero digit and further digits ("-0" and "01" stay strings).
   */
  predicate IsCanonicalInt(s: string) {
    var t := if s != [] && s[0] == '-' then s[1..] else s;
    t != [] && DigitPrefix(t) == t && (t[0] != '0' || s == "0")
  }

  /** The key `$a[$s]` uses: canonical decimal strings are turned into integer keys. */
  function KeyOf(s: string): Key {
    if IsCanonicalInt(s) then IntKey(LeadingInt(s)) else StrKey(s)
  }

  /** `$a['key']` for a key that is not a decimal number: the value stored, null when missing. */
  function Get(a: PArray, key: string): Value {
    var r := Lookup(a, StrKey(key));
    if r.Some? then r.value else Null
  }

  /** `isset($a['key'])` for a key that is not a decimal number. */
  predicate Isset(a: PArray, key: string) {
    Get(a, key) != Null
  }

  /** `isset($a[$s])`: the key is present and its value is not null. */
  predicate IssetKey(a: PArray, s: string) {
    var r := Lookup(a, KeyOf(s));
    r.Some? && r.value != Null
  }

  /** `$a[$k] = $v`: an existing key keeps its position and gets the new value; a new key is appended. */
  function ArraySet<K(==), V>(a: seq<(K, V)>, k: K, v: V): seq<(K, V)> {
    if a == [] then [(k, v)]
    else if a[0].0 == k then [(k, v)] + a[1..]
    else [a[0]] + ArraySet(a[1..], k, v)
  }

  /** The list `[0 => vs[0], 1 => vs[1], ...]` that `$a[] = $v` builds from nothing. */
  function ListOf(vs: seq<Value>): (r: PArray)
    ensures |r| == |vs| && forall i :: 0 <= i < |vs| ==> r[i] == (IntKey(i), vs[i])
  {
    seq(|vs|, i requires 0 <= i < |vs| => (IntKey(i), vs[i]))
  }

  /** The values of an array, in order. */
  function Values(a: PArray): (r: seq<Value>)
    ensures |r| == |a| && forall i :: 0 <= i < |a| ==> r[i] == a[i].1
  {
    if a == [] then [] else [a[0].1] + Values(a[1..])
  }

  /**
   * `$a + $b` for two lists (arrays keyed 0, 1, ...): the entries of `b` whose index already
   * occurs in `a` are dropped.
   */
  function ListUnion<T>(a: seq<T>, b: seq<T>): seq<T> {
    if |b| <= |a| then a else a + b[|a|..]
  }

  // ---------------------------------------------------------------------------------------------
  // Strings

  /** `strtolower` on one ASCII character. */
  function Lower(c: char): char {
    if 'A' <= c <= 'Z' then (c as int + 32) as char else c
  }

  function Upper(c: char): char {
    if 'a' <= c <= 'z' then (c as int - 32) as char else c
  }

  /** `strtolower`. */
  function ToLower(s: string): (r: string)
    ensures |r| == |s| && forall i :: 0 <= i < |s| ==> r[i] == Lower(s[i])
  {
    if s == [] then [] else [Lower(s[0])] + ToLower(s[1..])
  }

  /** The characters `sanitize_key` keeps: `[a-z0-9_\-]`. */
  predicate IsKeyChar(c: char) {
    ('a' <= c <= 'z') || IsDigit(c) || c == '_' || c == '-'
  }

  /**
   * WordPress's `sanitize_key`: lower-case, then drop every character outside `[a-z0-9_\-]`
   * (the `sanitize_key` filter hook is not modelled).
   */
  function SanitizeKey(s: string): (r: string)
    ensures |r| <= |s|
    ensures forall i :: 0 <= i < |r| ==> IsKeyChar(r[i])
  {
    if s == [] then []
    else (if IsKeyChar(Lower(s[0])) then [Lower(s[0])] else []) + SanitizeKey(s[1..])
  }

  /**
   * `sanitize_key($v)` for any value: a scalar is converted to a string first, anything else
   * (null, an array) gives the empty string.
   */
  function SanitizeKeyValue(v: Value): string {
    if v.Null? || v.Arr? then "" else SanitizeKey(ToPhpString(v))
  }

  /** `preg_replace('/\s+/', "$sep", $s)`: every maximal run of whitespace becomes one `sep`. */
  function ReplaceSpaceRuns(s: string, sep: char): (r: string)
    ensures !IsSpace(sep) ==> forall i :: 0 <= i < |r| ==> !IsSpace(r[i])
    decreases |s|
  {
    if s == [] then []
    else if IsSpace(s[0]) then [sep] + ReplaceSpaceRuns(DropSpaces(s[1..]), sep)
    else [s[0]] + ReplaceSpaceRuns(s[1..], sep)
  }

  function UcwordsFrom(s: string, atWordStart: bool): (r: string)
    ensures |r| == |s|
  {
    if s == [] then []
    else [if atWordStart then Upper(s[0]) else s[0]] + UcwordsFrom(s[1..], IsSpace(s[0]))
  }

  /** `ucwords`: upper-case the first character and every character that follows whitespace. */
  function Ucwords(s: string): string {
    UcwordsFrom(s, true)
  }

  /** `substr($s, 0, $n)` for `n >= 0`. */
  function Prefix(s: string, n: nat): (r: string)
    ensures |r| == if n < |s| then n else |s|
    ensures r == s[..|r|]
  {
    if n < |s| then s[..n] else s
  }

  /** `implode($sep, $parts)`. */
  function Join(sep: string, parts: seq<string>): string {
    if parts == [] then ""
    else if |parts| == 1 then parts[0]
    else parts[0] + sep + Join(sep, parts[1..])
  }

  /** `implode('', array_map('ucwords', $names))`. */
  function ConcatUcwords(names: seq<string>): string {
    if names == [] then "" else Ucwords(names[0]) + ConcatUcwords(names[1..])
  }

  // ---------------------------------------------------------------------------------------------
  // Properties

  /** Concatenation is associative. */
  lemma ConcatAssoc<T>(x: seq<T>, y: seq<T>, z: seq<T>)
    ensures x + y + z == x + (y + z)
  {
  }

  /** A prefix of `y` is a prefix of `y` extended. */
  lemma PrefixOfAppend<T>(x: seq<T>, y: seq<T>, z: seq<T>)
    requires x <= y
    ensures x <= y + z
  {
    assert (y + z)[..|x|] == y[..|x|];
  }

  /** `$a[$k] = $v` keeps the length when the key is present, and appends when it is not. */
  lemma {:induction false} ArraySetShape<K, V>(a: seq<(K, V)>, k: K, v: V)
    ensures (exists i :: 0 <= i < |a| && a[i].0 == k) ==> |ArraySet(a, k, v)| == |a|
    ensures (forall i :: 0 <= i < |a| ==> a[i].0 != k) ==> ArraySet(a, k, v) == a + [(k, v)]
    decreases |a|
  {
    if a != [] && a[0].0 != k {
      ArraySetShape(a[1..], k, v);
      if exists i :: 0 <= i < |a| && a[i].0 == k {
        var i :| 0 <= i < |a| && a[i].0 == k;
        assert a[1..][i - 1].0 == k;
      }
      if forall i :: 0 <= i < |a| ==> a[i].0 != k {
        assert forall i :: 0 <= i < |a[1..]| ==> a[1..][i].0 != k by {
          forall i | 0 <= i < |a[1..]| ensures a[1..][i].0 != k {
            assert a[1..][i] == a[i + 1];
          }
        }
        assert [a[0]] + (a[1..] + [(k, v)]) == a + [(k, v)];
      }
    }
  }

  /** After `$a[$k] = $v`, the key `k` holds `v` and every other key holds what it held. */
  lemma {:induction false} LookupAfterSet(a: PArray, k: Key, v: Value, k': Key)
    ensures Lookup(ArraySet(a, k, v), k') == if k' == k then Some(v) else Lookup(a, k')
    decreases |a|
  {
    if a != [] && a[0].0 != k {
      LookupAfterSet(a[1..], k, v, k');
      assert ArraySet(a, k, v)[1..] == ArraySet(a[1..], k, v);
    }
  }

  lemma {:induction false} DigitPrefixOfDigits(s: string)
    requires forall i :: 0 <= i < |s| ==> IsDigit(s[i])
    ensures DigitPrefix(s) == s
  {
    if s != [] {
      DigitPrefixOfDigits(s[1..]);
    }
  }

  /** `(int)` reads back the spelling of a natural number. */
  lemma {:induction false} NatStringRoundTrip(n: nat)
    ensures LeadingInt(NatToString(n)) == n
  {
    var ds := NatToString(n);
    DigitPrefixOfDigits(ds);
    assert DropSpaces(ds) == ds by {
      assert !IsSpace(ds[0]) && ds[0] != '-' && ds[0] != '+';
    }
  }

  /** `(int)` reads back the spelling of a negative number. */
  lemma {:induction false} NegStringRoundTrip(n: nat)
    ensures LeadingInt("-" + NatToString(n)) == -(n as int)
  {
    var ds := NatToString(n);
    var s := "-" + ds;
    DigitPrefixOfDigits(ds);
    assert DropSpaces(s) == s;
    assert s[1..] == ds;
  }

  /** `(int)` reads back the decimal text of every integer. */
  lemma IntCastRoundTrip(i: int)
    ensures ToInt(Str(IntToString(i))) == i
  {
    IntStringRoundTrip(i);
  }

  /** The integer prefix of the decimal text of every integer is that integer. */
  lemma {:induction false} IntStringRoundTrip(i: int)
    ensures LeadingInt(IntToString(i)) == i
  {
    if i < 0 {
      assert IntToString(i) == "-" + NatToString(-i);
      NegStringRoundTrip(-i);
    } else {
      assert IntToString(i) == NatToString(i);
      NatStringRoundTrip(i);
    }
  }

  /** `sanitize_key` changes nothing in a string that is already a key. */
  lemma {:induction false} SanitizeKeyFixesKeys(s: string)
    requires forall i :: 0 <= i < |s| ==> IsKeyChar(s[i])
    ensures SanitizeKey(s) == s
  {
    if s != [] {
      SanitizeKeyFixesKeys(s[1..]);
    }
  }

  lemma SanitizeKeyIdempotent(s: string)
    ensures SanitizeKey(SanitizeKey(s)) == SanitizeKey(s)
  {
    SanitizeKeyFixesKeys(SanitizeKey(s));
  }

  /** The whitespace replacement changes nothing in a string without whitespace. */
  lemma {:induction false} ReplaceSpaceRunsFixesWords(s: string, sep: char)
    requires forall i :: 0 <= i < |s| ==> !IsSpace(s[i])
    ensures ReplaceSpaceRuns(s, sep) == s
    decreases |s|
  {
    if s != [] {
      ReplaceSpaceRunsFixesWords(s[1..], sep);
    }
  }

  /** `sanitize_key` of a string whose characters all lower-case to key characters is its lower case. */
  lemma {:induction false} SanitizeKeyLowers(s: string)
    requires forall i :: 0 <= i < |s| ==> IsKeyChar(Lower(s[i]))
    ensures SanitizeKey(s) == ToLower(s)
  {
    if s != [] {
      SanitizeKeyLowers(s[1..]);
    }
  }

  /** `sanitize_key` works character by character, so it distributes over concatenation. */
  lemma {:induction false} SanitizeKeyAppend(x: string, y: string)
    ensures SanitizeKey(x + y) == SanitizeKey(x) + SanitizeKey(y)
  {
    if x == [] {
      assert x + y == y;
    } else {
      assert (x + y)[0] == x[0] && (x + y)[1..] == x[1..] + y;
      SanitizeKeyAppend(x[1..], y);
    }
  }

  /** One space between two words becomes `sep`. */
  lemma {:induction false} ReplaceSpaceRunsJoins(a: string, b: string, sep: char)
    requires forall i :: 0 <= i < |a| ==> !IsSpace(a[i])
    requires forall i :: 0 <= i < |b| ==> !IsSpace(b[i])
    ensures ReplaceSpaceRuns(a + " " + b, sep) == a + [sep] + b
    decreases |a|
  {
    if a == [] {
      assert a + " " + b == [' '] + b;
      assert (a + " " + b)[1..] == b;
      assert DropSpaces(b) == b;
      ReplaceSpaceRunsFixesWords(b, sep);
    } else {
      assert (a + " " + b)[1..] == a[1..] + " " + b;
      ReplaceSpaceRunsJoins(a[1..], b, sep);
    }
  }
}
