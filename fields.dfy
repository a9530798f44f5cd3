/**
 * The field schema of wp-fields.php: `WP_Field` and its concrete classes, the form keys derived
 * from a field's group path, the nesting of repeaters, and the sanitizers.
 *
 * A field is an object (`class Field`): `add_group` changes its `groups` in place and a repeater
 * pushes its key into every descendant. Everything else about a field is fixed by its
 * constructor, so those members are `const`. `Tree()` is the value a field stands for, and the
 * properties of names, ids and nesting are proved about that value (`FieldData`).
 */
module Fields {
  import opened Php
  import opened WordPress

  /** The concrete classes; each of them extends `WP_Field` directly. */
  datatype FieldKind = Html | Text | Integer | Url | CheckBox | List | TaxonomyList | Repeater

  /** The `$args` of `WP_Field::__construct`; `None` stands for a key that is not set. */
  datatype FieldArgs = FieldArgs(
    labelText: Option<string>,
    groups: Option<Value>,
    cssClasses: Option<Value>,
    whitelist: Option<Value>,
    whitelistTaxonomy: Option<string>)

  const NoArgs := FieldArgs(None, None, None, None, None)

  /** The `$render_hint` each class declares; "" stands for the inherited, unset (null) hint. */
  function RenderHint(kind: FieldKind): string {
    match kind
    case Html => "textarea"
    case Text => "text"
    case Integer => "number"
    case Url => "url"
    case CheckBox => "checkbox"
    case _ => ""
  }

  /** The value of a field: everything its object holds, with a repeater's children as values too. */
  datatype FieldData = FieldData(
    kind: FieldKind,
    fieldName: string,
    labelText: string,
    groups: seq<string>,
    cssClasses: string,
    whitelist: PArray,
    whitelistTaxonomy: string,
    children: seq<FieldData>)

  // ---------------------------------------------------------------------------------------------
  // Construction

  /** The extra classes of `css_classes`, used only when they are given as an array. */
  function ExtraClasses(arg: Option<Value>): seq<string> {
    if arg.Some? && arg.value.Arr? then
      var vs := Values(arg.value.entries);
      seq(|vs|, i requires 0 <= i < |vs| => ToPhpString(vs[i]))
    else []
  }

  /**
   * What `WP_Field::__construct` (and, for a taxonomy list, its own constructor) stores.
   *  - `groups` is always empty: line 62 reads `$arg['groups']`, an undefined variable, so the
   *    groups passed in `$args` are dropped.
   *  - the css class is `field-type-WP_Field` whatever the field's class: `get_class()` without
   *    an argument names the class the constructor is written in.
   *  - the `array_walk` calls with `sanitize_key`, `sanitize_html_class` and `sanitize_text_field`
   *    discard their callbacks' results, so they change nothing.
   */
  function InitialData(kind: FieldKind, fieldName: string, args: FieldArgs, wp: Env): (d: FieldData)
    ensures d.kind == kind && d.children == []
    ensures d.groups == []
    ensures d.fieldName == wp.sanitizeTextField(fieldName)
    ensures d.labelText == wp.sanitizeTextField(if args.labelText.Some? then args.labelText.value else fieldName)
    ensures d.whitelist == if args.whitelist.Some? then ToArray(args.whitelist.value) else []
    ensures d.whitelistTaxonomy != "" ==> kind == TaxonomyList && wp.taxonomyExists(d.whitelistTaxonomy)
  {
    FieldData(
      kind,
      wp.sanitizeTextField(fieldName),
      wp.sanitizeTextField(if args.labelText.Some? then args.labelText.value else fieldName),
      [],
      Join(" ", ["field-type-WP_Field"] + ExtraClasses(args.cssClasses)),
      if args.whitelist.Some? then ToArray(args.whitelist.value) else [],
      if kind == TaxonomyList && args.whitelistTaxonomy.Some? && wp.taxonomyExists(args.whitelistTaxonomy.value)
      then args.whitelistTaxonomy.value else "",
      [])
  }

  /**
   * The css class names `WP_Field` for every field class: two fields built from the same name
   * and `$args` get the same classes, whatever their kinds, and they start with
   * `field-type-WP_Field`; without extra classes that is all of them.
   */
  lemma CssClassIgnoresKind(k1: FieldKind, k2: FieldKind, fieldName: string, args: FieldArgs, wp: Env)
    ensures InitialData(k1, fieldName, args, wp).cssClasses == InitialData(k2, fieldName, args, wp).cssClasses
    ensures "field-type-WP_Field" <= InitialData(k1, fieldName, args, wp).cssClasses
    ensures ExtraClasses(args.cssClasses) == [] ==> InitialData(k1, fieldName, args, wp).cssClasses == "field-type-WP_Field"
  {
    var extra := ExtraClasses(args.cssClasses);
    var parts := ["field-type-WP_Field"] + extra;
    if extra != [] {
      assert parts[1..] == extra;
      var rest := " " + Join(" ", extra);
      assert Join(" ", parts) == "field-type-WP_Field" + rest;
      PrefixOfAppend("field-type-WP_Field", "field-type-WP_Field", rest);
    } else {
      assert parts == ["field-type-WP_Field"];
    }
  }

  // ---------------------------------------------------------------------------------------------
  // Keys derived from the name and the group path

  /** `sanitize_key(preg_replace('/\s+/', $sep, $field_name))`. */
  function FieldKey(fieldName: string, sep: char): (r: string)
    ensures forall i :: 0 <= i < |r| ==> IsKeyChar(r[i])
  {
    SanitizeKey(ReplaceSpaceRuns(fieldName, sep))
  }

  /** The group a repeater pushes into its children (wp-fields.php:355). */
  function RepeaterKey(d: FieldData): string {
    FieldKey(d.fieldName, '_')
  }

  /**
   * `name()`. The union `$this->groups + (array) $key` at line 100 keeps index 0 of the groups,
   * so the field's own key survives only when there are no groups; line 103 then implodes all
   * of `$this->groups`, not the ones left after the shift, so `groups[0]` appears twice.
   */
  function NameOf(groups: seq<string>, fieldName: string): (r: string)
    ensures groups == [] ==> r == FieldKey(fieldName, '_')
    ensures |groups| == 1 ==> r == groups[0]
    ensures |groups| > 1 ==> r == groups[0] + "[" + Join("][", groups) + "]"
  {
    var all := ListUnion(groups, [FieldKey(fieldName, '_')]);
    var rest := all[1..];
    all[0] + (if rest == [] then "" else "[" + Join("][", groups) + "]")
  }

  /** `id()`: the groups joined by '-'. The field's own name never takes part (line 115). */
  function IdOf(groups: seq<string>): string {
    if groups == [] then "" else Join("-", groups)
  }

  /** `explode($sep, $s)`: the pieces of `s` between the occurrences of `sep`. */
  function SplitOn(s: string, sep: char): (r: seq<string>)
    ensures |r| >= 1
  {
    if s == [] then [""]
    else
      var rest := SplitOn(s[1..], sep);
      if s[0] == sep then [""] + rest else [[s[0]] + rest[0]] + rest[1..]
  }

  /** A piece without the separator is not split. */
  lemma {:induction false} SplitOnWord(w: string, sep: char)
    requires sep !in w
    ensures SplitOn(w, sep) == [w]
  {
    if w != [] {
      SplitOnWord(w[1..], sep);
      assert [w[0]] + w[1..] == w;
    }
  }

  /** A piece followed by the separator splits off as the first piece. */
  lemma {:induction false} SplitOnFirst(w: string, rest: string, sep: char)
    requires sep !in w
    ensures SplitOn(w + [sep] + rest, sep) == [w] + SplitOn(rest, sep)
  {
    if w == [] {
      assert w + [sep] + rest == [sep] + rest;
      assert ([sep] + rest)[1..] == rest;
    } else {
      assert (w + [sep] + rest)[1..] == w[1..] + [sep] + rest;
      SplitOnFirst(w[1..], rest, sep);
      assert [w[0]] + w[1..] == w;
    }
  }

  /**
   * `id()` loses nothing of a group path whose groups hold no '-': splitting it at '-' gives the
   * groups back, so different such paths have different ids.
   */
  lemma {:induction false} IdSplitsIntoGroups(groups: seq<string>)
    requires groups != []
    requires forall i :: 0 <= i < |groups| ==> '-' !in groups[i]
    ensures SplitOn(IdOf(groups), '-') == groups
    decreases |groups|
  {
    if |groups| == 1 {
      SplitOnWord(groups[0], '-');
    } else {
      IdSplitsIntoGroups(groups[1..]);
      assert IdOf(groups) == groups[0] + "-" + IdOf(groups[1..]);
      SplitOnFirst(groups[0], IdOf(groups[1..]), '-');
    }
  }

  lemma NameIgnoresFieldName(groups: seq<string>, a: string, b: string)
    requires groups != []
    ensures NameOf(groups, a) == NameOf(groups, b)
    ensures NameOf(groups, a)[..|groups[0]|] == groups[0]
  {
  }

  // ---------------------------------------------------------------------------------------------
  // Group propagation, on values

  /** `groups` prepended with `g`, in the field and in every descendant. */
  function Prepend(d: FieldData, g: string): (r: FieldData)
    ensures r.(groups := d.groups, children := d.children) == d
    ensures r.groups == [g] + d.groups && |r.children| == |d.children|
    decreases d
  {
    d.(groups := [g] + d.groups,
       children := seq(|d.children|, i requires 0 <= i < |d.children| => Prepend(d.children[i], g)))
  }

  /** `add_group($group)`: only a string that is not empty (neither "" nor "0") is added. */
  function AddGroupTo(d: FieldData, group: Value): FieldData {
    if group.Str? && !EmptyString(group.s) then Prepend(d, group.s) else d
  }

  /** The repeater `base` holding `kids`, each given the repeater's key (wp-fields.php:351-361). */
  function Attach(base: FieldData, kids: seq<FieldData>): (r: FieldData)
    ensures r.(children := []) == base.(children := [])
    ensures |r.children| == |kids|
  {
    base.(children := seq(|kids|, i requires 0 <= i < |kids| => AddGroupTo(kids[i], Str(RepeaterKey(base)))))
  }

  /** A path of child indices from `d` down to one of its descendants. */
  ghost predicate IsPath(d: FieldData, path: seq<nat>)
    decreases |path|
  {
    path == [] || (path[0] < |d.children| && IsPath(d.children[path[0]], path[1..]))
  }

  function Sub(d: FieldData, path: seq<nat>): FieldData
    requires IsPath(d, path)
    decreases |path|
  {
    if path == [] then d else Sub(d.children[path[0]], path[1..])
  }

  /** The keys of the repeaters that `path` passes through, outermost first. */
  function KeysAlong(d: FieldData, path: seq<nat>): seq<string>
    requires IsPath(d, path)
    decreases |path|
  {
    if path == [] then [] else [RepeaterKey(d)] + KeysAlong(d.children[path[0]], path[1..])
  }

  /** Prepending reaches every descendant, and only changes groups. */
  lemma {:induction false} PrependReachesEveryDescendant(d: FieldData, g: string, path: seq<nat>)
    requires IsPath(d, path)
    ensures IsPath(Prepend(d, g), path)
    ensures Sub(Prepend(d, g), path) == Prepend(Sub(d, path), g)
    ensures Sub(Prepend(d, g), path).groups == [g] + Sub(d, path).groups
    decreases |path|
  {
    if path != [] {
      PrependReachesEveryDescendant(d.children[path[0]], g, path[1..]);
    }
  }

  /**
   * The nesting invariant: every child of a field has the field's groups followed by the
   * field's own repeater key.
   */
  ghost predicate Nested(d: FieldData)
    decreases d
  {
    forall i :: 0 <= i < |d.children| ==>
      d.children[i].groups == d.groups + [RepeaterKey(d)] && Nested(d.children[i])
  }

  lemma {:induction false} PrependKeepsNesting(d: FieldData, g: string)
    requires Nested(d)
    ensures Nested(Prepend(d, g))
    decreases d
  {
    var r := Prepend(d, g);
    forall i | 0 <= i < |r.children|
      ensures r.children[i].groups == r.groups + [RepeaterKey(r)] && Nested(r.children[i])
    {
      PrependKeepsNesting(d.children[i], g);
    }
  }

  /**
   * Building a repeater from freshly built fields (no groups yet, each nested itself) gives a
   * nested field, as long as its key is a group `add_group` accepts.
   */
  lemma AttachEstablishesNesting(base: FieldData, kids: seq<FieldData>)
    requires base.groups == [] && !EmptyString(RepeaterKey(base))
    requires forall i :: 0 <= i < |kids| ==> kids[i].groups == [] && Nested(kids[i])
    ensures Nested(Attach(base, kids))
  {
    var r := Attach(base, kids);
    forall i | 0 <= i < |kids|
      ensures r.children[i].groups == r.groups + [RepeaterKey(r)] && Nested(r.children[i])
    {
      PrependKeepsNesting(kids[i], RepeaterKey(base));
    }
  }

  /** In a nested field, a descendant's groups are the keys of its ancestor repeaters, outermost first. */
  lemma {:induction false} GroupsAreAncestorKeys(d: FieldData, path: seq<nat>)
    requires Nested(d) && IsPath(d, path)
    ensures Sub(d, path).groups == d.groups + KeysAlong(d, path)
    decreases |path|
  {
    if path != [] {
      var c := d.children[path[0]];
      GroupsAreAncestorKeys(c, path[1..]);
    }
  }

  /**
   * In a nested field, all children of a repeater get the same `name()` and the same `id()`,
   * whatever their own names: the form cannot tell them apart.
   */
  lemma SiblingsShareName(d: FieldData, i: nat, j: nat)
    requires Nested(d) && i < |d.children| && j < |d.children|
    ensures NameOf(d.children[i].groups, d.children[i].fieldName) == NameOf(d.children[j].groups, d.children[j].fieldName)
    ensures IdOf(d.children[i].groups) == IdOf(d.children[j].groups)
  {
    var g := d.children[i].groups;
    assert g == d.children[j].groups == d.groups + [RepeaterKey(d)];
    NameIgnoresFieldName(g, d.children[i].fieldName, d.children[j].fieldName);
  }

  // ---------------------------------------------------------------------------------------------
  // Sanitizing and escaping, on values

  /** `in_array($v, $a)`; PHP's loose comparison is approximated by equality. */
  predicate InArray(v: Value, a: PArray) {
    exists i :: 0 <= i < |a| && a[i].1 == v
  }

  /** `WP_Field_List::sanitize` on an array: whitelisted entries, mapped through `sanitize_key`, in order. */
  function WhitelistFilter(a: PArray, whitelist: PArray): PArray
    decreases |a|
  {
    if a == [] then []
    else
      var last := a[|a| - 1];
      WhitelistFilter(a[..|a| - 1], whitelist)
      + (if InArray(last.1, whitelist) then [(last.0, Str(SanitizeKeyValue(last.1)))] else [])
  }

  /** `WP_Field_Taxonomy_List::sanitize` on an array: the entries naming a term of the taxonomy. */
  function TermFilter(a: PArray, taxonomy: string, wp: Env): PArray
    decreases |a|
  {
    if a == [] then []
    else
      var last := a[|a| - 1];
      TermFilter(a[..|a| - 1], taxonomy, wp) + (if wp.termExists(last.1, taxonomy) then [last] else [])
  }

  /** What each class's `sanitize` returns (a repeater's is empty and returns null). */
  function Sanitized(kind: FieldKind, whitelist: PArray, taxonomy: string, v: Value, wp: Env): Value {
    match kind
    case Html => Str(wp.ksesPost(ToPhpString(v)))
    case Text => Str(wp.sanitizeTextField(ToPhpString(v)))
    case Integer => Int(ToInt(v))
    case Url => Str(wp.escUrlRaw(ToPhpString(v)))
    case CheckBox => Bool(ToBool(v))
    case List => Arr(WhitelistFilter(ToArray(v), whitelist))
    case TaxonomyList => Arr(TermFilter(ToArray(v), taxonomy, wp))
    case Repeater => Null
  }

  /**
   * What each class's `esc_value` returns. The HTML field calls `esc_textarea` without
   * returning it, and the two list fields `array_walk` a callback whose result is discarded, so
   * they hand back `(array) $values` unchanged.
   */
  function Escaped(kind: FieldKind, v: Value, wp: Env): Value {
    match kind
    case Html => Null
    case Text => Str(wp.escTextarea(ToPhpString(v)))
    case Integer => Int(ToInt(v))
    case Url => Str(wp.escUrl(ToPhpString(v)))
    case CheckBox => Bool(ToBool(v))
    case List => Arr(ToArray(v))
    case TaxonomyList => Arr(ToArray(v))
    case Repeater => Null
  }

  /** The integer field reads back every integer it is given as text. */
  lemma IntegerFieldRoundTrip(i: int, whitelist: PArray, taxonomy: string, wp: Env)
    ensures Sanitized(Integer, whitelist, taxonomy, Str(IntToString(i)), wp) == Int(i)
  {
    IntCastRoundTrip(i);
  }

  /** Every entry the list field keeps comes, under the same key, from a whitelisted entry of the input. */
  lemma {:induction false} WhitelistFilterSound(a: PArray, whitelist: PArray)
    ensures |WhitelistFilter(a, whitelist)| <= |a|
    ensures forall e :: e in WhitelistFilter(a, whitelist) ==>
      exists j :: 0 <= j < |a| && a[j].0 == e.0 && InArray(a[j].1, whitelist) && e.1 == Str(SanitizeKeyValue(a[j].1))
    decreases |a|
  {
    if a != [] {
      var p := a[..|a| - 1];
      WhitelistFilterSound(p, whitelist);
      forall e | e in WhitelistFilter(a, whitelist)
        ensures exists j :: 0 <= j < |a| && a[j].0 == e.0 && InArray(a[j].1, whitelist) && e.1 == Str(SanitizeKeyValue(a[j].1))
      {
        if e in WhitelistFilter(p, whitelist) {
          var j :| 0 <= j < |p| && p[j].0 == e.0 && InArray(p[j].1, whitelist) && e.1 == Str(SanitizeKeyValue(p[j].1));
          assert a[j] == p[j];
        } else {
          assert a[|a| - 1].0 == e.0;
        }
      }
    }
  }

  /** Every whitelisted entry of the input is kept, under its key, with its value passed through `sanitize_key`. */
  lemma {:induction false} WhitelistFilterComplete(a: PArray, whitelist: PArray, j: nat)
    requires j < |a| && InArray(a[j].1, whitelist)
    ensures (a[j].0, Str(SanitizeKeyValue(a[j].1))) in WhitelistFilter(a, whitelist)
    decreases |a|
  {
    if j < |a| - 1 {
      WhitelistFilterComplete(a[..|a| - 1], whitelist, j);
    }
  }

  /**
   * The list field's `sanitize` is not idempotent: the whitelist is compared before
   * `sanitize_key` lower-cases the value, so a value it kept can fail the whitelist the next time.
   */
  lemma ListSanitizeNotIdempotent(wp: Env)
    ensures
      var whitelist := [(IntKey(0), Str("A"))];
      var once := Sanitized(List, whitelist, "", Str("A"), wp);
      once == Arr([(IntKey(0), Str("a"))]) &&
      Sanitized(List, whitelist, "", once, wp) == Arr([])
  {
    var whitelist := [(IntKey(0), Str("A"))];
    var input := [(IntKey(0), Str("A"))];
    var output := [(IntKey(0), Str("a"))];
    assert InArray(Str("A"), whitelist) by {
      assert whitelist[0].1 == Str("A");
    }
    assert !InArray(Str("a"), whitelist) by {
      assert whitelist[0].1 != Str("a");
    }
    assert SanitizeKeyValue(Str("A")) == "a" by {
      assert SanitizeKey("A"[1..]) == [];
    }
    assert input[..0] == [] && output[..0] == [];
    assert WhitelistFilter(input, whitelist) == output;
    assert WhitelistFilter(output, whitelist) == [];
  }

  /** With a whitelist of values that are already keys, sanitizing twice gives what sanitizing once gives. */
  lemma {:induction false} WhitelistFilterIdempotent(a: PArray, whitelist: PArray)
    requires forall i :: 0 <= i < |whitelist| ==>
      whitelist[i].1.Str? && SanitizeKey(whitelist[i].1.s) == whitelist[i].1.s
    ensures WhitelistFilter(WhitelistFilter(a, whitelist), whitelist) == WhitelistFilter(a, whitelist)
    decreases |a|
  {
    if a != [] {
      var p := a[..|a| - 1];
      var last := a[|a| - 1];
      WhitelistFilterIdempotent(p, whitelist);
      var fp := WhitelistFilter(p, whitelist);
      if InArray(last.1, whitelist) {
        var i :| 0 <= i < |whitelist| && whitelist[i].1 == last.1;
        var kept := (last.0, Str(SanitizeKeyValue(last.1)));
        assert kept.1 == last.1;
        assert (fp + [kept])[..|fp|] == fp;
        assert WhitelistFilter(fp + [kept], whitelist) == WhitelistFilter(fp, whitelist) + [kept];
      } else {
        assert WhitelistFilter(a, whitelist) == fp;
      }
    }
  }

  /** The taxonomy list field keeps exactly the entries of the input that name a term of its taxonomy. */
  lemma {:induction false} TermFilterExact(a: PArray, taxonomy: string, wp: Env)
    ensures forall e :: e in TermFilter(a, taxonomy, wp) <==> e in a && wp.termExists(e.1, taxonomy)
    decreases |a|
  {
    if a != [] {
      TermFilterExact(a[..|a| - 1], taxonomy, wp);
      assert a == a[..|a| - 1] + [a[|a| - 1]];
    }
  }

  /** Sanitizing a taxonomy list a second time changes nothing. */
  lemma {:induction false} TermFilterIdempotent(a: PArray, taxonomy: string, wp: Env)
    ensures TermFilter(TermFilter(a, taxonomy, wp), taxonomy, wp) == TermFilter(a, taxonomy, wp)
    decreases |a|
  {
    if a != [] {
      var p := a[..|a| - 1];
      var last := a[|a| - 1];
      TermFilterIdempotent(p, taxonomy, wp);
      var fp := TermFilter(p, taxonomy, wp);
      if wp.termExists(last.1, taxonomy) {
        assert (fp + [last])[..|fp|] == fp;
        assert TermFilter(fp + [last], taxonomy, wp) == TermFilter(fp, taxonomy, wp) + [last];
      } else {
        assert TermFilter(a, taxonomy, wp) == fp;
      }
    }
  }

  /**
   * The form key of a name of two words: each lower-cased, joined by an underscore; so a field
   * named 'Inner Int' (when `sanitize_text_field` leaves the name alone) has the key `inner_int`.
   */
  lemma TwoWordKey(a: string, b: string)
    requires forall i :: 0 <= i < |a| ==> !IsSpace(a[i]) && IsKeyChar(Lower(a[i]))
    requires forall i :: 0 <= i < |b| ==> !IsSpace(b[i]) && IsKeyChar(Lower(b[i]))
    ensures FieldKey(a + " " + b, '_') == ToLower(a) + "_" + ToLower(b)
  {
    var u := "_";
    ReplaceSpaceRunsJoins(a, b, '_');
    assert ReplaceSpaceRuns(a + " " + b, '_') == a + u + b;
    SanitizeKeyAppend(a + u, b);
    SanitizeKeyAppend(a, u);
    assert SanitizeKey(u) == u by { assert u[1..] == []; }
    SanitizeKeyLowers(a);
    SanitizeKeyLowers(b);
  }

  /** The check box stores true exactly for a truthy value: "", "0" and null all mean unchecked. */
  lemma CheckBoxValues(whitelist: PArray, taxonomy: string, wp: Env)
    ensures Sanitized(CheckBox, whitelist, taxonomy, Str("0"), wp) == Bool(false)
    ensures Sanitized(CheckBox, whitelist, taxonomy, Str(""), wp) == Bool(false)
    ensures Sanitized(CheckBox, whitelist, taxonomy, Null, wp) == Bool(false)
    ensures Sanitized(CheckBox, whitelist, taxonomy, Str("1"), wp) == Bool(true)
  {
  }

  /** The integer and check-box fields escape a value as they sanitize it, and a second pass changes nothing. */
  lemma CoercingFieldsStable(kind: FieldKind, v: Value, whitelist: PArray, taxonomy: string, wp: Env)
    requires kind == Integer || kind == CheckBox
    ensures Escaped(kind, v, wp) == Sanitized(kind, whitelist, taxonomy, v, wp)
    ensures Sanitized(kind, whitelist, taxonomy, Sanitized(kind, whitelist, taxonomy, v, wp), wp)
      == Sanitized(kind, whitelist, taxonomy, v, wp)
  {
  }

  /** The list field judges each entry on its own: the entries it keeps stay in input order. */
  lemma {:induction false} WhitelistFilterAppend(a: PArray, b: PArray, whitelist: PArray)
    ensures WhitelistFilter(a + b, whitelist) == WhitelistFilter(a, whitelist) + WhitelistFilter(b, whitelist)
    decreases |b|
  {
    if b == [] {
      assert a + b == a;
    } else {
      var p := b[..|b| - 1];
      assert (a + b)[..|a + b| - 1] == a + p && (a + b)[|a + b| - 1] == b[|b| - 1];
      WhitelistFilterAppend(a, p, whitelist);
    }
  }

  /** The taxonomy list field judges each entry on its own: the entries it keeps stay in input order. */
  lemma {:induction false} TermFilterAppend(a: PArray, b: PArray, taxonomy: string, wp: Env)
    ensures TermFilter(a + b, taxonomy, wp) == TermFilter(a, taxonomy, wp) + TermFilter(b, taxonomy, wp)
    decreases |b|
  {
    if b == [] {
      assert a + b == a;
    } else {
      var p := b[..|b| - 1];
      assert (a + b)[..|a + b| - 1] == a + p && (a + b)[|a + b| - 1] == b[|b| - 1];
      TermFilterAppend(a, p, taxonomy, wp);
    }
  }

  // ---------------------------------------------------------------------------------------------
  // Field objects

  /** The objects of a list of fields, all their descendants included. */
  ghost function Footprint(fs: seq<Field?>): set<object>
    decreases |fs|
  {
    if fs == [] then {}
    else Footprint(fs[..|fs| - 1]) + (if fs[|fs| - 1] == null then {} else fs[|fs| - 1].Repr)
  }

  lemma {:induction false} FootprintCovers(fs: seq<Field?>, k: nat)
    requires k < |fs| && fs[k] != null
    ensures fs[k].Repr <= Footprint(fs)
    decreases |fs|
  {
    if k < |fs| - 1 {
      FootprintCovers(fs[..|fs| - 1], k);
    }
  }

  lemma {:induction false} FootprintWithin(fs: seq<Field?>, s: set<object>)
    requires forall k :: 0 <= k < |fs| && fs[k] != null ==> fs[k].Repr <= s
    ensures Footprint(fs) <= s
    decreases |fs|
  {
    if fs != [] {
      FootprintWithin(fs[..|fs| - 1], s);
    }
  }

  /** The fields of a list that are objects whose parent class is `WP_Field` (here: all non-null ones). */
  function NonNull(fs: seq<Field?>): (r: seq<Field>)
    ensures |r| <= |fs|
    ensures forall k :: 0 <= k < |r| ==> r[k] in fs && r[k].Repr <= Footprint(fs)
  {
    if fs == [] then []
    else if fs[|fs| - 1] == null then NonNull(fs[..|fs| - 1])
    else NonNull(fs[..|fs| - 1]) + [fs[|fs| - 1]]
  }

  /**
   * What the repeater constructor needs of its children: they are valid and pairwise disjoint,
   * and the fields among them stand for `kids`, in order.
   */
  ghost predicate Adoptable(children: seq<Field?>, kids: seq<FieldData>)
    reads Footprint(children)
  {
    (forall k :: 0 <= k < |children| && children[k] != null ==> children[k].Valid()) &&
    (forall k, l :: 0 <= k < l < |children| && children[k] != null && children[l] != null ==>
      children[k].Repr !! children[l].Repr) &&
    |kids| == |NonNull(children)| &&
    (forall k :: 0 <= k < |kids| ==> NonNull(children)[k].Valid() && NonNull(children)[k].Tree() == kids[k])
  }

  /** The fields `NonNull` keeps are pairwise disjoint when the list's fields are. */
  lemma {:induction false} NonNullDisjoint(fs: seq<Field?>)
    requires forall k, l :: 0 <= k < l < |fs| && fs[k] != null && fs[l] != null ==> fs[k].Repr !! fs[l].Repr
    ensures forall k, l :: 0 <= k < l < |NonNull(fs)| ==> NonNull(fs)[k].Repr !! NonNull(fs)[l].Repr
    decreases |fs|
  {
    if fs != [] {
      var p := fs[..|fs| - 1];
      NonNullDisjoint(p);
      if fs[|fs| - 1] != null {
        forall k | 0 <= k < |NonNull(p)|
          ensures NonNull(p)[k].Repr !! fs[|fs| - 1].Repr
        {
          var j :| 0 <= j < |p| && p[j] == NonNull(p)[k];
        }
      }
    }
  }

  /** A list without null keeps all its fields. */
  lemma {:induction false} NonNullOfFields(fs: seq<Field>)
    ensures NonNull(fs) == fs
    decreases |fs|
  {
    if fs != [] {
      NonNullOfFields(fs[..|fs| - 1]);
    }
  }

  lemma FootprintOfTwo(a: Field, b: Field)
    ensures Footprint([a, b]) == a.Repr + b.Repr
  {
    var s: seq<Field?> := [a, b];
    assert s[..1] == [a];
    assert s[..1][..0] == [];
    assert Footprint(s[..1]) == a.Repr;
  }

  lemma FootprintOfThree(a: Field, b: Field, c: Field)
    ensures Footprint([a, b, c]) == a.Repr + b.Repr + c.Repr
  {
    var s: seq<Field?> := [a, b, c];
    assert s[..2] == [a, b];
    FootprintOfTwo(a, b);
  }

  /** Valid, pairwise disjoint fields standing for `kids` are ready to be adopted by a repeater. */
  lemma AdoptAll(fs: seq<Field>, kids: seq<FieldData>)
    requires |kids| == |fs|
    requires forall k :: 0 <= k < |fs| ==> fs[k].Valid() && fs[k].Tree() == kids[k]
    requires forall k, l :: 0 <= k < l < |fs| ==> fs[k].Repr !! fs[l].Repr
    ensures Adoptable(fs, kids)
  {
    NonNullOfFields(fs);
  }

  lemma AdoptTwo(a: Field, b: Field, ka: FieldData, kb: FieldData)
    requires a.Valid() && b.Valid() && a.Tree() == ka && b.Tree() == kb && a.Repr !! b.Repr
    ensures Adoptable([a, b], [ka, kb])
    ensures Footprint([a, b]) == a.Repr + b.Repr
  {
    AdoptAll([a, b], [ka, kb]);
    FootprintOfTwo(a, b);
  }

  lemma AdoptThree(a: Field, b: Field, c: Field, ka: FieldData, kb: FieldData, kc: FieldData)
    requires a.Valid() && b.Valid() && c.Valid() && a.Tree() == ka && b.Tree() == kb && c.Tree() == kc
    requires a.Repr !! b.Repr && a.Repr !! c.Repr && b.Repr !! c.Repr
    ensures Adoptable([a, b, c], [ka, kb, kc])
    ensures Footprint([a, b, c]) == a.Repr + b.Repr + c.Repr
  {
    AdoptAll([a, b, c], [ka, kb, kc]);
    FootprintOfThree(a, b, c);
  }

  /** A repeater whose children are valid, disjoint and its own is valid. */
  lemma RepeaterValid(f: Field)
    requires f.kind == Repeater && f in f.Repr
    requires forall i :: 0 <= i < |f.fields| ==>
      f.fields[i].Valid() && f.fields[i].Repr <= f.Repr && f !in f.fields[i].Repr
    requires forall i, j :: 0 <= i < j < |f.fields| ==> f.fields[i].Repr !! f.fields[j].Repr
    ensures f.Valid()
  {
  }

  /** The value of a repeater whose children were each given its key. */
  lemma RepeaterTree(f: Field, base: FieldData, kids: seq<FieldData>)
    requires f.Valid() && f.kind == Repeater && base.kind == Repeater
    requires f.fieldName == base.fieldName && f.labelText == base.labelText && f.groups == base.groups
    requires f.cssClasses == base.cssClasses && f.whitelist == base.whitelist
    requires f.whitelistTaxonomy == base.whitelistTaxonomy && |kids| == |f.fields|
    requires forall k :: 0 <= k < |kids| ==> f.fields[k].Tree() == AddGroupTo(kids[k], Str(RepeaterKey(base)))
    ensures f.Tree() == Attach(base, kids)
  {
    assert f.Tree().children == Attach(base, kids).children;
  }

  class Field {
    const kind: FieldKind
    const fieldName: string
    const labelText: string
    /** The only state that changes after construction: `add_group` prepends to it. */
    var groups: seq<string>
    const cssClasses: string
    const whitelist: PArray
    const whitelistTaxonomy: string
    /** A repeater's children (`$this->fields`); empty for every other class. */
    const fields: seq<Field>
    /** This object and all of its descendants. */
    ghost const Repr: set<object>

    /** The children form a tree: each owns its own objects, disjoint from its siblings'. */
    ghost predicate Valid()
      decreases Repr
    {
      this in Repr &&
      (kind != FieldKind.Repeater ==> fields == []) &&
      (forall i :: 0 <= i < |fields| ==>
        fields[i] in Repr && fields[i].Repr <= Repr && this !in fields[i].Repr && fields[i].Valid()) &&
      (forall i, j :: 0 <= i < j < |fields| ==> fields[i].Repr !! fields[j].Repr)
    }

    /** The value this field stands for, its children included. */
    function Tree(): (d: FieldData)
      requires Valid()
      reads Repr
      ensures d.kind == kind && d.fieldName == fieldName && d.groups == groups
      ensures |d.children| == |fields|
      decreases Repr
    {
      FieldData(kind, fieldName, labelText, groups, cssClasses, whitelist, whitelistTaxonomy,
        seq(|fields|, i requires 0 <= i < |fields| reads Repr => fields[i].Tree()))
    }

    /** `new WP_Field_<kind>($field_name, $args)` for every class but the repeater. */
    constructor (kind: FieldKind, fieldName: string, args: FieldArgs, wp: Env)
      requires kind != FieldKind.Repeater
      ensures Valid() && Repr == {this}
      ensures Tree() == InitialData(kind, fieldName, args, wp)
    {
      var d := InitialData(kind, fieldName, args, wp);
      this.kind := kind;
      this.fieldName := d.fieldName;
      labelText := d.labelText;
      groups := d.groups;
      cssClasses := d.cssClasses;
      whitelist := d.whitelist;
      whitelistTaxonomy := d.whitelistTaxonomy;
      fields := [];
      Repr := {this};
    }

    /**
     * `new WP_Field_Repeater($field_name, array('fields' => $children) + $args)`: every child
     * object is given the repeater's key through its own `add_group` and kept, in order. `kids`
     * are the values of the kept children before they are adopted.
     */
    constructor Repeater(fieldName: string, args: FieldArgs, children: seq<Field?>, ghost kids: seq<FieldData>, wp: Env)
      requires Adoptable(children, kids)
      modifies Footprint(children)
      ensures Valid() && fields == NonNull(children)
      ensures Repr == {this} + Footprint(children)
      ensures Tree() == Attach(InitialData(FieldKind.Repeater, fieldName, args, wp), kids)
    {
      var d := InitialData(FieldKind.Repeater, fieldName, args, wp);
      var kept := GroupChildren(children, kids, Str(RepeaterKey(d)));
      this.kind := FieldKind.Repeater;
      this.fieldName := d.fieldName;
      labelText := d.labelText;
      groups := d.groups;
      cssClasses := d.cssClasses;
      whitelist := d.whitelist;
      whitelistTaxonomy := d.whitelistTaxonomy;
      fields := kept;
      Repr := {this} + Footprint(children);
      new;
      RepeaterValid(this);
      RepeaterTree(this, d, kids);
    }

    /** The `foreach` of the repeater's constructor: the fields among `children`, each given `key`. */
    static method GroupChildren(children: seq<Field?>, ghost kids: seq<FieldData>, key: Value) returns (kept: seq<Field>)
      requires Adoptable(children, kids)
      modifies Footprint(children)
      ensures kept == NonNull(children)
      ensures forall k :: 0 <= k < |kept| ==> kept[k].Valid() && kept[k].Repr <= Footprint(children)
      ensures forall k, l :: 0 <= k < l < |kept| ==> kept[k].Repr !! kept[l].Repr
      ensures forall k :: 0 <= k < |kept| ==> kept[k].Tree() == AddGroupTo(kids[k], key)
    {
      kept := NonNull(children);
      NonNullDisjoint(children);
      FootprintWithin(kept, Footprint(children));
      AddGroupEach(kept, key);
    }

    /** `$field->add_group($key)` for each field of a list of disjoint fields, in order. */
    static method AddGroupEach(fs: seq<Field>, key: Value)
      requires forall k :: 0 <= k < |fs| ==> fs[k].Valid()
      requires forall k, l :: 0 <= k < l < |fs| ==> fs[k].Repr !! fs[l].Repr
      modifies Footprint(fs)
      ensures forall k :: 0 <= k < |fs| ==> fs[k].Tree() == AddGroupTo(old(fs[k].Tree()), key)
      decreases Footprint(fs), 1
    {
      var i := 0;
      while i < |fs|
        invariant 0 <= i <= |fs|
        invariant forall k :: 0 <= k < |fs| ==>
          fs[k].Tree() == if k < i then AddGroupTo(old(fs[k].Tree()), key) else old(fs[k].Tree())
      {
        FootprintCovers(fs, i);
        fs[i].AddGroup(key);
        i := i + 1;
      }
    }

    /**
     * `add_group($group)`. A repeater (`WP_Field_Repeater::add_group`) also passes the group on
     * to each of its children, which pass it on to theirs.
     */
    method AddGroup(group: Value)
      requires Valid()
      modifies Repr
      ensures Tree() == AddGroupTo(old(Tree()), group)
      decreases Repr, 0
    {
      if group.Str? && !EmptyString(group.s) {
        groups := [group.s] + groups;
        if kind == FieldKind.Repeater {
          FootprintWithin(fields, Repr - {this});
          AddGroupEach(fields, group);
        }
      }
    }

    /**
     * `sanitize($value)`. The list classes walk the array and drop (`unset`) what fails the
     * test; the loops here build the surviving entries in the same order.
     */
    method Sanitize(value: Value, wp: Env) returns (r: Value)
      ensures r == Sanitized(kind, whitelist, whitelistTaxonomy, value, wp)
    {
      match kind {
        case List =>
          var values := ToArray(value);
          var kept: PArray := [];
          var i := 0;
          while i < |values|
            invariant 0 <= i <= |values|
            invariant kept == WhitelistFilter(values[..i], whitelist)
          {
            assert values[..i + 1][..i] == values[..i];
            if InArray(values[i].1, whitelist) {
              kept := kept + [(values[i].0, Str(SanitizeKeyValue(values[i].1)))];
            }
            i := i + 1;
          }
          assert values[..i] == values;
          r := Arr(kept);
        case TaxonomyList =>
          var values := ToArray(value);
          var kept: PArray := [];
          var i := 0;
          while i < |values|
            invariant 0 <= i <= |values|
            invariant kept == TermFilter(values[..i], whitelistTaxonomy, wp)
          {
            assert values[..i + 1][..i] == values[..i];
            if wp.termExists(values[i].1, whitelistTaxonomy) {
              kept := kept + [values[i]];
            }
            i := i + 1;
          }
          assert values[..i] == values;
          r := Arr(kept);
        case _ =>
          r := Sanitized(kind, whitelist, whitelistTaxonomy, value, wp);
      }
    }
  }
}
