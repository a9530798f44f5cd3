/**
 * The layout elements of class-layout-element.php: the seven element classes, their titles and
 * field schemas, and `Layout_Element::render_field`, which turns a field object into form markup.
 *
 * An element class holds no state of its own (`$fields` is declared but never assigned), so an
 * element is its kind. `RenderField` is the method, with the loops of the source, and `Render`
 * is the value it computes.
 */
module LayoutElements {
  import opened Php
  import opened WordPress
  import opened Fields

  /** The element classes defined in class-layout-element.php. */
  datatype ElementKind = Loop | TextBox | Widget | Post | Grunion | Inherit | RepTest

  /** Each class's `title()`. */
  function Title(kind: ElementKind): string {
    match kind
    case Loop => "Loop"
    case TextBox => "Text Box"
    case Widget => "WordPress Widget"
    case Post => "Post/Page"
    case Grunion => "Simple Form"
    case Inherit => "Inherit from another AL"
    case RepTest => "Rep Test"
  }

  /** The PHP class name of each element: `Layout_Element_` followed by the element's own part. */
  function ClassName(kind: ElementKind): string {
    "Layout_Element_" + ClassSuffix(kind)
  }

  function ClassSuffix(kind: ElementKind): string {
    match kind
    case Loop => "Loop"
    case TextBox => "Text_Box"
    case Widget => "Widget"
    case Post => "Post"
    case Grunion => "Grunion"
    case Inherit => "Inherit"
    case RepTest => "RepTest"
  }

  // ---------------------------------------------------------------------------------------------
  // setup_fields

  /** A field as its constructor leaves it, with no `$args`. */
  function Fresh(kind: FieldKind, name: string, wp: Env): FieldData {
    InitialData(kind, name, NoArgs, wp)
  }

  /** The inner repeater of `Layout_Element_RepTest`, as built (before the outer one adopts it). */
  function InnerRepeater(wp: Env): FieldData {
    Attach(Fresh(Repeater, "Inner Repeater", wp), [Fresh(Integer, "Inner Int", wp), Fresh(CheckBox, "Check Inner", wp)])
  }

  function OuterRepeater(wp: Env): FieldData {
    Attach(Fresh(Repeater, "Outer Repeater", wp),
      [Fresh(Integer, "Outer Int", wp), Fresh(CheckBox, "Check Outer", wp), InnerRepeater(wp)])
  }

  /** The seven classes have seven different titles. */
  lemma TitlesDistinct(a: ElementKind, b: ElementKind)
    requires Title(a) == Title(b)
    ensures a == b
  {
  }

  /** `Layout_Element_Text_Box::setup_fields()`. */
  method SetupTextBoxFields(wp: Env) returns (fields: seq<Field>)
    ensures |fields| == 1
    ensures fields[0].Valid() && fields[0].Tree() == Fresh(Text, "Text", wp)
  {
    var text := new Field(Text, "Text", NoArgs, wp);
    fields := [text];
  }

  /**
   * `setup_fields()` of the Loop, Widget, Post, Grunion and Inherit elements, which all have this
   * same body.
   */
  method SetupPostListFields(wp: Env) returns (fields: seq<Field>)
    ensures |fields| == 2
    ensures fields[0].Valid() && fields[0].Tree() == Fresh(Integer, "Number of Posts", wp)
    ensures fields[1].Valid() && fields[1].Tree() == Fresh(CheckBox, "Exclude Featured Items", wp)
  {
    var count := new Field(Integer, "Number of Posts", NoArgs, wp);
    var exclude := new Field(CheckBox, "Exclude Featured Items", NoArgs, wp);
    fields := [count, exclude];
  }

  /**
   * `Layout_Element_RepTest::setup_fields()`: the inner fields are built first, then the inner
   * repeater adopts them, the outer repeater adopts it, and its `add_group` reaches the inner
   * fields. The source builds 'Outer Int' and 'Check Outer' before the inner repeater, and the two
   * free fields before the outer repeater; here each is built after those. No constructor sees
   * another field and `Env` is pure, so the order of the constructions does not matter.
   */
  method SetupRepTestFields(wp: Env) returns (fields: seq<Field>)
    ensures |fields| == 3
    ensures fields[0].Valid() && fields[0].Tree() == Fresh(Integer, "Free Int", wp)
    ensures fields[1].Valid() && fields[1].Tree() == Fresh(CheckBox, "Check Free", wp)
    ensures fields[2].Valid() && fields[2].Tree() == OuterRepeater(wp)
  {
    var outer := BuildOuterRepeater(wp);
    var freeInt := new Field(Integer, "Free Int", NoArgs, wp);
    var checkFree := new Field(CheckBox, "Check Free", NoArgs, wp);
    fields := [freeInt, checkFree, outer];
  }

  /** `new WP_Field_Repeater('Outer Repeater', array('fields' => $repeater))` with its three fields. */
  method BuildOuterRepeater(wp: Env) returns (outer: Field)
    ensures outer.Valid()
    ensures outer.Tree() == OuterRepeater(wp)
  {
    var inner := BuildInnerRepeater(wp);
    var outerInt := new Field(Integer, "Outer Int", NoArgs, wp);
    var checkOuter := new Field(CheckBox, "Check Outer", NoArgs, wp);
    outer := RepeaterOfThree("Outer Repeater", outerInt, checkOuter, inner, wp);
  }

  /** `new WP_Field_Repeater('Inner Repeater', array('fields' => $repeater2))` with its two fields. */
  method BuildInnerRepeater(wp: Env) returns (inner: Field)
    ensures inner.Valid() && fresh(inner.Repr)
    ensures inner.Tree() == InnerRepeater(wp)
  {
    var innerInt := new Field(Integer, "Inner Int", NoArgs, wp);
    var checkInner := new Field(CheckBox, "Check Inner", NoArgs, wp);
    inner := RepeaterOfTwo("Inner Repeater", innerInt, checkInner, wp);
  }

  /** A repeater without `$args` adopting two disjoint fields. */
  method RepeaterOfTwo(name: string, a: Field, b: Field, wp: Env) returns (r: Field)
    requires a.Valid() && b.Valid() && a.Repr !! b.Repr
    modifies a.Repr, b.Repr
    ensures r.Valid() && r.Repr == {r} + a.Repr + b.Repr && fresh(r)
    ensures r.Tree() == Attach(Fresh(Repeater, name, wp), [old(a.Tree()), old(b.Tree())])
  {
    ghost var ka, kb := a.Tree(), b.Tree();
    AdoptTwo(a, b, ka, kb);
    r := new Field.Repeater(name, NoArgs, [a, b], [ka, kb], wp);
  }

  /** A repeater without `$args` adopting three pairwise disjoint fields. */
  method RepeaterOfThree(name: string, a: Field, b: Field, c: Field, wp: Env) returns (r: Field)
    requires a.Valid() && b.Valid() && c.Valid()
    requires a.Repr !! b.Repr && a.Repr !! c.Repr && b.Repr !! c.Repr
    modifies a.Repr, b.Repr, c.Repr
    ensures r.Valid() && r.Repr == {r} + a.Repr + b.Repr + c.Repr && fresh(r)
    ensures r.Tree() == Attach(Fresh(Repeater, name, wp), [old(a.Tree()), old(b.Tree()), old(c.Tree())])
  {
    ghost var ka, kb, kc := a.Tree(), b.Tree(), c.Tree();
    AdoptThree(a, b, c, ka, kb, kc);
    r := new Field.Repeater(name, NoArgs, [a, b, c], [ka, kb, kc], wp);
  }

  // ---------------------------------------------------------------------------------------------
  // The keys of the test element's fields

  /** The group the outer repeater of the test element pushes into its descendants. */
  function OuterKey(wp: Env): string {
    RepeaterKey(Fresh(Repeater, "Outer Repeater", wp))
  }

  function InnerKey(wp: Env): string {
    RepeaterKey(Fresh(Repeater, "Inner Repeater", wp))
  }

  /**
   * Both repeater keys are groups `add_group` accepts. They are `sanitize_key` of the names as
   * `sanitize_text_field` leaves them ("outer_repeater" and "inner_repeater" when it leaves them
   * alone), which the model does not fix.
   */
  predicate KeysAccepted(wp: Env) {
    !EmptyString(OuterKey(wp)) && !EmptyString(InnerKey(wp))
  }

  /**
   * When `sanitize_text_field` leaves the two repeater names alone, the keys are
   * `outer_repeater` and `inner_repeater`, and both are groups `add_group` accepts.
   */
  lemma RepTestKeysConcrete(wp: Env)
    requires wp.sanitizeTextField("Outer Repeater") == "Outer Repeater"
    requires wp.sanitizeTextField("Inner Repeater") == "Inner Repeater"
    ensures OuterKey(wp) == "outer_repeater" && InnerKey(wp) == "inner_repeater"
    ensures KeysAccepted(wp)
  {
    OuterRepeaterKey();
    InnerRepeaterKey();
  }

  /** `sanitize_key` of "Outer Repeater" with its space replaced. */
  lemma OuterRepeaterKey()
    ensures FieldKey("Outer Repeater", '_') == "outer_repeater"
  {
    assert "Outer" + " " + "Repeater" == "Outer Repeater";
    assert "outer" + "_repeater" == "outer_repeater";
    RepeaterWordKey("Outer", "outer");
  }

  /** `sanitize_key` of "Inner Repeater" with its space replaced. */
  lemma InnerRepeaterKey()
    ensures FieldKey("Inner Repeater", '_') == "inner_repeater"
  {
    assert "Inner" + " " + "Repeater" == "Inner Repeater";
    assert "inner" + "_repeater" == "inner_repeater";
    RepeaterWordKey("Inner", "inner");
  }

  /** The key of "<Word> Repeater", for a capitalised five-letter word whose lower case is given. */
  lemma RepeaterWordKey(word: string, lower: string)
    requires |word| == 5 && |lower| == 5
    requires forall i :: 0 <= i < 5 ==> 'a' <= lower[i] <= 'z' && Lower(word[i]) == lower[i]
    ensures FieldKey(word + " " + "Repeater", '_') == lower + "_repeater"
  {
    LowerLetters(word, lower);
    LowerLetters("Repeater", "repeater");
    TwoWordKey(word, "Repeater");
  }

  /** A word whose characters lower-case to lower-case ASCII letters is a key word, lower-cased pointwise. */
  lemma LowerLetters(word: string, lower: string)
    requires |word| == |lower|
    requires forall i :: 0 <= i < |word| ==> 'a' <= lower[i] <= 'z' && Lower(word[i]) == lower[i]
    ensures forall i :: 0 <= i < |word| ==> !IsSpace(word[i]) && IsKeyChar(Lower(word[i]))
    ensures ToLower(word) == lower
  {
  }

  /** The inner repeater of the test element satisfies the nesting invariant. */
  lemma InnerRepeaterNested(wp: Env)
    requires KeysAccepted(wp)
    ensures Nested(InnerRepeater(wp))
  {
    AttachEstablishesNesting(Fresh(Repeater, "Inner Repeater", wp),
      [Fresh(Integer, "Inner Int", wp), Fresh(CheckBox, "Check Inner", wp)]);
  }

  /**
   * The outer repeater of the test element, and with it every field of every schema, satisfies
   * the nesting invariant: each child carries its parent's groups followed by the parent's key.
   */
  lemma OuterRepeaterNested(wp: Env)
    requires KeysAccepted(wp)
    ensures Nested(OuterRepeater(wp))
  {
    InnerRepeaterNested(wp);
    AttachEstablishesNesting(Fresh(Repeater, "Outer Repeater", wp),
      [Fresh(Integer, "Outer Int", wp), Fresh(CheckBox, "Check Outer", wp), InnerRepeater(wp)]);
  }

  /**
   * The innermost integer of the test element carries both keys, outer first; its name repeats
   * the outer key and leaves out its own name ("outer_repeater[outer_repeater][inner_repeater]").
   */
  lemma RepTestInnerIntKeys(wp: Env)
    requires KeysAccepted(wp)
    ensures |OuterRepeater(wp).children| == 3 && |OuterRepeater(wp).children[2].children| == 2
    ensures OuterRepeater(wp).children[2].children[0].groups == [OuterKey(wp), InnerKey(wp)]
    ensures NameOf(OuterRepeater(wp).children[2].children[0].groups, "Inner Int")
      == OuterKey(wp) + "[" + (OuterKey(wp) + "][" + InnerKey(wp)) + "]"
    ensures IdOf(OuterRepeater(wp).children[2].children[0].groups) == OuterKey(wp) + "-" + InnerKey(wp)
  {
    var d := OuterRepeater(wp);
    var inner := d.children[2];
    assert inner == Prepend(InnerRepeater(wp), OuterKey(wp));
    var g := inner.children[0].groups;
    assert g == [OuterKey(wp), InnerKey(wp)];
    assert g[1..] == [InnerKey(wp)];
    assert Join("][", g) == OuterKey(wp) + "][" + InnerKey(wp);
    assert Join("-", g) == OuterKey(wp) + "-" + InnerKey(wp);
  }

  /** Every child a repeater without groups adopts is named after the repeater's key alone. */
  lemma AttachedNamesCollide(base: FieldData, kids: seq<FieldData>)
    requires base.groups == [] && !EmptyString(RepeaterKey(base))
    requires forall i :: 0 <= i < |kids| ==> kids[i].groups == []
    ensures var r := Attach(base, kids);
      forall k :: 0 <= k < |kids| ==> NameOf(r.children[k].groups, r.children[k].fieldName) == RepeaterKey(base)
  {
    var r := Attach(base, kids);
    forall k | 0 <= k < |kids|
      ensures NameOf(r.children[k].groups, r.children[k].fieldName) == RepeaterKey(base)
    {
      assert r.children[k].groups == [RepeaterKey(base)];
    }
  }

  /** The outer integer, the outer check box and the inner repeater all get the name of the outer key. */
  lemma RepTestOuterNamesCollide(wp: Env)
    requires !EmptyString(OuterKey(wp))
    ensures |OuterRepeater(wp).children| == 3
    ensures forall k :: 0 <= k < 3 ==>
      NameOf(OuterRepeater(wp).children[k].groups, OuterRepeater(wp).children[k].fieldName) == OuterKey(wp)
  {
    AttachedNamesCollide(Fresh(Repeater, "Outer Repeater", wp),
      [Fresh(Integer, "Outer Int", wp), Fresh(CheckBox, "Check Outer", wp), InnerRepeater(wp)]);
  }

  // ---------------------------------------------------------------------------------------------
  // render_field, on values

  /**
   * What `render_field` returns: `false` when the field API is not loaded, `null` when it falls
   * off the end (a type it does not render), or markup.
   */
  datatype Rendered = NoFieldApi | NoMarkup | Markup(html: string)

  /** The text `$rendered .= ...` appends: false and null both become "". */
  function AsString(r: Rendered): string {
    if r.Markup? then r.html else ""
  }

  /** The input types rendered as `<input type="...">`. */
  const InputTypes: seq<string> := ["text", "password", "checkbox", "color", "date", "datetime",
    "datetime-local", "email", "month", "number", "range", "search", "tel", "time", "url", "week"]

  predicate IsAsciiLetter(c: char) {
    ('a' <= c <= 'z') || ('A' <= c <= 'Z')
  }

  /** The characters `preg_replace('/[^a-zA-Z0-9\-="\s]/', '', ...)` keeps. */
  predicate IsAttributeChar(c: char) {
    IsAsciiLetter(c) || IsDigit(c) || c == '-' || c == '=' || c == '"' || IsSpace(c)
  }

  /** The clean-up of the extra attributes: every other character is dropped. */
  function FilterAttributes(s: string): (r: string)
    ensures |r| <= |s|
    ensures forall i :: 0 <= i < |r| ==> IsAttributeChar(r[i])
    decreases |s|
  {
    if s == [] then []
    else FilterAttributes(s[..|s| - 1]) + (if IsAttributeChar(s[|s| - 1]) then [s[|s| - 1]] else [])
  }

  /** `name="..." id="..." class="..."`, common to every rendered field. */
  function FieldAttrs(d: FieldData): string {
    "name=\"" + NameOf(d.groups, d.fieldName) + "\" id=\"" + IdOf(d.groups) + "\" class=\"" + d.cssClasses + "\""
  }

  /** The header input written at the start of each repeater section. */
  function SectionHeader(d: FieldData): string {
    "<input type=\"text\" name=\"" + NameOf(d.groups, d.fieldName) + "[__new_repeatable_section__]\" >"
  }

  /**
   * The start value a repeater passes to a child: `$section[$field->id()]` when that is set,
   * else ''. A section that is not an array is treated as having nothing set.
   */
  function ChildValue(section: Value, id: string): (v: Value)
    ensures section.Arr? && IssetKey(section.entries, id) ==> Some(v) == Lookup(section.entries, KeyOf(id))
    ensures !(section.Arr? && IssetKey(section.entries, id)) ==> v == Str("")
  {
    if section.Arr? && IssetKey(section.entries, id) then Lookup(section.entries, KeyOf(id)).value
    else Str("")
  }

  /** The type `render_field` settles on: the render hint when the given type is empty. */
  function ResolvedType(d: FieldData, typ: string): string {
    if EmptyString(typ) then RenderHint(d.kind) else typ
  }

  /** `render_field($field, $start_value, $type, $additional_attributes)` with the field API loaded. */
  function Render(d: FieldData, start: Value, typ: string, attrs: string, wp: Env): Rendered
    decreases d, 2
  {
    if d.kind == Repeater then Markup(RenderSections(d, Values(ToArray(start)), wp))
    else RenderInput(d, start, typ, attrs, wp)
  }

  /** The markup of a field other than a repeater: a textarea, an input element, or nothing. */
  function RenderInput(d: FieldData, start: Value, typ: string, attrs: string, wp: Env): Rendered {
    var t := ResolvedType(d, typ);
    var escaped := Escaped(d.kind, start, wp);
    if t == "textarea" then Markup(TextareaMarkup(d, ToPhpString(escaped)))
    else
      var checkbox := t == "checkbox" && attrs == "";
      var value := if checkbox then "1" else ToPhpString(escaped);
      var extra := FilterAttributes(if checkbox then Checked(escaped, Bool(true)) else attrs);
      if t in InputTypes then Markup(InputMarkup(d, t, value, extra)) else NoMarkup
  }

  /** `<textarea ...>content</textarea>` */
  function TextareaMarkup(d: FieldData, content: string): string {
    "<textarea " + FieldAttrs(d) + ">" + content + "</textarea>"
  }

  /** `<input type="..." ... value="..." extra />` */
  function InputMarkup(d: FieldData, t: string, value: string, extra: string): string {
    "<input type=\"" + t + "\" " + FieldAttrs(d) + " value=\"" + value + "\" " + extra + " />"
  }

  /** One section of a repeater: its header, then every child field given its value from the section. */
  function SectionMarkup(d: FieldData, section: Value, wp: Env): string
    decreases d, 1, 0
  {
    SectionHeader(d) + RenderChildren(d, section, |d.children|, wp)
  }

  /** The first `|sections|` sections of a repeater, each a header followed by every child field. */
  function RenderSections(d: FieldData, sections: seq<Value>, wp: Env): string
    decreases d, 1, |sections| + 1
  {
    if sections == [] then ""
    else RenderSections(d, sections[..|sections| - 1], wp) + SectionMarkup(d, sections[|sections| - 1], wp)
  }

  /** The first `m` children of a repeater, rendered for one section. */
  function RenderChildren(d: FieldData, section: Value, m: nat, wp: Env): string
    requires m <= |d.children|
    decreases d, 0, m
  {
    if m == 0 then ""
    else
      var c := d.children[m - 1];
      RenderChildren(d, section, m - 1, wp) + AsString(Render(c, ChildValue(section, IdOf(c.groups)), "", "", wp))
  }

  /** The clean-up keeps a string made only of allowed characters as it is. */
  lemma {:induction false} FilterAttributesKeepsClean(s: string)
    requires forall i :: 0 <= i < |s| ==> IsAttributeChar(s[i])
    ensures FilterAttributes(s) == s
    decreases |s|
  {
    if s != [] {
      FilterAttributesKeepsClean(s[..|s| - 1]);
      assert s[..|s| - 1] + [s[|s| - 1]] == s;
    }
  }

  /** Cleaning up twice is cleaning up once. */
  lemma FilterAttributesIdempotent(s: string)
    ensures FilterAttributes(FilterAttributes(s)) == FilterAttributes(s)
  {
    FilterAttributesKeepsClean(FilterAttributes(s));
  }

  /** The clean-up works character by character, so it distributes over concatenation. */
  lemma {:induction false} FilterAttributesAppend(a: string, b: string)
    ensures FilterAttributes(a + b) == FilterAttributes(a) + FilterAttributes(b)
    decreases |b|
  {
    if b != [] {
      var b', c := b[..|b| - 1], b[|b| - 1];
      var kept := if IsAttributeChar(c) then [c] else [];
      assert (a + b)[..|a + b| - 1] == a + b';
      assert (a + b)[|a + b| - 1] == c;
      FilterAttributesAppend(a, b');
      assert FilterAttributes(a + b) == FilterAttributes(a) + FilterAttributes(b') + kept;
      assert FilterAttributes(b) == FilterAttributes(b') + kept;
    } else {
      assert a + b == a;
    }
  }

  /** The clean-up drops the single quotes around a clean value after a clean name. */
  lemma QuotesDropped(w: string, v: string)
    requires forall i :: 0 <= i < |w| ==> IsAttributeChar(w[i])
    requires forall i :: 0 <= i < |v| ==> IsAttributeChar(v[i])
    ensures FilterAttributes(w + "'" + v + "'") == w + v
  {
    var q := "'";
    assert FilterAttributes(q) == [] by {
      assert q[..0] == [] && !IsAttributeChar(q[0]);
    }
    FilterAttributesKeepsClean(w);
    FilterAttributesKeepsClean(v);
    FilterAttributesAppend(w, q);
    assert FilterAttributes(w + q) == w;
    FilterAttributesAppend(w + q, v);
    assert FilterAttributes(w + q + v) == w + v;
    FilterAttributesAppend(w + q + v, q);
  }

  /** The clean-up turns the attribute of `checked()` into ` checked=checked`: it drops the quotes. */
  lemma CheckedAttributeFiltered()
    ensures FilterAttributes(" checked='checked'") == " checked=checked"
  {
    var w, v := " checked=", "checked";
    assert IsAttributeChar(' ') && IsAttributeChar('=');
    QuotesDropped(w, v);
    assert " checked='checked'" == w + "'" + v + "'";
  }

  /**
   * A field other than a repeater gives no markup at all exactly when the type it settles on is
   * neither `textarea` nor one of the input types.
   */
  lemma NoMarkupExactly(d: FieldData, start: Value, typ: string, attrs: string, wp: Env)
    requires d.kind != Repeater
    ensures Render(d, start, typ, attrs, wp).NoMarkup?
      <==> ResolvedType(d, typ) != "textarea" && ResolvedType(d, typ) !in InputTypes
    ensures !Render(d, start, typ, attrs, wp).NoFieldApi?
  {
  }

  /** An empty type (`''` or `'0'`) renders as if the field's render hint had been given. */
  lemma EmptyTypeUsesHint(d: FieldData, start: Value, typ: string, attrs: string, wp: Env)
    requires EmptyString(typ)
    ensures Render(d, start, typ, attrs, wp) == Render(d, start, RenderHint(d.kind), attrs, wp)
  {
    assert ResolvedType(d, typ) == RenderHint(d.kind) == ResolvedType(d, RenderHint(d.kind));
  }

  /**
   * A field other than a repeater renders as a textarea or an input of the type it settles on,
   * opening with the common attributes `name="<name()>" id="<id()>" class="<css_classes()>"`.
   */
  lemma MarkupOpensWithAttributes(d: FieldData, start: Value, typ: string, attrs: string, wp: Env)
    requires d.kind != Repeater
    ensures var t := ResolvedType(d, typ);
      var r := Render(d, start, typ, attrs, wp);
      && (t == "textarea" ==> r.Markup? && "<textarea " + FieldAttrs(d) + ">" <= r.html)
      && (t in InputTypes ==> r.Markup? && "<input type=\"" + t + "\" " + FieldAttrs(d) + " value=\"" <= r.html)
      && (r.Markup? ==> t == "textarea" || t in InputTypes)
  {
    var t := ResolvedType(d, typ);
    var escaped := Escaped(d.kind, start, wp);
    if t == "textarea" {
      TextareaOpens(d, ToPhpString(escaped));
    } else if t in InputTypes {
      var checkbox := t == "checkbox" && attrs == "";
      var value := if checkbox then "1" else ToPhpString(escaped);
      var extra := FilterAttributes(if checkbox then Checked(escaped, Bool(true)) else attrs);
      assert Render(d, start, typ, attrs, wp) == Markup(InputMarkup(d, t, value, extra));
      InputOpens(d, t, value, extra);
    }
  }

  lemma TextareaOpens(d: FieldData, content: string)
    ensures "<textarea " + FieldAttrs(d) + ">" <= TextareaMarkup(d, content)
  {
    var head := "<textarea " + FieldAttrs(d) + ">";
    assert TextareaMarkup(d, content) == head + (content + "</textarea>");
  }

  lemma InputOpens(d: FieldData, t: string, value: string, extra: string)
    ensures "<input type=\"" + t + "\" " + FieldAttrs(d) + " value=\"" <= InputMarkup(d, t, value, extra)
  {
    var head := "<input type=\"" + t + "\" " + FieldAttrs(d) + " value=\"";
    assert InputMarkup(d, t, value, extra) == head + (value + "\" " + extra + " />");
  }

  /** The list fields have no render hint, so with no type given they render nothing. */
  lemma ListFieldsRenderNothing(d: FieldData, start: Value, attrs: string, wp: Env)
    requires d.kind == List || d.kind == TaxonomyList
    ensures Render(d, start, "", attrs, wp) == NoMarkup
  {
    assert ResolvedType(d, "") == "";
    assert "" !in InputTypes;
    assert RenderInput(d, start, "", attrs, wp) == NoMarkup;
  }

  /** The HTML field always renders an empty textarea: its `esc_value` returns nothing. */
  lemma HtmlTextareaEmpty(d: FieldData, start: Value, attrs: string, wp: Env)
    requires d.kind == Html
    ensures Render(d, start, "", attrs, wp) == Markup(TextareaMarkup(d, ""))
  {
    assert ResolvedType(d, "") == "textarea";
    assert Escaped(d.kind, start, wp) == Null;
  }

  /**
   * The checkbox field with no type and no attributes renders `value="1"` and carries
   * ` checked=checked` exactly when its start value is truthy.
   */
  lemma CheckBoxChecked(d: FieldData, start: Value, wp: Env)
    requires d.kind == CheckBox
    ensures Render(d, start, "", "", wp)
      == Markup(InputMarkup(d, "checkbox", "1", if ToBool(start) then " checked=checked" else ""))
  {
    var escaped := Escaped(CheckBox, start, wp);
    var extra := if ToBool(start) then " checked=checked" else "";
    assert ResolvedType(d, "") == "checkbox";
    assert escaped == Bool(ToBool(start));
    assert Checked(escaped, Bool(true)) == if ToBool(start) then " checked='checked'" else "";
    if ToBool(start) {
      CheckedAttributeFiltered();
    }
    assert FilterAttributes(Checked(escaped, Bool(true))) == extra;
    assert InputTypes[2] == "checkbox";
  }

  /** The sections of a repeater render one after another. */
  lemma {:induction false} RenderSectionsAppend(d: FieldData, a: seq<Value>, b: seq<Value>, wp: Env)
    ensures RenderSections(d, a + b, wp) == RenderSections(d, a, wp) + RenderSections(d, b, wp)
    decreases |b|
  {
    if b == [] {
      assert a + b == a;
    } else {
      var b', last := b[..|b| - 1], b[|b| - 1];
      assert (a + b)[..|a + b| - 1] == a + b';
      assert (a + b)[|a + b| - 1] == last;
      RenderSectionsAppend(d, a, b', wp);
      var x, y, z := RenderSections(d, a, wp), RenderSections(d, b', wp), SectionMarkup(d, last, wp);
      assert RenderSections(d, a + b, wp) == x + y + z;
      assert RenderSections(d, b, wp) == y + z;
      ConcatAssoc(x, y, z);
    }
  }

  /**
   * A repeater renders one section per entry of `(array) $start_value`: none for null, and one,
   * with every child at its empty default, for the default start value ''.
   */
  lemma RepeaterSections(d: FieldData, typ: string, attrs: string, wp: Env)
    requires d.kind == Repeater
    ensures Render(d, Null, typ, attrs, wp) == Markup("")
    ensures Render(d, Str(""), typ, attrs, wp)
      == Markup(SectionMarkup(d, Str(""), wp))
  {
    assert Values(ToArray(Null)) == [];
    assert Render(d, Null, typ, attrs, wp) == Markup(RenderSections(d, [], wp));
    var one := [Str("")];
    assert Values(ToArray(Str(""))) == one;
    assert one[..0] == [];
    assert RenderSections(d, one, wp) == RenderSections(d, [], wp) + SectionMarkup(d, Str(""), wp);
  }

  // ---------------------------------------------------------------------------------------------
  // render_field, on objects

  /**
   * `render_field`. `fieldApiLoaded` is `class_exists('WP_Field')`. Rendering changes no field,
   * so the field tree is read once and the markup is built from that value.
   */
  method RenderField(field: Field, start: Value, typ: string, attrs: string, fieldApiLoaded: bool, wp: Env)
      returns (r: Rendered)
    requires field.Valid()
    ensures !fieldApiLoaded ==> r == NoFieldApi
    ensures fieldApiLoaded ==> r == Render(field.Tree(), start, typ, attrs, wp)
  {
    if !fieldApiLoaded {
      return NoFieldApi;
    }
    r := RenderTree(field.Tree(), start, typ, attrs, wp);
  }

  /** The body of `render_field`: a repeater renders one section per entry of `(array) $start_value`. */
  method RenderTree(d: FieldData, start: Value, typ: string, attrs: string, wp: Env) returns (r: Rendered)
    ensures r == Render(d, start, typ, attrs, wp)
    decreases d, 2
  {
    if d.kind == Repeater {
      var rendered := RenderRepeater(d, Values(ToArray(start)), wp);
      return Markup(rendered);
    }
    r := RenderInput(d, start, typ, attrs, wp);
  }

  /** The `foreach ((array) $start_value as $section)` loop of a repeater. */
  method RenderRepeater(d: FieldData, sections: seq<Value>, wp: Env) returns (rendered: string)
    ensures rendered == RenderSections(d, sections, wp)
    decreases d, 1
  {
    rendered := "";
    var i := 0;
    while i < |sections|
      invariant 0 <= i <= |sections|
      invariant rendered == RenderSections(d, sections[..i], wp)
    {
      var section := RenderSection(d, sections[i], wp);
      assert sections[..i + 1][..i] == sections[..i];
      rendered := rendered + (SectionHeader(d) + section);
      i := i + 1;
    }
    assert sections[..i] == sections;
  }

  /** One section of a repeater: each child field, given its value from the section. */
  method RenderSection(d: FieldData, section: Value, wp: Env) returns (rendered: string)
    ensures rendered == RenderChildren(d, section, |d.children|, wp)
    decreases d, 0
  {
    rendered := "";
    var j := 0;
    while j < |d.children|
      invariant 0 <= j <= |d.children|
      invariant rendered == RenderChildren(d, section, j, wp)
    {
      var sub := RenderChild(d, section, j, wp);
      rendered := rendered + sub;
      j := j + 1;
    }
  }

  /** The markup of the `j`-th child of a repeater in one section. */
  method RenderChild(d: FieldData, section: Value, j: nat, wp: Env) returns (sub: string)
    requires j < |d.children|
    ensures RenderChildren(d, section, j + 1, wp) == RenderChildren(d, section, j, wp) + sub
    decreases d, 0, j
  {
    var child := d.children[j];
    var r := RenderTree(child, ChildValue(section, IdOf(child.groups)), "", "", wp);
    sub := AsString(r);
  }
}
