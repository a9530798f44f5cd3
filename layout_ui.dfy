/**
 * `Layout_UI::setup_layout_elements` (class-layout-ui.php): the lazily built registry of layout
 * element instances. The first call asks the `layout_element_classes` filter for the list of class
 * names, instantiates each one and stores it under its name in `$this->_layout_elements`; every
 * later call returns what is stored.
 *
 * An element instance carries no state (the element classes declare no constructor and never assign
 * `$fields`), so an instance is its `ElementKind`. PHP arrays keep insertion order; the registry is an
 * ordered sequence of (class name, instance) entries, updated with `ArraySet`.
 */
module LayoutUI {
  import opened Php
  import opened LayoutElements

  /** The contents of `$this->_layout_elements`: class name to instance, in insertion order. */
  type Registry = seq<(string, ElementKind)>

  /** The element classes, in the order of the default class list. */
  const ElementKinds: seq<ElementKind> := [Loop, TextBox, Widget, Post, Grunion, Inherit, RepTest]

  /**
   * The class list offered to the `layout_element_classes` filter: "Layout_Element_Loop",
   * "Layout_Element_Text_Box", "Layout_Element_Widget", "Layout_Element_Post",
   * "Layout_Element_Grunion", "Layout_Element_Inherit", "Layout_Element_RepTest".
   */
  const DefaultClasses: seq<string> := seq(|ElementKinds|, i requires 0 <= i < |ElementKinds| => ClassName(ElementKinds[i]))

  /** What a call yields: the value returned (null while the property is unset), or a fatal error. */
  datatype Outcome = Returned(elements: Option<Registry>) | Fatal(className: string)

  // ---------------------------------------------------------------------------------------------
  // new $class()

  /**
   * The element class `new $class()` instantiates for a name. PHP looks class names up ignoring
   * ASCII case, and a dynamic name may carry one leading backslash. The abstract `Layout_Element`
   * and every name that is not an element class give a fatal error.
   */
  function Resolve(name: string): Option<ElementKind> {
    FindKind(Bare(name), ElementKinds)
  }

  /** A class name without its one optional leading backslash. */
  function Bare(name: string): string {
    if |name| > 0 && name[0] == '\\' then name[1..] else name
  }

  /** The first of `kinds` whose class name is `name` up to ASCII case. */
  function FindKind(name: string, kinds: seq<ElementKind>): Option<ElementKind> {
    if kinds == [] then None
    else if LowerEquals(name, LowerName(kinds[0])) then Some(kinds[0])
    else FindKind(name, kinds[1..])
  }

  /** `strtolower(s) === t`, one character at a time (see `LowerEqualsToLower`). */
  predicate LowerEquals(s: string, t: string) {
    |s| == |t| && (|s| == 0 || (Lower(s[0]) == t[0] && LowerEquals(s[1..], t[1..])))
  }

  /** Each class name in lower case, the form PHP compares class names in. */
  function LowerName(kind: ElementKind): string {
    "layout_element_" + LowerSuffix(kind)
  }

  function LowerSuffix(kind: ElementKind): string {
    match kind
    case Loop => "loop"
    case TextBox => "text_box"
    case Widget => "widget"
    case Post => "post"
    case Grunion => "grunion"
    case Inherit => "inherit"
    case RepTest => "reptest"
  }

  /** The first `n` names can all be instantiated. */
  predicate AllResolve(names: seq<string>, n: nat)
    requires n <= |names|
  {
    forall j :: 0 <= j < n ==> Resolve(names[j]).Some?
  }

  /** The position of the first name that cannot be instantiated, `|names|` when there is none. */
  function FirstUnresolved(names: seq<string>): (r: nat)
    ensures r <= |names| && AllResolve(names, r)
    ensures r < |names| ==> Resolve(names[r]).None?
  {
    if names == [] then 0
    else if Resolve(names[0]).None? then 0
    else
      var rest := FirstUnresolved(names[1..]);
      assert forall j :: 1 <= j < 1 + rest ==> names[j] == names[1..][j - 1];
      1 + rest
  }

  // ---------------------------------------------------------------------------------------------
  // The registry built by the loop

  /** The (name, instance) pairs `new $class()` creates for the first `n` names, in order. */
  function Instantiated(names: seq<string>, n: nat): (r: Registry)
    requires n <= |names| && AllResolve(names, n)
    ensures |r| == n && forall j :: 0 <= j < n ==> r[j] == (names[j], Resolve(names[j]).value)
  {
    seq(n, j requires 0 <= j < n => (names[j], Resolve(names[j]).value))
  }

  /** The array `$this->_layout_elements[$class] = ...` leaves after storing the first `n` pairs. */
  function Stored(pairs: Registry, n: nat): Registry
    requires n <= |pairs|
  {
    if n == 0 then [] else ArraySet(Stored(pairs, n - 1), pairs[n - 1].0, pairs[n - 1].1)
  }

  /** The keys of a registry, in order. */
  function Keys(reg: Registry): (r: seq<string>)
    ensures |r| == |reg| && forall i :: 0 <= i < |reg| ==> r[i] == reg[i].0
  {
    if reg == [] then [] else [reg[0].0] + Keys(reg[1..])
  }

  predicate Distinct(s: seq<string>) {
    forall i, j :: 0 <= i < j < |s| ==> s[i] != s[j]
  }

  /** The names of the first `n` pairs. */
  function Names(pairs: Registry, n: nat): set<string>
    requires n <= |pairs|
  {
    if n == 0 then {} else Names(pairs, n - 1) + {pairs[n - 1].0}
  }

  /** The first `n` pairs, as a set. */
  function Entries(pairs: Registry, n: nat): set<(string, ElementKind)>
    requires n <= |pairs|
  {
    if n == 0 then {} else Entries(pairs, n - 1) + {pairs[n - 1]}
  }

  /** No name occurs twice among the first `n` pairs. */
  predicate DistinctNames(pairs: Registry, n: nat)
    requires n <= |pairs|
  {
    forall i, j :: 0 <= i < j < n ==> pairs[i].0 != pairs[j].0
  }

  /**
   * The first-call branch: the value returned and the new contents of the property. The loop
   * stops at the first name that cannot be instantiated; the property then holds what was stored
   * before it. With an empty list the property is never assigned and stays unset, so null is
   * returned.
   */
  function Setup(names: seq<string>): (Outcome, Option<Registry>) {
    var i := FirstUnresolved(names);
    var state := if i == 0 then None else Some(Stored(Instantiated(names, i), i));
    if i < |names| then (Fatal(names[i]), state) else (Returned(state), state)
  }

  /**
   * The first-call branch fails exactly when some name is not an element class, and then on
   * such a name; otherwise it returns what it stored. The property stays unset just when the
   * list is empty or its first name fails.
   */
  lemma SetupOutcome(names: seq<string>)
    ensures var r := Setup(names);
      && (r.0.Fatal? <==> exists j :: 0 <= j < |names| && Resolve(names[j]).None?)
      && (r.0.Fatal? ==> r.0.className in names && Resolve(r.0.className).None?)
      && (r.0.Returned? ==> r.0.elements == r.1)
      && (r.1.None? <==> |names| == 0 || Resolve(names[0]).None?)
  {
  }

  /**
   * One call of `setup_layout_elements` on the property's current contents: the cached registry
   * when it is set, otherwise the first-call branch on the filtered class list. The property
   * `$this->_short_name` is never assigned in `Layout_UI`, so the filter receives null.
   */
  function Call(state: Option<Registry>, filter: (seq<string>, Value) -> seq<string>): (Outcome, Option<Registry>) {
    if state.Some? then (Returned(state), state) else Setup(filter(DefaultClasses, Null))
  }

  // ---------------------------------------------------------------------------------------------
  // The object

  class LayoutUi {
    /** `$this->_layout_elements`; `None` while the property is unset. */
    var layoutElements: Option<Registry>

    constructor ()
      ensures layoutElements == None
    {
      layoutElements := None;
    }

    /** `setup_layout_elements()`. */
    method SetupLayoutElements(filter: (seq<string>, Value) -> seq<string>) returns (r: Outcome)
      modifies this
      ensures (r, layoutElements) == Call(old(layoutElements), filter)
    {
      if layoutElements.None? {
        var classes := filter(DefaultClasses, Null);
        ghost var pairs := Instantiated(classes, FirstUnresolved(classes));
        var i := 0;
        while i < |classes|
          invariant 0 <= i <= FirstUnresolved(classes)
          invariant layoutElements == if i == 0 then None else Some(Stored(pairs, i))
        {
          var kind := Resolve(classes[i]);
          if kind.None? {
            FirstUnresolvedAt(classes, i);
            return Fatal(classes[i]);
          }
          assert pairs[i] == (classes[i], kind.value);
          var stored := if layoutElements.None? then [] else layoutElements.value;
          layoutElements := Some(ArraySet(stored, classes[i], kind.value));
          i := i + 1;
        }
        FirstUnresolvedAt(classes, i);
      }
      r := Returned(layoutElements);
    }
  }

  // ---------------------------------------------------------------------------------------------
  // Properties

  /** The loop's stopping point is the first name that cannot be instantiated. */
  lemma FirstUnresolvedAt(names: seq<string>, i: nat)
    requires i <= |names| && AllResolve(names, i)
    requires i < |names| ==> Resolve(names[i]).None?
    ensures FirstUnresolved(names) == i
  {
  }

  /** Storing under a key keeps the keys when it is present and appends it otherwise. */
  lemma {:induction false} KeysAfterSet(reg: Registry, k: string, v: ElementKind)
    ensures Keys(ArraySet(reg, k, v)) == if k in Keys(reg) then Keys(reg) else Keys(reg) + [k]
  {
    if reg == [] {
    } else if reg[0].0 == k {
      assert Keys(ArraySet(reg, k, v)) == [k] + Keys(reg[1..]);
    } else {
      KeysAfterSet(reg[1..], k, v);
      assert ArraySet(reg, k, v) == [reg[0]] + ArraySet(reg[1..], k, v);
      assert k in Keys(reg) <==> k in Keys(reg[1..]) by {
        assert Keys(reg) == [reg[0].0] + Keys(reg[1..]);
      }
      if k in Keys(reg[1..]) {
        assert Keys(ArraySet(reg, k, v)) == [reg[0].0] + Keys(reg[1..]) == Keys(reg);
      } else {
        assert Keys(ArraySet(reg, k, v)) == [reg[0].0] + (Keys(reg[1..]) + [k]);
        assert Keys(reg) + [k] == [reg[0].0] + (Keys(reg[1..]) + [k]);
      }
    }
  }

  /** Storing under a key adds no entry but the one stored. */
  lemma {:induction false} EntriesAfterSet(reg: Registry, k: string, v: ElementKind)
    ensures forall e :: e in ArraySet(reg, k, v) ==> e in reg || e == (k, v)
  {
    if reg != [] && reg[0].0 != k {
      EntriesAfterSet(reg[1..], k, v);
      assert ArraySet(reg, k, v) == [reg[0]] + ArraySet(reg[1..], k, v);
    }
  }

  /** The stored array has a key for each name among the pairs, and no other. */
  lemma {:induction false} StoredKeys(pairs: Registry, n: nat)
    requires n <= |pairs|
    ensures forall k :: k in Keys(Stored(pairs, n)) <==> k in Names(pairs, n)
  {
    if n > 0 {
      StoredKeys(pairs, n - 1);
      KeysAfterSetMembers(Stored(pairs, n - 1), pairs[n - 1].0, pairs[n - 1].1);
    }
  }

  /** Storing under a key adds that key and no other. */
  lemma KeysAfterSetMembers(reg: Registry, k: string, v: ElementKind)
    ensures forall x :: x in Keys(ArraySet(reg, k, v)) <==> x in Keys(reg) || x == k
  {
    KeysAfterSet(reg, k, v);
  }

  /** The stored array has each key once. */
  lemma {:induction false} StoredKeysDistinct(pairs: Registry, n: nat)
    requires n <= |pairs|
    ensures Distinct(Keys(Stored(pairs, n)))
  {
    if n > 0 {
      StoredKeysDistinct(pairs, n - 1);
      DistinctAfterSet(Stored(pairs, n - 1), pairs[n - 1].0, pairs[n - 1].1);
    }
  }

  /** Storing under a key keeps the keys pairwise different. */
  lemma DistinctAfterSet(reg: Registry, k: string, v: ElementKind)
    requires Distinct(Keys(reg))
    ensures Distinct(Keys(ArraySet(reg, k, v)))
  {
    var s := Keys(reg);
    KeysAfterSet(reg, k, v);
    if k !in s {
      DistinctAppend(s, k);
    }
  }

  lemma DistinctAppend(s: seq<string>, k: string)
    requires Distinct(s) && k !in s
    ensures Distinct(s + [k])
  {
  }

  /** Every stored entry is one of the pairs. */
  lemma {:induction false} StoredFromPairs(pairs: Registry, n: nat)
    requires n <= |pairs|
    ensures forall e :: e in Stored(pairs, n) ==> e in Entries(pairs, n)
  {
    if n > 0 {
      StoredFromPairs(pairs, n - 1);
      EntriesAfterSet(Stored(pairs, n - 1), pairs[n - 1].0, pairs[n - 1].1);
    }
  }

  lemma {:induction false} NamesMeaning(pairs: Registry, n: nat, k: string)
    requires n <= |pairs|
    ensures k in Names(pairs, n) <==> exists j :: 0 <= j < n && pairs[j].0 == k
  {
    if n > 0 {
      NamesMeaning(pairs, n - 1, k);
      if pairs[n - 1].0 == k {
        assert 0 <= n - 1 < n && pairs[n - 1].0 == k;
      }
    }
  }

  lemma {:induction false} EntriesMeaning(pairs: Registry, n: nat, e: (string, ElementKind))
    requires n <= |pairs| && e in Entries(pairs, n)
    ensures exists j :: 0 <= j < n && pairs[j] == e
  {
    if e != pairs[n - 1] {
      EntriesMeaning(pairs, n - 1, e);
      var j :| 0 <= j < n - 1 && pairs[j] == e;
      assert 0 <= j < n && pairs[j] == e;
    } else {
      assert 0 <= n - 1 < n && pairs[n - 1] == e;
    }
  }

  /** An entry is added exactly when its name has not been stored before. */
  lemma StoredGrows(pairs: Registry, n: nat)
    requires 0 < n <= |pairs|
    ensures |Stored(pairs, n)| == if pairs[n - 1].0 in Names(pairs, n - 1) then |Stored(pairs, n - 1)| else |Stored(pairs, n - 1)| + 1
  {
    var before := Stored(pairs, n - 1);
    var k := pairs[n - 1].0;
    StoredKeys(pairs, n - 1);
    assert k in Keys(before) <==> k in Names(pairs, n - 1);
    KeysAfterSet(before, k, pairs[n - 1].1);
    assert |Stored(pairs, n)| == |Keys(Stored(pairs, n))|;
  }

  /** A repeated name yields a single entry: there is one entry per pair just when no name repeats. */
  lemma {:induction false} StoredSize(pairs: Registry, n: nat)
    requires n <= |pairs|
    ensures |Stored(pairs, n)| <= n
    ensures |Stored(pairs, n)| == n <==> DistinctNames(pairs, n)
  {
    if n > 0 {
      StoredSize(pairs, n - 1);
      StoredGrows(pairs, n);
      var k := pairs[n - 1].0;
      NamesMeaning(pairs, n - 1, k);
      if DistinctNames(pairs, n) {
        assert DistinctNames(pairs, n - 1);
        assert k !in Names(pairs, n - 1);
      }
      if DistinctNames(pairs, n - 1) && k !in Names(pairs, n - 1) {
        forall i, j | 0 <= i < j < n ensures pairs[i].0 != pairs[j].0 {
          if j == n - 1 {
            assert !(0 <= i < n - 1 && pairs[i].0 == k);
          }
        }
      }
    }
  }

  /** Without repeated names the stored array is the list of pairs itself, in order. */
  lemma {:induction false} StoredInOrder(pairs: Registry, n: nat)
    requires n <= |pairs| && DistinctNames(pairs, n)
    ensures Stored(pairs, n) == pairs[..n]
  {
    if n > 0 {
      assert DistinctNames(pairs, n - 1);
      StoredInOrder(pairs, n - 1);
      ArraySetShape(pairs[..n - 1], pairs[n - 1].0, pairs[n - 1].1);
      assert pairs[..n] == pairs[..n - 1] + [pairs[n - 1]];
    }
  }

  /** The per-character comparison is `strtolower` followed by string equality. */
  lemma {:induction false} LowerEqualsToLower(s: string, t: string)
    ensures LowerEquals(s, t) <==> ToLower(s) == t
  {
    if |s| > 0 && |s| == |t| {
      LowerEqualsToLower(s[1..], t[1..]);
      assert ToLower(s) == [Lower(s[0])] + ToLower(s[1..]);
      assert t == [t[0]] + t[1..];
    }
  }

  /** `ToLower(s) == t` proved one character at a time. */
  lemma LowerPointwise(s: string, t: string)
    requires |s| == |t| && forall i :: 0 <= i < |s| ==> Lower(s[i]) == t[i]
    ensures ToLower(s) == t
  {
    assert forall i :: 0 <= i < |s| ==> ToLower(s)[i] == t[i];
  }

  /** Different element classes have different lower-case names. */
  lemma LowerNameInjective(a: ElementKind, b: ElementKind)
    requires LowerName(a) == LowerName(b)
    ensures a == b
  {
    assert LowerName(a)[15..] == LowerSuffix(a) && LowerName(b)[15..] == LowerSuffix(b);
  }

  /** `LowerEquals` established one character at a time. */
  lemma {:induction false} LowerEqualsPointwise(s: string, t: string)
    requires |s| == |t| && forall i :: 0 <= i < |s| ==> Lower(s[i]) == t[i]
    ensures LowerEquals(s, t)
  {
    if |s| > 0 {
      LowerEqualsPointwise(s[1..], t[1..]);
    }
  }

  /** `LowerEquals` holds of concatenations part by part. */
  lemma {:induction false} LowerEqualsConcat(s1: string, s2: string, t1: string, t2: string)
    requires LowerEquals(s1, t1) && LowerEquals(s2, t2)
    ensures LowerEquals(s1 + s2, t1 + t2)
  {
    if |s1| > 0 {
      LowerEqualsConcat(s1[1..], s2, t1[1..], t2);
      assert (s1 + s2)[1..] == s1[1..] + s2 && (t1 + t2)[1..] == t1[1..] + t2;
    } else {
      assert s1 + s2 == s2 && t1 + t2 == t2;
    }
  }

  /** Each class name, lower-cased, is its `LowerName`. */
  lemma ClassNameLowers(kind: ElementKind)
    ensures LowerEquals(ClassName(kind), LowerName(kind))
  {
    PrefixLowers();
    SuffixLowers(kind);
    LowerEqualsConcat("Layout_Element_", ClassSuffix(kind), "layout_element_", LowerSuffix(kind));
  }

  lemma PrefixLowers()
    ensures LowerEquals("Layout_Element_", "layout_element_")
  {
    LowerEqualsPointwise("Layout_Element_", "layout_element_");
  }

  lemma SuffixLowers(kind: ElementKind)
    ensures LowerEquals(ClassSuffix(kind), LowerSuffix(kind))
  {
    match kind
    case Loop => LowerEqualsPointwise("Loop", "loop");
    case TextBox => LowerEqualsPointwise("Text_Box", "text_box");
    case Widget => LowerEqualsPointwise("Widget", "widget");
    case Post => LowerEqualsPointwise("Post", "post");
    case Grunion => LowerEqualsPointwise("Grunion", "grunion");
    case Inherit => LowerEqualsPointwise("Inherit", "inherit");
    case RepTest => LowerEqualsPointwise("RepTest", "reptest");
  }

  /** `FindKind` finds the one kind of the list whose name matches. */
  lemma {:induction false} FindKindMeaning(name: string, kinds: seq<ElementKind>, kind: ElementKind)
    ensures FindKind(name, kinds) == Some(kind) <==> kind in kinds && ToLower(name) == LowerName(kind)
  {
    if kinds != [] {
      FindKindMeaning(name, kinds[1..], kind);
      LowerEqualsToLower(name, LowerName(kinds[0]));
      if ToLower(name) == LowerName(kinds[0]) && ToLower(name) == LowerName(kind) {
        LowerNameInjective(kinds[0], kind);
      }
      assert kinds == [kinds[0]] + kinds[1..];
    }
  }

  /**
   * `new $class()` creates an instance of an element class exactly when the name, without its
   * leading backslash, is that class's name up to ASCII case.
   */
  lemma ResolveMeaning(name: string, kind: ElementKind)
    ensures Resolve(name) == Some(kind) <==> ToLower(Bare(name)) == LowerName(kind)
  {
    FindKindMeaning(Bare(name), ElementKinds, kind);
  }

  /** Every element class is found under its own name, and under that name with a leading backslash. */
  lemma ResolveClassNames(kind: ElementKind)
    ensures Resolve(ClassName(kind)) == Some(kind)
    ensures Resolve("\\" + ClassName(kind)) == Some(kind)
  {
    var name := ClassName(kind);
    assert |name| > 0 && name[0] == 'L';
    assert Bare("\\" + name) == name;
    ClassNameLowers(kind);
    LowerEqualsToLower(name, LowerName(kind));
    ResolveMeaning(name, kind);
    ResolveMeaning("\\" + name, kind);
  }

  /** Class lookup ignores ASCII case: a name and its lower-case form denote the same class. */
  lemma ResolveIgnoresCase(name: string)
    ensures Resolve(ToLower(name)) == Resolve(name)
  {
    var lower := ToLower(name);
    assert Bare(lower) == ToLower(Bare(name)) by {
      if |name| > 0 && name[0] == '\\' {
        assert lower == [Lower(name[0])] + ToLower(name[1..]);
      } else if |name| > 0 {
        assert lower[0] == Lower(name[0]) != '\\';
      }
    }
    LowerIdempotent(Bare(name));
    forall kind: ElementKind ensures Resolve(lower) == Some(kind) <==> Resolve(name) == Some(kind) {
      ResolveMeaning(lower, kind);
      ResolveMeaning(name, kind);
    }
  }

  lemma LowerIdempotent(s: string)
    ensures ToLower(ToLower(s)) == ToLower(s)
  {
    assert forall i :: 0 <= i < |s| ==> ToLower(ToLower(s))[i] == ToLower(s)[i];
  }

  /** The abstract base class of the elements. */
  const AbstractBase := "Layout_Element"

  /** A name of a length no class name has denotes no element class. */
  lemma {:induction false} FindKindByLength(name: string, kinds: seq<ElementKind>)
    requires forall kind :: kind in kinds ==> |LowerName(kind)| != |name|
    ensures FindKind(name, kinds) == None
  {
    if kinds != [] {
      assert kinds[0] in kinds;
      FindKindByLength(name, kinds[1..]);
    }
  }

  /** The abstract base class cannot be instantiated. */
  lemma AbstractBaseIsFatal()
    ensures Resolve(AbstractBase) == None
  {
    var bare := Bare(AbstractBase);
    assert |bare| == 14;
    forall kind: ElementKind ensures |LowerName(kind)| != |bare| {
      assert |LowerName(kind)| == 15 + |LowerSuffix(kind)|;
    }
    FindKindByLength(bare, ElementKinds);
  }

  /** Different element classes have different class names. */
  lemma ClassNameInjective(a: ElementKind, b: ElementKind)
    requires ClassName(a) == ClassName(b)
    ensures a == b
  {
    assert ClassName(a)[15..] == ClassSuffix(a) && ClassName(b)[15..] == ClassSuffix(b);
  }

  /** The registry the unfiltered list produces: the seven elements, in the default order. */
  lemma DefaultRegistry()
    ensures Setup(DefaultClasses) == (Returned(Some(DefaultElements())), Some(DefaultElements()))
    ensures Keys(DefaultElements()) == DefaultClasses
  {
    DefaultInstantiated();
    DefaultDistinct();
    var reg := DefaultElements();
    StoredInOrder(reg, 7);
    assert reg[..7] == reg;
    FirstCallStores(DefaultClasses);
    DefaultKeys();
  }

  /** The registry's keys are the default class names, in order. */
  lemma DefaultKeys()
    ensures Keys(DefaultElements()) == DefaultClasses
  {
    var keys := Keys(DefaultElements());
    assert forall j :: 0 <= j < 7 ==> keys[j] == DefaultClasses[j];
  }

  /** Every default name is an element class, and the loop pairs each with an instance of it. */
  lemma DefaultInstantiated()
    ensures |DefaultClasses| == 7 && forall j :: 0 <= j < 7 ==> Resolve(DefaultClasses[j]).Some?
    ensures FirstUnresolved(DefaultClasses) == 7
    ensures Instantiated(DefaultClasses, 7) == DefaultElements()
  {
    forall j | 0 <= j < 7 ensures Resolve(DefaultClasses[j]) == Some(ElementKinds[j]) {
      ResolveClassNames(ElementKinds[j]);
    }
    FirstCallStores(DefaultClasses);
  }

  /** The default names are pairwise different. */
  lemma DefaultDistinct()
    ensures DistinctNames(DefaultElements(), 7)
  {
    var pairs := DefaultElements();
    forall i, j | 0 <= i < j < 7 ensures pairs[i].0 != pairs[j].0 {
      if pairs[i].0 == pairs[j].0 {
        ClassNameInjective(ElementKinds[i], ElementKinds[j]);
      }
    }
  }

  /** One instance of each element class, keyed by its class name. */
  function DefaultElements(): (r: Registry)
    ensures |r| == 7 && forall j :: 0 <= j < 7 ==> r[j] == (ClassName(ElementKinds[j]), ElementKinds[j])
  {
    seq(|ElementKinds|, i requires 0 <= i < |ElementKinds| => (ClassName(ElementKinds[i]), ElementKinds[i]))
  }

  /**
   * Once the property is set, every later call returns it unchanged, whatever the filter would now
   * say. A first call that stores nothing (an empty list, or a fatal error on the first name) leaves
   * the property unset, so the next call builds again.
   */
  lemma Memoised(state: Option<Registry>, filter: (seq<string>, Value) -> seq<string>,
                 later: (seq<string>, Value) -> seq<string>)
    ensures Call(state, filter).1.Some? ==>
      Call(Call(state, filter).1, later) == (Returned(Call(state, filter).1), Call(state, filter).1)
    ensures Call(state, filter).1.None? ==> state.None? && Call(Call(state, filter).1, later) == Setup(later(DefaultClasses, Null))
  {
  }

  /** A first call on a non-empty list of element classes runs the loop to the end and returns what it stored. */
  lemma FirstCallStores(names: seq<string>)
    requires |names| > 0 && forall j :: 0 <= j < |names| ==> Resolve(names[j]).Some?
    ensures FirstUnresolved(names) == |names|
    ensures Setup(names) == (Returned(Some(Stored(Instantiated(names, |names|), |names|))),
                             Some(Stored(Instantiated(names, |names|), |names|)))
  {
    FirstUnresolvedAt(names, |names|);
  }

  /**
   * A first call whose every name is an element class stores one instance per distinct name, and
   * each is an instance of the class its name denotes.
   */
  lemma FirstCallKeys(names: seq<string>)
    requires |names| > 0 && forall j :: 0 <= j < |names| ==> Resolve(names[j]).Some?
    ensures Setup(names).1.Some?
    ensures forall k :: k in Keys(Setup(names).1.value) <==> k in names
    ensures Distinct(Keys(Setup(names).1.value))
    ensures forall e :: e in Setup(names).1.value ==> Resolve(e.0) == Some(e.1)
  {
    var n := |names|;
    FirstCallStores(names);
    var pairs := Instantiated(names, n);
    var reg := Stored(pairs, n);
    StoredKeys(pairs, n);
    StoredKeysDistinct(pairs, n);
    forall k ensures k in Keys(reg) <==> k in names {
      NamesMeaning(pairs, n, k);
      if k in names {
        var j :| 0 <= j < n && names[j] == k;
        assert pairs[j].0 == k;
      }
    }
    StoredFromPairs(pairs, n);
    forall e | e in reg ensures Resolve(e.0) == Some(e.1) {
      EntriesMeaning(pairs, n, e);
    }
  }

  /**
   * A duplicate class name yields a single entry: a first call stores as many entries as names
   * just when no name repeats, and then stores them in list order.
   */
  lemma FirstCallSize(names: seq<string>)
    requires |names| > 0 && forall j :: 0 <= j < |names| ==> Resolve(names[j]).Some?
    ensures Setup(names).1.Some?
    ensures |Setup(names).1.value| <= |names|
    ensures |Setup(names).1.value| == |names| <==> Distinct(names)
    ensures Distinct(names) ==> Setup(names).1.value == Instantiated(names, |names|)
  {
    var n := |names|;
    FirstCallStores(names);
    var pairs := Instantiated(names, n);
    StoredSize(pairs, n);
    assert DistinctNames(pairs, n) <==> Distinct(names);
    if Distinct(names) {
      StoredInOrder(pairs, n);
      assert pairs[..n] == pairs;
    }
  }
}
