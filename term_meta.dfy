/**
 * The Term Meta plugin (term-meta.php): the arguments `Term_Meta` is constructed from, and the
 * list of archive layouts, each normalised to its accepted taxonomies and generated names.
 */
module ArchiveLayouts {
  import opened Php
  import opened WordPress

  // ---------------------------------------------------------------------------------------------
  // Term_Meta::__construct

  /**
   * The entries `foreach ($type as $key => $value)` walks: a string is the one taxonomy it names,
   * an array gives its own entries, and anything else iterates over nothing.
   */
  function TypeEntries(typ: Value): PArray {
    match typ
    case Str(_) => [(StrKey("taxonomy"), typ)]
    case Arr(entries) => entries
    case _ => []
  }

  /** How the walk over the type entries ended. */
  datatype Stop =
    | Exhausted
    /** A `'home'` key: its case falls through into `default`, which returns. */
    | AtHome
    /** Any other key: `default` returns from the constructor. */
    | AtOther

  datatype Scanned = Scanned(taxonomies: seq<string>, postTypes: seq<string>, stop: Stop)

  /**
   * The `foreach`/`switch` of the constructor, from the lists accepted so far: a taxonomy or a
   * post type is appended when it exists, and the first other key ends the walk.
   */
  function Scan(entries: PArray, taxonomies: seq<string>, postTypes: seq<string>, wp: Env): Scanned
    decreases |entries|
  {
    if entries == [] then Scanned(taxonomies, postTypes, Exhausted)
    else
      var key, name := entries[0].0, ToPhpString(entries[0].1);
      if key == StrKey("taxonomy") && wp.taxonomyExists(name) then Scan(entries[1..], taxonomies + [name], postTypes, wp)
      else if key == StrKey("post_type") && wp.postTypeExists(name) then Scan(entries[1..], taxonomies, postTypes + [name], wp)
      else if key == StrKey("taxonomy") || key == StrKey("post_type") then Scan(entries[1..], taxonomies, postTypes, wp)
      else if key == StrKey("home") then Scanned(taxonomies, postTypes, AtHome)
      else Scanned(taxonomies, postTypes, AtOther)
  }

  /**
   * How `new Term_Meta(...)` ends: it returns normally, returns early from its `switch`, stops
   * the request in `wp_die`, or fails in `array_merge`, which must be given two arrays and gets
   * the never-assigned (null) list when only one of the two lists received an entry.
   */
  datatype Outcome = Constructed | ReturnedEarly | Died | TypeError

  /** The instance variables of a `Term_Meta`; `None` is a property never assigned. */
  datatype TermMetaState = TermMetaState(
    noVersions: bool,
    taxonomies: seq<string>,
    postTypes: seq<string>,
    layoutName: Option<string>,
    shortName: Option<string>)

  datatype Construction = Construction(outcome: Outcome, state: TermMetaState)

  /** `new Term_Meta($type, $no_versions, $layout_name, $short_name)`. */
  function Construct(typ: Value, noVersions: Value, layoutName: string, shortName: string, wp: Env): Construction {
    var s := Scan(TypeEntries(typ), [], [], wp);
    Settle(TermMetaState(ToBool(noVersions), s.taxonomies, s.postTypes, None, None), s.stop, layoutName, shortName)
  }

  /** How the constructor ends once the walk over the type entries has stopped. */
  function Settle(base: TermMetaState, stop: Stop, layoutName: string, shortName: string): Construction {
    match stop
    case AtHome =>
      Construction(ReturnedEarly,
        base.(layoutName := Some(if EmptyString(layoutName) then "home" else layoutName), shortName := Some("TM_home")))
    case AtOther => Construction(ReturnedEarly, base)
    case Exhausted =>
      if base.taxonomies == [] && base.postTypes == [] then Construction(Died, base)
      else if base.taxonomies == [] || base.postTypes == [] then Construction(TypeError, base)
      else
        var name := if EmptyString(layoutName) then ConcatUcwords(base.taxonomies + base.postTypes) else layoutName;
        var short := if EmptyString(shortName) then "TM_" + ToLower(Prefix(name, 17)) else shortName;
        Construction(Constructed, base.(layoutName := Some(name), shortName := Some(short)))
  }

  // An independent account of the walk: where it stops and what it accepts before that.

  /** The index of the first key that is neither 'taxonomy' nor 'post_type', or the length. */
  function StopIndex(entries: PArray): (n: nat)
    ensures n <= |entries|
  {
    if entries == [] || (entries[0].0 != StrKey("taxonomy") && entries[0].0 != StrKey("post_type")) then 0
    else 1 + StopIndex(entries[1..])
  }

  function StopAt(entries: PArray): Stop {
    var n := StopIndex(entries);
    if n == |entries| then Exhausted else if entries[n].0 == StrKey("home") then AtHome else AtOther
  }

  /** The names under `key` that `known` accepts, in order. */
  function Accepted(entries: PArray, key: string, known: string -> bool): seq<string> {
    if entries == [] then []
    else
      var name := ToPhpString(entries[0].1);
      (if entries[0].0 == StrKey(key) && known(name) then [name] else []) + Accepted(entries[1..], key, known)
  }

  /** The walk accepts exactly the existing names before the first other key, in argument order. */
  lemma {:induction false} ScanAccepts(entries: PArray, taxonomies: seq<string>, postTypes: seq<string>, wp: Env)
    ensures Scan(entries, taxonomies, postTypes, wp) == Scanned(
      taxonomies + Accepted(entries[..StopIndex(entries)], "taxonomy", wp.taxonomyExists),
      postTypes + Accepted(entries[..StopIndex(entries)], "post_type", wp.postTypeExists),
      StopAt(entries))
    decreases |entries|
  {
    var n := StopIndex(entries);
    if n == 0 {
      assert entries[..0] == [];
    } else {
      var ht := Accepted(entries[..1], "taxonomy", wp.taxonomyExists);
      var hp := Accepted(entries[..1], "post_type", wp.postTypeExists);
      ScanStep(entries, taxonomies, postTypes, wp);
      StopAtStep(entries);
      AcceptedStep(entries, n, "taxonomy", wp.taxonomyExists);
      AcceptedStep(entries, n, "post_type", wp.postTypeExists);
      ScanAccepts(entries[1..], taxonomies + ht, postTypes + hp, wp);
      ConcatAssoc(taxonomies, ht, Accepted(entries[1..][..n - 1], "taxonomy", wp.taxonomyExists));
      ConcatAssoc(postTypes, hp, Accepted(entries[1..][..n - 1], "post_type", wp.postTypeExists));
    }
  }

  /** A 'taxonomy' or 'post_type' entry adds what it accepts and the walk goes on. */
  lemma ScanStep(entries: PArray, taxonomies: seq<string>, postTypes: seq<string>, wp: Env)
    requires StopIndex(entries) > 0
    ensures Scan(entries, taxonomies, postTypes, wp) == Scan(entries[1..],
      taxonomies + Accepted(entries[..1], "taxonomy", wp.taxonomyExists),
      postTypes + Accepted(entries[..1], "post_type", wp.postTypeExists), wp)
  {
    var key, name := entries[0].0, ToPhpString(entries[0].1);
    var ht := if key == StrKey("taxonomy") && wp.taxonomyExists(name) then [name] else [];
    var hp := if key == StrKey("post_type") && wp.postTypeExists(name) then [name] else [];
    assert entries[..1][1..] == [];
    assert entries[..1][0] == entries[0];
    assert Accepted(entries[..1], "taxonomy", wp.taxonomyExists) == ht + [];
    assert Accepted(entries[..1], "post_type", wp.postTypeExists) == hp + [];
    assert ht + [] == ht && hp + [] == hp;
    assert taxonomies + [] == taxonomies && postTypes + [] == postTypes;
  }

  /** Past such an entry, the walk stops where it stops on the rest. */
  lemma StopAtStep(entries: PArray)
    requires StopIndex(entries) > 0
    ensures StopIndex(entries[1..]) == StopIndex(entries) - 1
    ensures StopAt(entries) == StopAt(entries[1..])
  {
    var n := StopIndex(entries);
    if n < |entries| {
      assert entries[1..][n - 1] == entries[n];
    }
  }

  /** The names accepted before the stop are those of the first entry, then those of the rest. */
  lemma AcceptedStep(entries: PArray, n: nat, key: string, known: string -> bool)
    requires 0 < n <= |entries|
    ensures Accepted(entries[..n], key, known)
      == Accepted(entries[..1], key, known) + Accepted(entries[1..][..n - 1], key, known)
  {
    assert entries[..n][1..] == entries[1..][..n - 1];
    assert entries[..1][1..] == [];
    assert entries[..n][0] == entries[..1][0];
  }

  /** A string type is the same as `['taxonomy' => $type]`. */
  lemma StringTypeIsTaxonomy(name: string, noVersions: Value, layoutName: string, shortName: string, wp: Env)
    ensures Construct(Str(name), noVersions, layoutName, shortName, wp)
      == Construct(Arr([(StrKey("taxonomy"), Str(name))]), noVersions, layoutName, shortName, wp)
  {
  }

  /**
   * How the constructor ends, from the first key that is neither 'taxonomy' nor 'post_type' and
   * the lists accepted before it.
   */
  lemma ConstructOutcome(typ: Value, noVersions: Value, layoutName: string, shortName: string, wp: Env)
    ensures var e := TypeEntries(typ);
      var t := Accepted(e[..StopIndex(e)], "taxonomy", wp.taxonomyExists);
      var p := Accepted(e[..StopIndex(e)], "post_type", wp.postTypeExists);
      var c := Construct(typ, noVersions, layoutName, shortName, wp);
      && c.state.taxonomies == t && c.state.postTypes == p
      && c.state.noVersions == ToBool(noVersions)
      && (c.outcome == ReturnedEarly <==> StopAt(e) != Exhausted)
      && (c.outcome == Died <==> StopAt(e) == Exhausted && t == [] && p == [])
      && (c.outcome == TypeError <==> StopAt(e) == Exhausted && (t == []) != (p == []))
      && (c.outcome == Constructed <==> StopAt(e) == Exhausted && t != [] && p != [])
  {
    var e := TypeEntries(typ);
    ScanAccepts(e, [], [], wp);
    var s := Scan(e, [], [], wp);
    SettleOutcome(TermMetaState(ToBool(noVersions), s.taxonomies, s.postTypes, None, None), s.stop, layoutName, shortName);
  }

  /** How the constructor ends once the walk has stopped, from where it stopped and the lists. */
  lemma SettleOutcome(base: TermMetaState, stop: Stop, layoutName: string, shortName: string)
    ensures var c := Settle(base, stop, layoutName, shortName);
      var t, p := base.taxonomies, base.postTypes;
      && c.state.taxonomies == t && c.state.postTypes == p && c.state.noVersions == base.noVersions
      && (c.outcome == ReturnedEarly <==> stop != Exhausted)
      && (c.outcome == Died <==> stop == Exhausted && t == [] && p == [])
      && (c.outcome == TypeError <==> stop == Exhausted && (t == []) != (p == []))
      && (c.outcome == Constructed <==> stop == Exhausted && t != [] && p != [])
  {
  }

  /**
   * A 'home' key ends the constructor with the given layout name (or 'home') and the short name
   * 'TM_home', even when no taxonomy or post type was accepted; an unknown key ends it with no name.
   */
  lemma EarlyReturnNames(typ: Value, noVersions: Value, layoutName: string, shortName: string, wp: Env)
    ensures var c := Construct(typ, noVersions, layoutName, shortName, wp);
      && (StopAt(TypeEntries(typ)) == AtHome ==>
          c.outcome == ReturnedEarly
          && c.state.layoutName == Some(if EmptyString(layoutName) then "home" else layoutName)
          && c.state.shortName == Some("TM_home"))
      && (StopAt(TypeEntries(typ)) == AtOther ==>
          c.outcome == ReturnedEarly && c.state.layoutName == None && c.state.shortName == None)
  {
    ScanAccepts(TypeEntries(typ), [], [], wp);
  }

  /**
   * A constructed container is named after its accepted taxonomies and post types unless a
   * name is given; a generated short name is 'TM_' and at most 17 lower-cased characters of the
   * name, so at most 20 characters. A given short name is kept whatever its length.
   */
  lemma ConstructedNames(typ: Value, noVersions: Value, layoutName: string, shortName: string, wp: Env)
    requires Construct(typ, noVersions, layoutName, shortName, wp).outcome == Constructed
    ensures var st := Construct(typ, noVersions, layoutName, shortName, wp).state;
      && st.layoutName == Some(if EmptyString(layoutName) then ConcatUcwords(st.taxonomies + st.postTypes) else layoutName)
      && st.shortName.Some?
      && (EmptyString(shortName) ==>
          |st.shortName.value| <= 20 && st.shortName.value == "TM_" + ToLower(Prefix(st.layoutName.value, 17)))
      && (!EmptyString(shortName) ==> st.shortName == Some(shortName))
  {
  }

  // ---------------------------------------------------------------------------------------------
  // The Term_Meta object

  class TermMeta {
    var noVersions: bool
    var taxonomies: seq<string>
    var postTypes: seq<string>
    var layoutName: Option<string>
    var shortName: Option<string>

    function State(): TermMetaState
      reads this
    {
      TermMetaState(noVersions, taxonomies, postTypes, layoutName, shortName)
    }

    /** The object before `__construct` runs: every property unassigned. */
    constructor ()
      ensures State() == TermMetaState(false, [], [], None, None)
    {
      noVersions := false;
      taxonomies := [];
      postTypes := [];
      layoutName := None;
      shortName := None;
    }

    /**
     * `new Term_Meta($type, $no_versions, $layout_name, $short_name)`: the object, unless the
     * constructor stopped the request or failed.
     */
    static method New(typ: Value, noVersions: Value, layoutName: string, shortName: string, wp: Env)
        returns (outcome: Outcome, tm: TermMeta?)
      ensures outcome == Construct(typ, noVersions, layoutName, shortName, wp).outcome
      ensures tm != null <==> outcome in {Constructed, ReturnedEarly}
      ensures tm != null ==> fresh(tm) && tm.State() == Construct(typ, noVersions, layoutName, shortName, wp).state
    {
      var t := new TermMeta();
      outcome := t.Init(typ, noVersions, layoutName, shortName, wp);
      tm := if outcome in {Constructed, ReturnedEarly} then t else null;
    }

    /** The body of `__construct`, run on a fresh object. */
    method Init(typ: Value, noVersions: Value, layoutName: string, shortName: string, wp: Env) returns (outcome: Outcome)
      requires State() == TermMetaState(false, [], [], None, None)
      modifies this
      ensures Construction(outcome, State()) == Construct(typ, noVersions, layoutName, shortName, wp)
    {
      this.noVersions := ToBool(noVersions);
      var stop := ScanTypes(TypeEntries(typ), wp);
      outcome := Conclude(stop, layoutName, shortName);
    }

    /** What `__construct` does once the walk has stopped: the 'home' names, `wp_die`, or the names. */
    method Conclude(stop: Stop, layoutName: string, shortName: string) returns (outcome: Outcome)
      modifies this
      ensures Construction(outcome, State()) == Settle(old(State()), stop, layoutName, shortName)
    {
      if stop == AtHome {
        // The assignments of the 'home' case, made just before its fall-through returns.
        this.layoutName := Some(if EmptyString(layoutName) then "home" else layoutName);
        this.shortName := Some("TM_home");
        return ReturnedEarly;
      } else if stop == AtOther {
        return ReturnedEarly;
      }
      if taxonomies == [] && postTypes == [] {
        return Died;
      }
      if taxonomies == [] || postTypes == [] {
        return TypeError;
      }
      var names := taxonomies + postTypes;
      var name := if EmptyString(layoutName) then ConcatUcwords(names) else layoutName;
      this.layoutName := Some(name);
      this.shortName := Some(if EmptyString(shortName) then "TM_" + ToLower(Prefix(name, 17)) else shortName);
      return Constructed;
    }

    /** The `foreach`/`switch` over the type entries, appending to the two lists. */
    method ScanTypes(entries: PArray, wp: Env) returns (stop: Stop)
      modifies this
      ensures Scanned(taxonomies, postTypes, stop) == Scan(entries, old(taxonomies), old(postTypes), wp)
      ensures noVersions == old(noVersions) && layoutName == old(layoutName) && shortName == old(shortName)
    {
      var i := 0;
      while i < |entries|
        invariant 0 <= i <= |entries|
        invariant noVersions == old(noVersions) && layoutName == old(layoutName) && shortName == old(shortName)
        invariant Scan(entries[i..], taxonomies, postTypes, wp) == Scan(entries, old(taxonomies), old(postTypes), wp)
      {
        var key, name := entries[i].0, ToPhpString(entries[i].1);
        assert entries[i..][1..] == entries[i + 1..];
        if key == StrKey("taxonomy") {
          if wp.taxonomyExists(name) {
            taxonomies := taxonomies + [name];
          }
        } else if key == StrKey("post_type") {
          if wp.postTypeExists(name) {
            postTypes := postTypes + [name];
          }
        } else if key == StrKey("home") {
          return AtHome;
        } else {
          return AtOther;
        }
        i := i + 1;
      }
      return Exhausted;
    }
  }

  // ---------------------------------------------------------------------------------------------
  // get_archive_layouts_list

  /** The two layouts declared before the `archive_layouts_list` filter runs. */
  const DefaultLayouts: seq<PArray> := [
    [(StrKey("taxonomies"), Str("category")), (StrKey("supports"), Arr([]))],
    [(StrKey("taxonomies"), Str("post_tag")), (StrKey("supports"), Arr([])), (StrKey("layout_name"), Str("Tags"))]
  ]

  /** `taxonomy_exists($taxonomy) || 'home' == $taxonomy`. */
  predicate Passes(v: Value, wp: Env) {
    wp.taxonomyExists(ToPhpString(v)) || IsHome(v)
  }

  /**
   * `'home' == $v`: the loose comparison with the non-numeric string 'home' holds for that
   * string and for `true`.
   */
  predicate IsHome(v: Value) {
    match v
    case Str(s) => s == "home"
    case Bool(b) => b
    case _ => false
  }

  /** The entries of `(array) $archive_layout['taxonomies']` that pass, in order. */
  function Candidates(layout: PArray): seq<Value> {
    Values(ToArray(Get(layout, "taxonomies")))
  }

  function Passing(vs: seq<Value>, wp: Env): (r: seq<Value>)
    ensures |r| <= |vs|
  {
    if vs == [] then []
    else if Passes(vs[|vs| - 1], wp) then Passing(vs[..|vs| - 1], wp) + [vs[|vs| - 1]]
    else Passing(vs[..|vs| - 1], wp)
  }

  /** Every entry kept is 'home' or an existing taxonomy, and every such entry is kept. */
  lemma {:induction false} PassingPasses(vs: seq<Value>, wp: Env)
    ensures forall i :: 0 <= i < |Passing(vs, wp)| ==> Passes(Passing(vs, wp)[i], wp)
    ensures forall v :: v in vs && Passes(v, wp) ==> v in Passing(vs, wp)
    decreases |vs|
  {
    if vs != [] {
      PassingPasses(vs[..|vs| - 1], wp);
      assert vs == vs[..|vs| - 1] + [vs[|vs| - 1]];
    }
  }

  /** The passing taxonomies of each layout, in order. */
  function PassedBy(layouts: seq<PArray>, wp: Env): (r: seq<seq<Value>>)
    ensures |r| == |layouts|
  {
    seq(|layouts|, i requires 0 <= i < |layouts| => Passing(Candidates(layouts[i]), wp))
  }

  /**
   * `$taxonomies` after the first `n` layouts, given what `passed` each layout. It is never
   * reset, so every layout adds its passing taxonomies to those of all the layouts before it.
   */
  function Accumulated(passed: seq<seq<Value>>, n: nat): seq<Value>
    requires n <= |passed|
  {
    if n == 0 then [] else Accumulated(passed, n - 1) + passed[n - 1]
  }

  function Strings(vs: seq<Value>): (r: seq<string>)
    ensures |r| == |vs| && forall i :: 0 <= i < |vs| ==> r[i] == ToPhpString(vs[i])
  {
    if vs == [] then [] else [ToPhpString(vs[0])] + Strings(vs[1..])
  }

  /** `$archive_layout['layout_name']` after the default is filled in. */
  function LayoutName(layout: PArray, taxonomies: seq<Value>): Value {
    var given := Get(layout, "layout_name");
    if !ToBool(given) then Str(ConcatUcwords(Strings(taxonomies))) else given
  }

  /** `strtolower(substr($layout_name, 0, 17)) . '_al'`. */
  function ShortName(name: Value): string {
    ToLower(Prefix(ToPhpString(name), 17)) + "_al"
  }

  /** A short name is at most 20 characters: the lower-cased first 17 of the name, then `_al`. */
  lemma ShortNameShape(name: Value)
    ensures var r := ShortName(name);
      && 3 <= |r| <= 20 && r[|r| - 3..] == "_al"
      && r[..|r| - 3] == ToLower(Prefix(ToPhpString(name), 17))
  {
    var head := ToLower(Prefix(ToPhpString(name), 17));
    assert (head + "_al")[|head|..] == "_al";
    assert (head + "_al")[..|head|] == head;
  }

  /** One layout as it enters the list, given the accumulated taxonomies. */
  function Normalise(layout: PArray, taxonomies: seq<Value>): PArray {
    var name := LayoutName(layout, taxonomies);
    var a := ArraySet(layout, StrKey("taxonomies"), Arr(ListOf(taxonomies)));
    var b := ArraySet(a, StrKey("layout_name"), name);
    ArraySet(b, StrKey("short_name"), Str(ShortName(name)))
  }

  /**
   * The layouts among the first `n` that enter `$archive_layouts_list`, each with the
   * taxonomies accumulated when it is reached: a layout enters whenever the accumulator is
   * not empty after it.
   */
  function Entered(layouts: seq<PArray>, passed: seq<seq<Value>>, n: nat): seq<(PArray, seq<Value>)>
    requires |passed| == |layouts| && n <= |layouts|
  {
    if n == 0 then []
    else
      var acc := Accumulated(passed, n);
      Entered(layouts, passed, n - 1) + (if |acc| == 0 then [] else [(layouts[n - 1], acc)])
  }

  /** `$archive_layouts_list`: every entered layout, normalised, in order. */
  function NormaliseAll(entered: seq<(PArray, seq<Value>)>): (r: seq<PArray>)
    ensures |r| == |entered|
  {
    MapPairs(Normalise, entered)
  }

  /** `f` applied to each pair of `s`, in order. */
  function MapPairs<A, B, C>(f: (A, B) -> C, s: seq<(A, B)>): (r: seq<C>)
    ensures |r| == |s|
  {
    if s == [] then [] else MapPairs(f, s[..|s| - 1]) + [f(s[|s| - 1].0, s[|s| - 1].1)]
  }

  /** What the function returns: the list, or null when no layout entered it. */
  function ListResult(layouts: seq<PArray>, wp: Env): Option<seq<PArray>> {
    var list := NormaliseAll(Entered(layouts, PassedBy(layouts, wp), |layouts|));
    if |list| == 0 then None else Some(list)
  }

  /**
   * `get_archive_layouts_list()`. `filter` is what the `archive_layouts_list` filter makes of
   * the default layouts.
   */
  method GetArchiveLayoutsList(filter: seq<PArray> -> seq<PArray>, wp: Env) returns (r: Option<seq<PArray>>)
    ensures r == ListResult(filter(DefaultLayouts), wp)
  {
    r := NormaliseLayouts(filter(DefaultLayouts), wp);
  }

  /** The two loops of `get_archive_layouts_list()`, over the filtered layouts. */
  method NormaliseLayouts(layouts: seq<PArray>, wp: Env) returns (r: Option<seq<PArray>>)
    ensures r == ListResult(layouts, wp)
  {
    ghost var passed := PassedBy(layouts, wp);
    var taxonomies: seq<Value> := [];
    var list: seq<PArray> := [];
    var i := 0;
    while i < |layouts|
      invariant Progress(layouts, passed, i, taxonomies, list)
    {
      taxonomies, list := AddLayout(layouts, passed, i, taxonomies, list, wp);
      i := i + 1;
    }
    r := if |list| == 0 then None else Some(list);
  }

  /**
   * The state of the outer `foreach` after its first `i` layouts: `$taxonomies` holds what
   * they passed, and the list holds the ones that entered it, normalised.
   */
  ghost predicate Progress(layouts: seq<PArray>, passed: seq<seq<Value>>, i: nat, taxonomies: seq<Value>, list: seq<PArray>) {
    && |passed| == |layouts| && i <= |layouts|
    && taxonomies == Accumulated(passed, i)
    && list == NormaliseAll(Entered(layouts, passed, i))
  }

  /** One pass of the outer `foreach`: layout `i` adds its taxonomies and, unless they are still none, enters the list. */
  method AddLayout(layouts: seq<PArray>, ghost passed: seq<seq<Value>>, i: nat, before: seq<Value>, list: seq<PArray>, wp: Env)
    returns (taxonomies: seq<Value>, list': seq<PArray>)
    requires passed == PassedBy(layouts, wp) && i < |layouts| && Progress(layouts, passed, i, before, list)
    ensures Progress(layouts, passed, i + 1, taxonomies, list')
  {
    var layout := layouts[i];
    taxonomies := CollectTaxonomies(before, Candidates(layout), wp);
    ListStep(layouts, passed, i);
    list' := list;
    if |taxonomies| > 0 {
      list' := list + [Normalise(layout, taxonomies)];
    }
  }

  // Properties of the list

  /** What a normalised layout holds under each key. */
  lemma LookupNormalise(layout: PArray, acc: seq<Value>, k: Key)
    ensures Lookup(Normalise(layout, acc), k) ==
      if k == StrKey("short_name") then Some(Str(ShortName(LayoutName(layout, acc))))
      else if k == StrKey("layout_name") then Some(LayoutName(layout, acc))
      else if k == StrKey("taxonomies") then Some(Arr(ListOf(acc)))
      else Lookup(layout, k)
  {
    var name := LayoutName(layout, acc);
    var a := ArraySet(layout, StrKey("taxonomies"), Arr(ListOf(acc)));
    var b := ArraySet(a, StrKey("layout_name"), name);
    LookupAfterSet(layout, StrKey("taxonomies"), Arr(ListOf(acc)), k);
    LookupAfterSet(a, StrKey("layout_name"), name, k);
    LookupAfterSet(b, StrKey("short_name"), Str(ShortName(name)), k);
  }

  /**
   * A normalised layout holds the accumulated taxonomies as a list, its given name or else
   * the names of those taxonomies run together, a short name of at most 20 characters made
   * from that name, and every other entry as it was.
   */
  lemma NormaliseShape(layout: PArray, acc: seq<Value>)
    ensures var r := Normalise(layout, acc);
      var given := Get(layout, "layout_name");
      && Get(r, "taxonomies") == Arr(ListOf(acc))
      && Get(r, "layout_name") == (if ToBool(given) then given else Str(ConcatUcwords(Strings(acc))))
      && Get(r, "short_name") == Str(ShortName(Get(r, "layout_name")))
    ensures forall k :: k !in {StrKey("taxonomies"), StrKey("layout_name"), StrKey("short_name")} ==>
      Lookup(Normalise(layout, acc), k) == Lookup(layout, k)
  {
    LookupNormalise(layout, acc, StrKey("taxonomies"));
    LookupNormalise(layout, acc, StrKey("layout_name"));
    LookupNormalise(layout, acc, StrKey("short_name"));
    forall k | k !in {StrKey("taxonomies"), StrKey("layout_name"), StrKey("short_name")}
      ensures Lookup(Normalise(layout, acc), k) == Lookup(layout, k)
    {
      LookupNormalise(layout, acc, k);
    }
  }

  /** One more layout: it enters the list, normalised, unless the accumulator is still empty. */
  lemma ListStep(layouts: seq<PArray>, passed: seq<seq<Value>>, i: nat)
    requires |passed| == |layouts| && i < |layouts|
    ensures Accumulated(passed, i + 1) == Accumulated(passed, i) + passed[i]
    ensures var acc := Accumulated(passed, i + 1);
      NormaliseAll(Entered(layouts, passed, i + 1))
      == NormaliseAll(Entered(layouts, passed, i)) + (if |acc| == 0 then [] else [Normalise(layouts[i], acc)])
  {
    var acc := Accumulated(passed, i + 1);
    if |acc| > 0 {
      NormaliseAllAppend(Entered(layouts, passed, i), layouts[i], acc);
    } else {
      assert Entered(layouts, passed, i + 1) == Entered(layouts, passed, i) + [];
      assert Entered(layouts, passed, i) + [] == Entered(layouts, passed, i);
    }
  }

  /** Normalising one more entered layout appends it to the list. */
  lemma NormaliseAllAppend(entered: seq<(PArray, seq<Value>)>, layout: PArray, acc: seq<Value>)
    ensures NormaliseAll(entered + [(layout, acc)]) == NormaliseAll(entered) + [Normalise(layout, acc)]
  {
    MapPairsAppend(Normalise, entered, layout, acc);
  }

  lemma MapPairsAppend<A, B, C>(f: (A, B) -> C, s: seq<(A, B)>, a: A, b: B)
    ensures MapPairs(f, s + [(a, b)]) == MapPairs(f, s) + [f(a, b)]
  {
    assert (s + [(a, b)])[..|s|] == s;
  }

  /** The list holds, at each position, the entered layout there normalised with its taxonomies. */
  lemma NormaliseAllAt(entered: seq<(PArray, seq<Value>)>, j: nat)
    requires j < |entered|
    ensures NormaliseAll(entered)[j] == Normalise(entered[j].0, entered[j].1)
  {
    MapPairsAt(Normalise, entered, j);
  }

  lemma {:induction false} MapPairsAt<A, B, C>(f: (A, B) -> C, s: seq<(A, B)>, j: nat)
    requires j < |s|
    ensures MapPairs(f, s)[j] == f(s[j].0, s[j].1)
  {
    var n := |s|;
    if j < n - 1 {
      MapPairsAt(f, s[..n - 1], j);
    }
  }

  /** Every taxonomy a layout passes is 'home' or an existing taxonomy. */
  lemma PassedByPasses(layouts: seq<PArray>, wp: Env)
    ensures var passed := PassedBy(layouts, wp);
      forall j, i :: 0 <= j < |passed| && 0 <= i < |passed[j]| ==> Passes(passed[j][i], wp)
  {
    var passed := PassedBy(layouts, wp);
    forall j | 0 <= j < |passed|
      ensures forall i :: 0 <= i < |passed[j]| ==> Passes(passed[j][i], wp)
    {
      PassingPasses(Candidates(layouts[j]), wp);
    }
  }

  /** When every layout passes only such taxonomies, so does the accumulator. */
  lemma {:induction false} AccumulatedPasses(passed: seq<seq<Value>>, n: nat, wp: Env)
    requires n <= |passed|
    requires forall j, i :: 0 <= j < |passed| && 0 <= i < |passed[j]| ==> Passes(passed[j][i], wp)
    ensures forall i :: 0 <= i < |Accumulated(passed, n)| ==> Passes(Accumulated(passed, n)[i], wp)
    decreases n
  {
    if n > 0 {
      AccumulatedPasses(passed, n - 1, wp);
      var before, more := Accumulated(passed, n - 1), passed[n - 1];
      assert Accumulated(passed, n) == before + more;
      forall i | 0 <= i < |before + more|
        ensures Passes((before + more)[i], wp)
      {
        if i < |before| {
          assert (before + more)[i] == before[i];
        } else {
          assert (before + more)[i] == more[i - |before|];
        }
      }
    }
  }

  /** The accumulator only grows: what it held after `n` layouts it still holds, in front, after `m`. */
  lemma {:induction false} AccumulatedGrows(passed: seq<seq<Value>>, n: nat, m: nat)
    requires n <= m <= |passed|
    ensures Accumulated(passed, n) <= Accumulated(passed, m)
    decreases m
  {
    if n < m {
      AccumulatedGrows(passed, n, m - 1);
      PrefixOfAppend(Accumulated(passed, n), Accumulated(passed, m - 1), passed[m - 1]);
    }
  }

  /** The list only grows: layouts that entered it stay, in place, as later layouts are walked. */
  lemma {:induction false} EnteredGrows(layouts: seq<PArray>, passed: seq<seq<Value>>, n: nat, m: nat)
    requires |passed| == |layouts| && n <= m <= |layouts|
    ensures Entered(layouts, passed, n) <= Entered(layouts, passed, m)
    decreases m
  {
    if n < m {
      EnteredGrows(layouts, passed, n, m - 1);
      var acc := Accumulated(passed, m);
      PrefixOfAppend(Entered(layouts, passed, n), Entered(layouts, passed, m - 1),
        if |acc| == 0 then [] else [(layouts[m - 1], acc)]);
    }
  }

  /** While no taxonomy has passed, no layout enters the list. */
  lemma {:induction false} NothingBeforeFirstTaxonomy(layouts: seq<PArray>, passed: seq<seq<Value>>, n: nat)
    requires |passed| == |layouts| && n <= |layouts| && |Accumulated(passed, n)| == 0
    ensures Entered(layouts, passed, n) == []
    decreases n
  {
    if n > 0 {
      NothingBeforeFirstTaxonomy(layouts, passed, n - 1);
    }
  }

  /**
   * Once a taxonomy has passed (after the first `n` layouts), every later layout enters the
   * list, even one with no taxonomy of its own.
   */
  lemma {:induction false} EveryLayoutAfterFirstTaxonomy(layouts: seq<PArray>, passed: seq<seq<Value>>, n: nat, m: nat)
    requires |passed| == |layouts| && n <= m <= |layouts| && |Accumulated(passed, n)| > 0
    ensures |Entered(layouts, passed, m)| == |Entered(layouts, passed, n)| + (m - n)
    decreases m
  {
    if n < m {
      EveryLayoutAfterFirstTaxonomy(layouts, passed, n, m - 1);
      AccumulatedGrows(passed, n, m);
    }
  }

  /**
   * After the first taxonomy has passed, layout `k` enters the list in its turn and carries
   * every taxonomy accumulated up to it, those of the layouts before it included.
   */
  lemma LayoutEntersInTurn(layouts: seq<PArray>, passed: seq<seq<Value>>, n: nat, k: nat)
    requires |passed| == |layouts| && n <= k < |layouts| && |Accumulated(passed, n)| > 0
    ensures |Entered(layouts, passed, n)| + (k - n) < |Entered(layouts, passed, k + 1)|
    ensures Entered(layouts, passed, k + 1)[|Entered(layouts, passed, n)| + (k - n)]
      == (layouts[k], Accumulated(passed, k + 1))
  {
    EveryLayoutAfterFirstTaxonomy(layouts, passed, n, k);
    AccumulatedGrows(passed, n, k + 1);
  }

  /** The inner `foreach`: the passing taxonomies of one layout are appended to `$taxonomies`. */
  method CollectTaxonomies(before: seq<Value>, candidates: seq<Value>, wp: Env) returns (taxonomies: seq<Value>)
    ensures taxonomies == before + Passing(candidates, wp)
  {
    taxonomies := before;
    var j := 0;
    while j < |candidates|
      invariant 0 <= j <= |candidates|
      invariant taxonomies == before + Passing(candidates[..j], wp)
    {
      assert candidates[..j + 1][..j] == candidates[..j];
      if Passes(candidates[j], wp) {
        ConcatAssoc(before, Passing(candidates[..j], wp), [candidates[j]]);
        taxonomies := taxonomies + [candidates[j]];
      }
      j := j + 1;
    }
    assert candidates[..j] == candidates;
  }
}
