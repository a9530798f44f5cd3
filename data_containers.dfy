/**
 * The data-container helpers (data-containers.php): the magic accessors of `DataContainer`,
 * `get_data_container`, the query arguments `get_data_containers` tries to pass to `WP_Query`,
 * and the `posts_where` clause that limits a query by date.
 *
 * The code is modelled as written. Five names in it do not resolve when it runs: the variable
 * `$get_post`, the function `bool`, and the class names `Exception`, `WP_Query` (both inside
 * namespace `LayoutUI`) and 'Data_Container'. For all but `WP_Query`, a `...Intended` member is
 * the same code with that name corrected, and its lemmas show the behaviour the comments
 * describe. The callback string 'filter_where_date_less_than' names a global function, while the
 * function is declared in `LayoutUI`; the failing `new WP_Query` means it is never called.
 */
module DataContainers {
  import opened Php
  import opened WordPress

  /** What a call raises instead of returning. */
  datatype Failure =
    | InvalidKey(key: Value)          // `new \Exception("Cannot get key. Key is invalid: $key")`
    | ClassNotFound(name: string)     // `new X(...)` for a class X that is not declared
    | UndefinedFunction(name: string) // a call of a function that is not declared
    | NotCallable                     // a call through a variable that holds null

  datatype Outcome<T> = Returned(value: T) | Raised(failure: Failure)

  /** A term object; only its `term_id` is used. */
  datatype Term = Term(termId: int)

  /** The state of a `DataContainer`: `_post` and `_term` (None for null) and `_allowed_values`. */
  datatype Container = Container(post: Option<Post>, term: Option<Term>, allowedValues: seq<Value>)

  /** The values the functions here are called with: PHP values, a `WP_Post`, or a container. */
  datatype Arg = Plain(v: Value) | PostObject(post: Post) | ContainerObject(container: Container)

  /** `empty($a)`; objects are never empty. */
  predicate IsEmpty(a: Arg) {
    a.Plain? && !ToBool(a.v)
  }

  /** `is_a($a, $class)`; the plugin's own class is `LayoutUI\DataContainer`. */
  predicate IsA(a: Arg, className: string) {
    match a
    case Plain(_) => false
    case PostObject(_) => className == "WP_Post"
    case ContainerObject(_) => className == "LayoutUI\\DataContainer"
  }

  /** A container as its declarations leave it: no post, no term, nothing allowed. */
  const Blank := Container(None, None, [])

  // ---------------------------------------------------------------------------------------------
  // DataContainer::__construct, __get, __isset

  /**
   * `new DataContainer($post)`. For a non-empty `$post` the condition calls `$get_post`, an
   * undefined variable, so the construction fails; the branch it guards is empty anyway.
   */
  function NewContainer(post: Arg): (r: Outcome<Container>)
    ensures r.Returned? <==> IsEmpty(post)
    ensures r.Returned? ==> r.value == Blank
  {
    if IsEmpty(post) then Returned(Blank) else Raised(NotCallable)
  }

  /** The constructor with `get_post` called: it never fails, and it still stores nothing. */
  function NewContainerIntended(post: Arg): (r: Outcome<Container>)
    ensures r == Returned(Blank)
  {
    Returned(Blank)
  }

  /** The property an allowed key is read from; the class does not declare it. */
  const DataProperty := Str("_crunchbase_data")

  /**
   * `$container->__get($key)`. `post_id` and `term_id` read the post's and the term's ids (null,
   * with a warning, when there is none); any other non-empty key that is not allowed raises.
   * `Exception` resolves to `LayoutUI\Exception`, which is not declared, so what is raised is
   * a class-not-found error.
   */
  function GetProperty(c: Container, key: Value): Outcome<Value> {
    GetGuarded(c, key, key == DataProperty)
  }

  /**
   * `__get($key)` while `guarded` says whether a `__get('_crunchbase_data')` is already running.
   * An allowed key reads `$this->_crunchbase_data[$key]`. That property is not declared, so the
   * read calls `__get('_crunchbase_data')` again, unless PHP's per-name recursion guard is set;
   * then it reads the missing property directly: null, and null indexed is null.
   */
  function GetGuarded(c: Container, key: Value, guarded: bool): Outcome<Value>
    decreases !guarded
  {
    if !ToBool(key) then Returned(Null)
    else if key == Str("post_id") then Returned(if c.post.Some? then Int(c.post.value.id) else Null)
    else if key == Str("term_id") then Returned(if c.term.Some? then Int(c.term.value.termId) else Null)
    else if key !in c.allowedValues then Raised(ClassNotFound("LayoutUI\\Exception"))
    else if guarded then Returned(Null)
    else
      match GetGuarded(c, DataProperty, true)
      case Raised(f) => Raised(f)
      case Returned(_) => Returned(Null)
  }

  /**
   * `__get` raising the exception its comment names. For an allowed key the rejected key is the
   * nested read's `_crunchbase_data`.
   */
  function GetPropertyIntended(c: Container, key: Value): Outcome<Value> {
    match GetProperty(c, key)
    case Raised(_) => Raised(InvalidKey(if key in c.allowedValues then DataProperty else key))
    case Returned(v) => Returned(v)
  }

  /**
   * `$container->__isset($key)`. For a non-empty key it calls `bool(...)`, which is not a
   * function, so it fails before `__get` runs; for an empty key it falls off its end (null).
   */
  function IssetProperty(c: Container, key: Value): Outcome<Value> {
    if !ToBool(key) then Returned(Null) else Raised(UndefinedFunction("LayoutUI\\bool"))
  }

  /** `__isset` with the cast `(bool)` and the catch of `\Exception` it describes. */
  function IssetPropertyIntended(c: Container, key: Value): Outcome<Value> {
    if !ToBool(key) then Returned(Null)
    else
      match GetPropertyIntended(c, key)
      case Returned(v) => Returned(Bool(ToBool(v)))
      case Raised(InvalidKey(_)) => Returned(Bool(false))
      case Raised(f) => Raised(f)
  }

  /**
   * `__get` answers an empty key with null and `post_id`/`term_id` from the post and the term.
   * It raises for the other keys that are not allowed, and also for an allowed key when
   * `_crunchbase_data` itself is not allowed (the nested `__get` rejects it); every other key
   * gives null.
   */
  lemma GetKeys(c: Container, key: Value)
    ensures !ToBool(key) ==> GetProperty(c, key) == Returned(Null)
    ensures key == Str("post_id") ==> GetProperty(c, key) == Returned(if c.post.Some? then Int(c.post.value.id) else Null)
    ensures key == Str("term_id") ==> GetProperty(c, key) == Returned(if c.term.Some? then Int(c.term.value.termId) else Null)
    ensures GetProperty(c, key).Raised? <==>
      ToBool(key) && key != Str("post_id") && key != Str("term_id")
      && (key !in c.allowedValues || (key != DataProperty && DataProperty !in c.allowedValues))
    ensures GetProperty(c, key).Raised? ==> GetProperty(c, key).failure == ClassNotFound("LayoutUI\\Exception")
    ensures GetProperty(c, key).Returned? && key != Str("post_id") && key != Str("term_id") ==>
      GetProperty(c, key).value == Null
  {
    var inner := GetGuarded(c, DataProperty, true);
    assert ToBool(DataProperty) && DataProperty != Str("post_id") && DataProperty != Str("term_id");
    assert inner == if DataProperty in c.allowedValues then Returned(Null) else Raised(ClassNotFound("LayoutUI\\Exception"));
  }

  /** An allowed key still raises: reading `_crunchbase_data` goes back through `__get`, which rejects it. */
  lemma AllowedKeyRaises()
    ensures GetProperty(Container(None, None, [Str("x")]), Str("x")) == Raised(ClassNotFound("LayoutUI\\Exception"))
    ensures GetProperty(Container(None, None, [Str("x"), DataProperty]), Str("x")) == Returned(Null)
  {
  }

  /** Every container the constructor builds rejects every key but the empty key, `post_id` and `term_id`. */
  lemma BuiltContainersRejectKeys(post: Arg, key: Value)
    requires NewContainer(post).Returned?
    requires ToBool(key) && key != Str("post_id") && key != Str("term_id")
    ensures GetProperty(NewContainer(post).value, key) == Raised(ClassNotFound("LayoutUI\\Exception"))
    ensures GetPropertyIntended(NewContainerIntended(post).value, key) == Raised(InvalidKey(key))
  {
  }

  /** As written, `__isset` fails for every non-empty key, whatever `__get` would have done. */
  lemma IssetNeverAnswers(c: Container, key: Value)
    requires ToBool(key)
    ensures IssetProperty(c, key) == Raised(UndefinedFunction("LayoutUI\\bool"))
  {
  }

  /**
   * Corrected, `__isset` returns false whenever `__get` raises, and otherwise the truth of what
   * `__get` returns; it never raises itself.
   */
  lemma IssetIntendedFollowsGet(c: Container, key: Value)
    requires ToBool(key)
    ensures GetPropertyIntended(c, key).Raised? ==> IssetPropertyIntended(c, key) == Returned(Bool(false))
    ensures GetPropertyIntended(c, key).Returned? ==> IssetPropertyIntended(c, key) == Returned(Bool(ToBool(GetPropertyIntended(c, key).value)))
    ensures IssetPropertyIntended(c, key).Returned?
  {
  }

  /** The correction changes only what is raised: both versions return the same values for the same keys. */
  lemma GetIntendedAgrees(c: Container, key: Value)
    ensures GetProperty(c, key).Returned? <==> GetPropertyIntended(c, key).Returned?
    ensures GetProperty(c, key).Returned? ==> GetProperty(c, key) == GetPropertyIntended(c, key)
  {
  }

  // ---------------------------------------------------------------------------------------------
  // get_data_container

  /** `get_post($id)` as an argument: the post, or null. */
  function FetchPost(id: int, wp: Env): Arg {
    var p := wp.getPost(id);
    if p.Some? then PostObject(p.value) else Plain(Null)
  }

  /** The `$container` `get_data_container` dispatches on: an integer is first looked up as a post. */
  function Resolved(container: Arg, wp: Env): Arg {
    if container.Plain? && container.v.Int? then FetchPost(container.v.i, wp) else container
  }

  /**
   * `get_data_container($container)`; None is `false`. 'Data_Container' names no class, so a
   * container is never returned as is, and a post is wrapped by the failing constructor.
   */
  function GetDataContainer(container: Arg, wp: Env): Outcome<Option<Container>> {
    var c := Resolved(container, wp);
    if IsA(c, "Data_Container") then Returned(Some(c.container))
    else if IsA(c, "WP_Post") then
      match NewContainer(c)
      case Returned(d) => Returned(Some(d))
      case Raised(f) => Raised(f)
    else Returned(None)
  }

  /** `get_data_container` with the class's real name and the corrected constructor. */
  function GetDataContainerIntended(container: Arg, wp: Env): Outcome<Option<Container>> {
    var c := Resolved(container, wp);
    if IsA(c, "LayoutUI\\DataContainer") then Returned(Some(c.container))
    else if IsA(c, "WP_Post") then
      match NewContainerIntended(c)
      case Returned(d) => Returned(Some(d))
      case Raised(f) => Raised(f)
    else Returned(None)
  }

  /** As written, a post (given or found by id) makes the call fail, and everything else gives false. */
  lemma GetDataContainerAsWritten(container: Arg, wp: Env)
    ensures GetDataContainer(container, wp).Raised? <==> Resolved(container, wp).PostObject?
    ensures GetDataContainer(container, wp).Raised? ==> GetDataContainer(container, wp).failure == NotCallable
    ensures !Resolved(container, wp).PostObject? ==> GetDataContainer(container, wp) == Returned(None)
  {
  }

  /**
   * Corrected, a container comes back as is, a post (given or found by id) is wrapped in a new
   * container, and anything else, an id without a post included, gives false.
   */
  lemma GetDataContainerIntendedDispatch(container: Arg, wp: Env)
    ensures container.ContainerObject? ==> GetDataContainerIntended(container, wp) == Returned(Some(container.container))
    ensures Resolved(container, wp).PostObject? ==> GetDataContainerIntended(container, wp) == Returned(Some(Blank))
    ensures container.Plain? && !(container.v.Int? && wp.getPost(container.v.i).Some?) ==>
      GetDataContainerIntended(container, wp) == Returned(None)
  {
  }

  // ---------------------------------------------------------------------------------------------
  // get_data_containers

  /** The first branch: an existing `taxonomy` and a `term` are both given. */
  predicate TaxonomyBranch(args: PArray, wp: Env) {
    Isset(args, "taxonomy") && wp.taxonomyExists(ToPhpString(Get(args, "taxonomy"))) && Isset(args, "term")
  }

  /** The `tax_query` clause: the terms of the given taxonomy whose slug is the sanitized `term`. */
  function TaxQuery(args: PArray): Value {
    Arr([(IntKey(0), Arr([
      (StrKey("taxonomy"), Get(args, "taxonomy")),
      (StrKey("field"), Str("slug")),
      (StrKey("terms"), Str(SanitizeKeyValue(Get(args, "term"))))]))])
  }

  /** `$_args` after the branch chain; None is the early `return false`. */
  function BaseArgs(args: PArray, prefix: string, wp: Env): Option<PArray> {
    if TaxonomyBranch(args, wp) then
      Some([(StrKey("post_type"), Str(prefix + "_tax_" + ToPhpString(Get(args, "taxonomy")))),
            (StrKey("tax_query"), TaxQuery(args))])
    else if Isset(args, "homepage") then
      Some([(StrKey("post_type"), Str(prefix + "_homepage"))])
    else if Isset(args, "post_id") then
      Some([(StrKey("post_type"), Str(prefix + "_post_type")), (StrKey("post_parent"), Get(args, "post_id"))])
    else None
  }

  /** `isset($args['count']) ? $args['count'] : 1` */
  function PostsPerPage(args: PArray): Value {
    if Isset(args, "count") then Get(args, "count") else Int(1)
  }

  /** The arguments `get_data_containers` tries to pass to `WP_Query`, or None when it returns false. */
  function QueryArgs(args: PArray, prefix: string, wp: Env): Option<PArray> {
    var base := BaseArgs(args, prefix, wp);
    if base.None? then None else Some(ArraySet(base.value, StrKey("posts_per_page"), PostsPerPage(args)))
  }

  /**
   * How a call of `get_data_containers($args)` ends. Inside namespace `LayoutUI` the unqualified
   * `new WP_Query(...)` names `LayoutUI\WP_Query`, which is not declared (class names never fall
   * back to the global namespace). So once a branch has built `$_args`, the call raises there;
   * the `posts_where` filter it has just added is never removed. With no branch it returns false.
   */
  function CallOutcome(args: PArray, prefix: string, wp: Env): Outcome<Value> {
    if QueryArgs(args, prefix, wp).None? then Returned(Bool(false))
    else Raised(ClassNotFound("LayoutUI\\WP_Query"))
  }

  /**
   * `get_data_containers($args)`: the branch chain that builds `$_args`, the `posts_per_page`
   * entry, and the failing `new WP_Query`. `query` is what the call builds for the query, and
   * `outcome` how the call ends. `prefix` is the plugin's `PREFIX` constant.
   */
  method GetDataContainers(args: PArray, prefix: string, wp: Env) returns (query: Option<PArray>, outcome: Outcome<Value>)
    ensures query == QueryArgs(args, prefix, wp)
    ensures outcome == CallOutcome(args, prefix, wp)
  {
    var a: PArray;
    if Isset(args, "taxonomy") && wp.taxonomyExists(ToPhpString(Get(args, "taxonomy"))) && Isset(args, "term") {
      a := [(StrKey("post_type"), Str(prefix + "_tax_" + ToPhpString(Get(args, "taxonomy")))),
            (StrKey("tax_query"), TaxQuery(args))];
    } else if Isset(args, "homepage") {
      a := [(StrKey("post_type"), Str(prefix + "_homepage"))];
    } else if Isset(args, "post_id") {
      a := [(StrKey("post_type"), Str(prefix + "_post_type")), (StrKey("post_parent"), Get(args, "post_id"))];
    } else {
      return None, Returned(Bool(false));
    }
    a := ArraySet(a, StrKey("posts_per_page"), if Isset(args, "count") then Get(args, "count") else Int(1));
    query := Some(a);
    outcome := Raised(ClassNotFound("LayoutUI\\WP_Query"));
  }

  /**
   * As written, the call never runs a query: it fails at `new WP_Query` exactly when one of the
   * three branches applies, and otherwise returns false.
   */
  lemma NeverQueries(args: PArray, prefix: string, wp: Env)
    ensures CallOutcome(args, prefix, wp).Raised? <==>
      TaxonomyBranch(args, wp) || Isset(args, "homepage") || Isset(args, "post_id")
    ensures CallOutcome(args, prefix, wp).Raised? ==>
      CallOutcome(args, prefix, wp).failure == ClassNotFound("LayoutUI\\WP_Query")
    ensures CallOutcome(args, prefix, wp).Returned? ==> CallOutcome(args, prefix, wp).value == Bool(false)
  {
    QueryArgsFalse(args, prefix, wp);
  }

  /** The call gives false exactly when none of the three branches applies. */
  lemma QueryArgsFalse(args: PArray, prefix: string, wp: Env)
    ensures QueryArgs(args, prefix, wp).None? <==>
      !TaxonomyBranch(args, wp) && !Isset(args, "homepage") && !Isset(args, "post_id")
  {
  }

  /**
   * The query's post type is the prefix followed by the branch's suffix, and it asks for
   * `count` posts, or one.
   */
  lemma QueryArgsEntries(args: PArray, prefix: string, wp: Env)
    requires QueryArgs(args, prefix, wp).Some?
    ensures var q := QueryArgs(args, prefix, wp).value;
      && Get(q, "post_type") == Str(prefix +
        if TaxonomyBranch(args, wp) then "_tax_" + ToPhpString(Get(args, "taxonomy"))
        else if Isset(args, "homepage") then "_homepage" else "_post_type")
      && Get(q, "posts_per_page") == (if Isset(args, "count") then Get(args, "count") else Int(1))
      && (TaxonomyBranch(args, wp) ==> Get(q, "tax_query") == TaxQuery(args))
      && (!TaxonomyBranch(args, wp) && !Isset(args, "homepage") ==> Get(q, "post_parent") == Get(args, "post_id"))
  {
    var base := BaseArgs(args, prefix, wp).value;
    var k := StrKey("posts_per_page");
    BaseArgsEntries(args, prefix, wp);
    LookupAfterSet(base, k, PostsPerPage(args), StrKey("post_type"));
    LookupAfterSet(base, k, PostsPerPage(args), k);
    LookupAfterSet(base, k, PostsPerPage(args), StrKey("tax_query"));
    LookupAfterSet(base, k, PostsPerPage(args), StrKey("post_parent"));
  }

  /** The entries of `$_args` before `posts_per_page` is added. */
  lemma BaseArgsEntries(args: PArray, prefix: string, wp: Env)
    requires BaseArgs(args, prefix, wp).Some?
    ensures var b := BaseArgs(args, prefix, wp).value;
      && Get(b, "post_type") == Str(prefix +
        if TaxonomyBranch(args, wp) then "_tax_" + ToPhpString(Get(args, "taxonomy"))
        else if Isset(args, "homepage") then "_homepage" else "_post_type")
      && (TaxonomyBranch(args, wp) ==> Get(b, "tax_query") == TaxQuery(args))
      && (!TaxonomyBranch(args, wp) && !Isset(args, "homepage") ==> Get(b, "post_parent") == Get(args, "post_id"))
  {
    var b := BaseArgs(args, prefix, wp).value;
    if TaxonomyBranch(args, wp) {
      assert Lookup(b[1..], StrKey("tax_query")) == Some(TaxQuery(args));
    } else if !Isset(args, "homepage") {
      assert Lookup(b[1..], StrKey("post_parent")) == Some(Get(args, "post_id"));
    }
  }

  /** The term slug in a taxonomy query is already a valid key: sanitizing it again changes nothing. */
  lemma TermSlugIsKey(args: PArray)
    ensures var slug := SanitizeKeyValue(Get(args, "term"));
      SanitizeKey(slug) == slug && forall i :: 0 <= i < |slug| ==> IsKeyChar(slug[i])
  {
    var term := Get(args, "term");
    if !(term.Null? || term.Arr?) {
      SanitizeKeyIdempotent(ToPhpString(term));
    }
  }

  /** When the taxonomy branch applies, `homepage` and `post_id` make no difference. */
  lemma TaxonomyTakesPriority(a: PArray, b: PArray, prefix: string, wp: Env)
    requires TaxonomyBranch(a, wp)
    requires Get(a, "taxonomy") == Get(b, "taxonomy") && Get(a, "term") == Get(b, "term")
    requires Get(a, "count") == Get(b, "count")
    ensures QueryArgs(a, prefix, wp) == QueryArgs(b, prefix, wp)
  {
  }

  /** Without the taxonomy branch, `homepage` makes `post_id` irrelevant. */
  lemma HomepageBeforePostId(a: PArray, b: PArray, prefix: string, wp: Env)
    requires !TaxonomyBranch(a, wp) && !TaxonomyBranch(b, wp) && Isset(a, "homepage") && Isset(b, "homepage")
    requires Get(a, "count") == Get(b, "count")
    ensures QueryArgs(a, prefix, wp) == QueryArgs(b, prefix, wp)
  {
  }

  // ---------------------------------------------------------------------------------------------
  // filter_where_date_less_than

  /** `filter_where_date_less_than($where, $date)`: the date limit is appended when a date is given. */
  function FilterWhereDateLessThan(where: string, date: Value): (r: string)
    ensures where <= r
    ensures r == where <==> !ToBool(date)
  {
    if ToBool(date) then where + DateClause + ToPhpString(date) + "'" else where
  }

  /** The text put between the clause and the date. */
  const DateClause := " AND post_date <= '"

  /** For a timestamp, the clause quotes the timestamp's decimal digits, which read back as it. */
  lemma DateClauseReadsBack(where: string, t: int)
    requires t != 0
    ensures var r := FilterWhereDateLessThan(where, Int(t));
      var n := |where| + |DateClause|;
      && |r| == n + |IntToString(t)| + 1
      && r[..n] == where + DateClause
      && r[|r| - 1] == '\''
      && LeadingInt(r[n..|r| - 1]) == t
  {
    assert FilterWhereDateLessThan(where, Int(t)) == (where + DateClause) + IntToString(t) + "'";
    QuotedParts(where + DateClause, IntToString(t));
    IntStringRoundTrip(t);
  }

  /** A non-empty string date is quoted as it is: the clause ends ` AND post_date <= '<date>'`. */
  lemma DateClauseForString(where: string, date: string)
    requires !EmptyString(date)
    ensures FilterWhereDateLessThan(where, Str(date)) == where + " AND post_date <= '" + date + "'"
  {
  }

  /** The parts of a quoted value after a head. */
  lemma QuotedParts(head: string, value: string)
    ensures var r := head + value + "'";
      && |r| == |head| + |value| + 1 && r[..|head|] == head && r[|r| - 1] == '\'' && r[|head|..|r| - 1] == value
  {
    var r := head + value + "'";
    assert r[..|head|] == head;
    assert r[|head|..|r| - 1] == value;
  }
}
