# Layout UI — a Dafny model of its field schema, form builder and registries

Layout UI is a WordPress plugin that lets editors compose a page from "layout elements". A layout
element resembles a widget and has a typed field schema. The plugin stores these elements against a
taxonomy term, a post or the home page. This project models the plugin's string, list and tree
logic and proves properties of it:

- **Fields** (`fields.dfy`, module `Fields`): `WP_Field` and its concrete classes from
  wp-fields.php.
  - A field is a `class Field` object. Its only mutable state is `groups`: `add_group` prepends
    to it, and a repeater pushes its own key into every descendant, recursively.
  - `Tree()` is the value (`FieldData`) that a field object stands for. The form keys `name()`
    and `id()`, the nesting invariant and the sanitizers are proved about that value.
  - The list sanitizers run as loops over the submitted entries.
- **Layout elements** (`layout_element.dfy`, module `LayoutElements`): the seven element classes
  with their titles and `setup_fields` schemas, and `Layout_Element::render_field`.
  `render_field` builds form markup with loops over repeater sections and children, and it
  recurses into nested repeaters. The `Render` function is the specification that the
  `RenderField` method is proved against.
- **Term Meta** (`term_meta.dfy`, module `ArchiveLayouts`): the `Term_Meta` constructor, which
  walks its type arguments and can return early. Also `get_archive_layouts_list`, which normalises
  the registered archive layouts.
- **Data containers** (`data_containers.dfy`, module `DataContainers`): the `DataContainer`
  magic accessors, `get_data_container`, the query arguments built by `get_data_containers`, and
  the date clause of `filter_where_date_less_than`.
- **Element registry** (`layout_ui.dfy`, module `LayoutUI`): the lazily built, memoised map
  filled by `Layout_UI::setup_layout_elements`.
- `php.dfy` (module `Php`) models the part of the PHP runtime the code relies on:
  - ordered arrays;
  - the `(int)`, `(bool)`, `(array)` and string casts, and `empty()`;
  - `strtolower`, `ucwords`, `substr`, `implode` and the `\s+` replacement;
  - WordPress's `sanitize_key`, modelled concretely.

  `wordpress.dfy` (module `WordPress`) gathers the WordPress helpers the code calls. They are
  opaque function values in an `Env`: `sanitize_text_field`, `wp_kses`, `esc_url_raw`,
  `esc_url`, `esc_textarea`, `taxonomy_exists`, `post_type_exists`, `term_exists` and
  `get_post`. `checked()` is modelled concretely, as WordPress defines it.

The model follows the code as written, defects included. Each defect is flagged in a comment and
shown by a lemma:

- **Groups from `$args` are dropped.** `WP_Field::__construct` reads `$arg['groups']`, so the
  groups passed in `$args` are always discarded (`Fields.InitialData`).
- **`name()` loses the field's own key.** It uses an array union, which drops the field's own key
  whenever there are groups. It then implodes all of the groups, so `groups[0]` appears twice.
  As a result, every child of a repeater gets the same name (`Fields.NameIgnoresFieldName`,
  `Fields.SiblingsShareName`, `LayoutElements.RepTestInnerIntKeys`).
- **`id()` never includes the field name** (`Fields.IdOf`).
- **The CSS class ignores the field's class.** `get_class()` without an argument always names
  `WP_Field`, and the `array_walk` calls change nothing (`Fields.CssClassIgnoresKind`).
- **`WP_Field_List::sanitize` is not idempotent.** It compares each value with the whitelist
  before lower-casing it (`Fields.ListSanitizeNotIdempotent`).
- **The `WP_Field_HTML` textarea is always empty.** Its `esc_value` returns nothing
  (`LayoutElements.HtmlTextareaEmpty`).
- **`get_archive_layouts_list` never resets its taxonomy accumulator.** After the first layout
  with a valid taxonomy, every later layout enters the list and carries the taxonomies of all
  the layouts before it (`ArchiveLayouts.EveryLayoutAfterFirstTaxonomy`,
  `ArchiveLayouts.LayoutEntersInTurn`).
- **Five names in data-containers.php do not resolve.**
  - `$get_post` is an undefined variable, so the constructor fails for any non-empty post.
  - `Exception` inside namespace `LayoutUI` names no class. Even an allowed key raises this way:
    `__get` reads the undeclared `_crunchbase_data`, which calls `__get('_crunchbase_data')`
    (`DataContainers.AllowedKeyRaises`).
  - `bool()` is not a function, so `__isset` fails for every non-empty key.
  - `'Data_Container'` names no class, so a container is never returned as is.
  - `new WP_Query(...)` names `LayoutUI\WP_Query`, because unqualified class names never fall back
    to the global namespace. So `get_data_containers` fails there whenever one of its branches has
    built the arguments, and otherwise returns false (`DataContainers.NeverQueries`). The
    callback string 'filter_where_date_less_than' names a global function that does not exist
    either, but the call never gets that far.

  For all but `WP_Query`, functions whose names end in `Intended` give the behaviour the code's comments
  describe. Lemmas compare them with the code as written.

PHP's `(int)` cast reads the integer prefix of a string, so `"42abc"` gives 42 (`Php.LeadingInt`).

The modelled runtime is PHP 8. Several results depend on that:

- Loose comparison of a string with an int compares them as strings, so `'home' == 0` and
  `0 == 'taxonomy'` are false. A list-style `$type` such as `array('category')` therefore ends
  `Term_Meta`'s walk at once (`ArchiveLayouts.ScanAccepts`, `ArchiveLayouts.ConstructOutcome`),
  and a `0` in an archive layout's taxonomies does not pass as 'home'
  (`ArchiveLayouts.PassingPasses`, `ArchiveLayouts.AccumulatedPasses`).
- `array_merge` with a never-assigned (null) list raises a `TypeError`, so `Term_Meta` with
  only taxonomies or only post types fails (`ArchiveLayouts.ConstructOutcome`).
- Reading a property of null, or indexing null, warns and yields null.

Under PHP 7 the first two would differ. There, a list-style `$type` is read as a taxonomy,
`'home' == 0` holds, and `array_merge` with null warns and returns null.

## Model

| member | source | states |
|---|---|---|
| `Fields.InitialData` | wp-fields.php:53-75 | a new field has its kind, no children and no groups, whatever `$args` holds (the `$arg` typo); its name is the `sanitize_text_field` of the given name, its label that of the given label, else of the name; its whitelist is `(array)` of the given one, else empty; a non-empty whitelist taxonomy occurs only on a taxonomy list and names an existing taxonomy |
| `Fields.CssClassIgnoresKind` | wp-fields.php:66-70 | the css classes start with `field-type-WP_Field` whatever the field's class, are the same for every kind given the same arguments, and are exactly that without extra classes |
| `Fields.FieldKey` | wp-fields.php:100 | the key derived from a field name (whitespace runs replaced, then `sanitize_key`) holds only `[a-z0-9_-]` |
| `Fields.NameOf` | wp-fields.php:98-105 | `name()`: without groups, the field's key; with one group, that group; with more, `groups[0]` followed by all groups in brackets, so the field's own key never appears |
| `Fields.NameIgnoresFieldName` | wp-fields.php:98-105 | with non-empty groups, `name()` starts with `groups[0]` and does not depend on the field name |
| `Fields.IdSplitsIntoGroups` | wp-fields.php:111-118 | `id()` is the groups joined by `-`: splitting it at `-` gives back exactly the groups when no group contains `-` |
| `Fields.SplitOnFirst` | wp-fields.php:115 | a piece without the separator, followed by the separator, splits off as the first piece |
| `Fields.TwoWordKey` | wp-fields.php:100 | the key of a two-word name is the two words lower-cased and joined by `_` ('Inner Int' gives `inner_int`) |
| `Fields.Prepend` | wp-fields.php:377-384 | repeater `add_group`: the group is prepended to the field's groups, the number of children is kept, and nothing but groups and children changes |
| `Fields.Attach` | wp-fields.php:348-362 | a repeater keeps its own data and holds exactly one child per field it adopted |
| `Fields.PrependReachesEveryDescendant` | wp-fields.php:377-384 | the group reaches every descendant at any depth, prepended to its groups |
| `Fields.PrependKeepsNesting` | wp-fields.php:377-384 | `add_group` preserves the nesting invariant (each child's groups are its parent's groups plus the parent's key) |
| `Fields.AttachEstablishesNesting` | wp-fields.php:348-362 | a repeater built from freshly built, nested fields is nested |
| `Fields.GroupsAreAncestorKeys` | wp-fields.php:348-384 | in a nested field, every descendant's groups are the keys of its ancestor repeaters, outermost first |
| `Fields.SiblingsShareName` | wp-fields.php:98-118 | all children of a repeater get the same `name()` and the same `id()` |
| `Fields.IntegerFieldRoundTrip` | wp-fields.php:196-198 | the integer field reads back every integer given as decimal text |
| `Fields.CheckBoxValues` | wp-fields.php:244-246 | the check box maps `""`, `"0"` and null to false and `"1"` to true |
| `Fields.CoercingFieldsStable` | wp-fields.php:196-250 | for Integer and CheckBox, `esc_value` equals `sanitize` and sanitizing twice equals sanitizing once |
| `Fields.WhitelistFilterSound` | wp-fields.php:268-278 | every entry the list field keeps comes, under its key, from an input entry whose value is whitelisted, mapped through `sanitize_key` |
| `Fields.WhitelistFilterComplete` | wp-fields.php:268-278 | every whitelisted input entry is kept, under its key, with its value passed through `sanitize_key` |
| `Fields.WhitelistFilterAppend` | wp-fields.php:270-276 | each entry is judged on its own, so the kept entries stay in input order |
| `Fields.WhitelistFilterIdempotent` | wp-fields.php:268-278 | with a whitelist of values that are already keys, the list sanitizer is idempotent |
| `Fields.ListSanitizeNotIdempotent` | wp-fields.php:271-272 | with whitelist `['A']`, input `'A'` gives `['a']`, which a second pass drops |
| `Fields.TermFilterExact` | wp-fields.php:317-325 | the taxonomy list keeps exactly the input entries the term-exists predicate accepts, unchanged |
| `Fields.TermFilterAppend` | wp-fields.php:319-323 | the kept entries stay in input order |
| `Fields.TermFilterIdempotent` | wp-fields.php:317-325 | sanitizing a taxonomy list twice equals sanitizing it once |
| `Fields.NonNull` | wp-fields.php:353-357 | the repeater adopts only field objects from its arguments, no more than were given, each within the arguments' footprint |
| `Fields.Field.constructor` | wp-fields.php:53-75 | a new non-repeater field stands for `InitialData` |
| `Fields.Field.Repeater` | wp-fields.php:348-362 | a new repeater holds the field objects among its arguments, each given the repeater's key, and stands for `Attach` of its children |
| `Fields.Field.GroupChildren` | wp-fields.php:351-359 | the constructor's loop keeps the field objects in order and calls `add_group` with the key on each |
| `Fields.Field.AddGroupEach` | wp-fields.php:380-382 | `add_group` is applied to each child, and each child's new tree is its old one with the group added |
| `Fields.Field.AddGroup` | wp-fields.php:377-384 | `add_group` prepends a non-empty string group to the field and all its descendants; any other argument changes nothing |
| `Fields.Field.Sanitize` | wp-fields.php:268-325 | the list loops (with `unset`) compute the whitelist and term filters; the other classes coerce |
| `Php.SanitizeKey` | wp-fields.php:100 | `sanitize_key` output holds only `[a-z0-9_-]` and is no longer than its input |
| `Php.SanitizeKeyIdempotent` | wp-fields.php:100 | `sanitize_key` is idempotent |
| `Php.IntCastRoundTrip` | wp-fields.php:197 | `(int)` reads back the decimal text of every integer |
| `Php.ReplaceSpaceRuns` | wp-fields.php:100 | after replacing whitespace runs with a non-space separator, no whitespace is left |
| `Php.ReplaceSpaceRunsJoins` | wp-fields.php:100 | two words separated by a space are joined by the separator |
| `Php.SanitizeKeyLowers` | wp-fields.php:100 | on a string whose lower-cased characters are all key characters, `sanitize_key` lower-cases it |
| `Php.SanitizeKeyAppend` | wp-fields.php:100 | `sanitize_key` works character by character: it distributes over concatenation |
| `WordPress.Checked` | class-layout-element.php:158 | `checked()` is ` checked='checked'` exactly when both values are equal as strings, else empty |
| `LayoutElements.TitlesDistinct` | class-layout-element.php:181-451 | the seven element titles are pairwise different |
| `LayoutElements.SetupTextBoxFields` | class-layout-element.php:305-309 | the Text Box schema is one Text field 'Text' |
| `LayoutElements.SetupPostListFields` | class-layout-element.php:260-265 | the Loop, Widget, Post, Grunion and Inherit schema is Integer 'Number of Posts', then CheckBox 'Exclude Featured Items' |
| `LayoutElements.SetupRepTestFields` | class-layout-element.php:208-222 | the RepTest schema is 'Free Int', 'Check Free' and the outer repeater, in that order |
| `LayoutElements.BuildOuterRepeater` | class-layout-element.php:212-218 | the outer repeater adopts 'Outer Int', 'Check Outer' and the inner repeater |
| `LayoutElements.BuildInnerRepeater` | class-layout-element.php:209-214 | the inner repeater adopts 'Inner Int' and 'Check Inner' |
| `LayoutElements.RepeaterOfTwo` | class-layout-element.php:209-214 | a repeater built over two fields stands for `Attach` of their trees, and its footprint is theirs plus itself |
| `LayoutElements.RepeaterOfThree` | class-layout-element.php:212-218 | a repeater built over three fields stands for `Attach` of their trees |
| `LayoutElements.InnerRepeaterNested` | class-layout-element.php:209-214 | the inner repeater satisfies the nesting invariant |
| `LayoutElements.OuterRepeaterNested` | class-layout-element.php:208-218 | the RepTest schema satisfies the nesting invariant |
| `LayoutElements.RepTestKeysConcrete` | class-layout-element.php:214-218 | when `sanitize_text_field` leaves the repeater names alone, the outer and inner keys are `outer_repeater` and `inner_repeater`, and `add_group` accepts both |
| `LayoutElements.RepTestInnerIntKeys` | class-layout-element.php:208-218 | 'Inner Int' ends with groups `[outer key, inner key]`; its `name()` repeats the outer key and leaves out its own name; its `id()` is the two keys joined by `-` |
| `LayoutElements.AttachedNamesCollide` | wp-fields.php:98-105 | every child a repeater without groups adopts is named by the repeater's key alone |
| `LayoutElements.RepTestOuterNamesCollide` | class-layout-element.php:212-218 | the three children of the outer repeater all get the outer key as their `name()` |
| `LayoutElements.FilterAttributes` | class-layout-element.php:164 | the filtered attributes hold only `[a-zA-Z0-9-="]` and whitespace |
| `LayoutElements.FilterAttributesKeepsClean` | class-layout-element.php:164 | the filter leaves an already clean string unchanged |
| `LayoutElements.FilterAttributesIdempotent` | class-layout-element.php:164 | the filter is idempotent |
| `LayoutElements.FilterAttributesAppend` | class-layout-element.php:164 | the filter works character by character: it distributes over concatenation |
| `LayoutElements.QuotesDropped` | class-layout-element.php:164 | single quotes around an attribute value are dropped, the rest kept |
| `LayoutElements.CheckedAttributeFiltered` | class-layout-element.php:156-164 | the filter turns `checked()`'s ` checked='checked'` into ` checked=checked` |
| `LayoutElements.EmptyTypeUsesHint` | class-layout-element.php:143-145 | an empty type renders as the field's render hint |
| `LayoutElements.MarkupOpensWithAttributes` | class-layout-element.php:148-167 | a textarea opens `<textarea name=… id=… class=…>` and a listed input type opens `<input type="T" name=… id=… class=… value="`; any markup means one of the two |
| `LayoutElements.NoMarkupExactly` | class-layout-element.php:151-167 | a non-repeater yields no markup exactly when its type is neither `textarea` nor one of the 16 input types |
| `LayoutElements.ListFieldsRenderNothing` | class-layout-element.php:143-167 | the list fields have no render hint, so with no type they render nothing |
| `LayoutElements.HtmlTextareaEmpty` | class-layout-element.php:151-153 | the HTML field renders an empty textarea |
| `LayoutElements.CheckBoxChecked` | class-layout-element.php:156-166 | a checkbox without extra attributes renders `value="1"`, with ` checked=checked` exactly when its start value is truthy |
| `LayoutElements.ChildValue` | class-layout-element.php:135 | a repeater child's value is `section[child.id()]` when that is set, else `''` |
| `LayoutElements.RenderSectionsAppend` | class-layout-element.php:130-138 | sections render one after another |
| `LayoutElements.RepeaterSections` | class-layout-element.php:119-140 | a null start value renders no section; the default `''` renders exactly one section with every child at its empty default |
| `LayoutElements.RenderField` | class-layout-element.php:119-168 | `render_field` returns false without the field API, else the markup `Render` specifies |
| `LayoutElements.RenderTree` | class-layout-element.php:128-167 | a repeater renders its sections; any other field its input |
| `LayoutElements.RenderRepeater` | class-layout-element.php:130-139 | the section loop: each section's header input, then its children |
| `LayoutElements.RenderSection` | class-layout-element.php:133-137 | the child loop renders every child in declaration order |
| `LayoutElements.RenderChild` | class-layout-element.php:134-136 | one child, rendered recursively with its value from the section |
| `ArchiveLayouts.StringTypeIsTaxonomy` | term-meta.php:77-79 | a string type is treated as `['taxonomy' => type]` |
| `ArchiveLayouts.ScanAccepts` | term-meta.php:81-100 | the walk appends exactly the existing taxonomies and post types before the first other key, in argument order, and stops there |
| `ArchiveLayouts.ConstructOutcome` | term-meta.php:74-109 | `no_versions` is stored as a bool; the constructor returns early exactly when a key other than 'taxonomy' or 'post_type' occurs; with nothing accepted it dies; with only one kind accepted `array_merge` fails; otherwise it is constructed |
| `ArchiveLayouts.SettleOutcome` | term-meta.php:93-108 | how the constructor ends once the walk has stopped |
| `ArchiveLayouts.EarlyReturnNames` | term-meta.php:93-97 | 'home' sets the layout name (given or 'home') and 'TM_home', then returns; any other key returns without names |
| `ArchiveLayouts.ConstructedNames` | term-meta.php:106-108 | the default layout name is the concatenated `ucwords` of the accepted names; the default short name is 'TM_' plus the lower-cased first 17 characters, at most 20 characters |
| `ArchiveLayouts.TermMeta.New` | term-meta.php:74-109 | `new Term_Meta` yields the object exactly when the constructor returns, with the state `Construct` gives |
| `ArchiveLayouts.TermMeta.Init` | term-meta.php:74-109 | the constructor body leaves the state `Construct` gives |
| `ArchiveLayouts.TermMeta.Conclude` | term-meta.php:93-108 | the 'home' names, `wp_die`, or the generated names |
| `ArchiveLayouts.TermMeta.ScanTypes` | term-meta.php:81-100 | the `foreach`/`switch` appends to the two lists as `Scan` specifies |
| `ArchiveLayouts.PassingPasses` | term-meta.php:219-223 | exactly 'home' and the existing taxonomies of a layout pass |
| `ArchiveLayouts.CollectTaxonomies` | term-meta.php:219-223 | the inner loop appends a layout's passing taxonomies, in order, to the accumulator |
| `ArchiveLayouts.ShortNameShape` | term-meta.php:231 | the short name is the lower-cased first 17 characters of the name plus `_al`, so at most 20 characters |
| `ArchiveLayouts.NormaliseShape` | term-meta.php:229-231 | an entered layout holds the accumulated taxonomies, its given name or their concatenated `ucwords`, and the short name; every other entry is unchanged |
| `ArchiveLayouts.GetArchiveLayoutsList` | term-meta.php:204-237 | the list is the normalised entered layouts of the filtered defaults, in order, or null when none entered |
| `ArchiveLayouts.NormaliseLayouts` | term-meta.php:218-236 | the two loops compute `ListResult` |
| `ArchiveLayouts.AddLayout` | term-meta.php:218-234 | one pass of the outer loop keeps the loop invariant |
| `ArchiveLayouts.ListStep` | term-meta.php:218-234 | one layout adds its taxonomies to the accumulator and enters the list unless the accumulator is still empty |
| `ArchiveLayouts.NormaliseAllAt` | term-meta.php:229-233 | the list holds each entered layout, normalised with its accumulated taxonomies, in order |
| `ArchiveLayouts.PassedByPasses` | term-meta.php:219-223 | every taxonomy a layout contributes is 'home' or an existing taxonomy |
| `ArchiveLayouts.AccumulatedPasses` | term-meta.php:219-223 | only 'home' or existing taxonomies ever enter the accumulator |
| `ArchiveLayouts.AccumulatedGrows` | term-meta.php:218-223 | the accumulator is never reset: earlier taxonomies stay in front |
| `ArchiveLayouts.EnteredGrows` | term-meta.php:218-234 | entered layouts keep their place as later layouts are walked |
| `ArchiveLayouts.NothingBeforeFirstTaxonomy` | term-meta.php:225-227 | while no taxonomy has passed, no layout enters |
| `ArchiveLayouts.EveryLayoutAfterFirstTaxonomy` | term-meta.php:218-234 | once a taxonomy has passed, every later layout enters, even one without taxonomies of its own |
| `ArchiveLayouts.LayoutEntersInTurn` | term-meta.php:218-234 | after that, layout k enters in its turn carrying every taxonomy accumulated up to it |
| `DataContainers.NewContainer` | data-containers.php:27-31 | the constructor succeeds exactly for an empty argument and stores nothing |
| `DataContainers.GetKeys` | data-containers.php:51-67 | `__get` answers an empty key with null and `post_id`/`term_id` from the post and the term, and raises a class-not-found error exactly for the other keys that are not allowed, and for an allowed key when `_crunchbase_data` is not itself allowed (the nested `__get`); every other key gives null |
| `DataContainers.AllowedKeyRaises` | data-containers.php:60-64 | a container allowing only `x` raises on `x`; one that also allows `_crunchbase_data` returns null |
| `DataContainers.BuiltContainersRejectKeys` | data-containers.php:51-67 | a constructed container rejects every key except the empty key, `post_id` and `term_id` |
| `DataContainers.IssetNeverAnswers` | data-containers.php:79-86 | as written, `__isset` fails for every non-empty key |
| `DataContainers.IssetIntendedFollowsGet` | data-containers.php:72-86 | corrected, `__isset` returns false whenever `__get` raises, else the truth of its value, and never raises |
| `DataContainers.GetIntendedAgrees` | data-containers.php:60-64 | the correction changes only what `__get` raises |
| `DataContainers.GetDataContainerAsWritten` | data-containers.php:91-104 | as written, a post (given or found by id) makes the call fail, and anything else gives false |
| `DataContainers.GetDataContainerIntendedDispatch` | data-containers.php:91-104 | corrected, a container is returned as is, a post is wrapped, and anything else gives false |
| `DataContainers.GetDataContainers` | data-containers.php:106-144 | the branch chain and `posts_per_page` build the arguments `QueryArgs` specifies, and the call ends as `CallOutcome` says |
| `DataContainers.NeverQueries` | data-containers.php:106-144 | as written the call fails at `new WP_Query` (class-not-found for `LayoutUI\WP_Query`) exactly when a branch applies, and otherwise returns false |
| `DataContainers.QueryArgsFalse` | data-containers.php:106-135 | the call returns false exactly when no branch applies |
| `DataContainers.QueryArgsEntries` | data-containers.php:106-137 | the post type is `PREFIX_tax_<taxonomy>`, `PREFIX_homepage` or `PREFIX_post_type` by branch; the tax query or post parent is set by branch; `posts_per_page` is `count` or 1 |
| `DataContainers.TermSlugIsKey` | data-containers.php:114 | the term slug in the tax query is already a valid key |
| `DataContainers.TaxonomyTakesPriority` | data-containers.php:107-119 | with an existing taxonomy and a term, `homepage` and `post_id` make no difference |
| `DataContainers.HomepageBeforePostId` | data-containers.php:118-128 | otherwise `homepage` makes `post_id` irrelevant |
| `DataContainers.FilterWhereDateLessThan` | data-containers.php:146-151 | the result extends `$where`, and equals it exactly when the date is empty |
| `DataContainers.DateClauseReadsBack` | data-containers.php:146-151 | for a timestamp, the clause is `$where`, ` AND post_date <= '`, the timestamp's digits that read back as it, and `'` |
| `DataContainers.DateClauseForString` | data-containers.php:146-151 | a non-empty string date gives `$where` followed by ` AND post_date <= '<date>'` |
| `LayoutUI.SetupOutcome` | class-layout-ui.php:118-137 | the first call fails exactly when some name is not an element class, and then on such a name; otherwise it returns what it stored; the map stays unset exactly when the list is empty or its first name fails |
| `LayoutUI.LayoutUi.SetupLayoutElements` | class-layout-ui.php:118-137 | one call returns the cached map when set, else builds it from the filtered list |
| `LayoutUI.Memoised` | class-layout-ui.php:119-136 | once populated, later calls return the cached map unchanged whatever the filter says |
| `LayoutUI.DefaultRegistry` | class-layout-ui.php:120-134 | the default list gives the seven instances keyed by class name, from Loop to RepTest, in order |
| `LayoutUI.FirstCallKeys` | class-layout-ui.php:130-134 | the first call stores one entry per distinct name, each an instance of the class it names |
| `LayoutUI.FirstCallSize` | class-layout-ui.php:132-134 | a duplicate name yields a single entry: there are as many entries as names exactly when no name repeats, and then in list order |
| `LayoutUI.ResolveMeaning` | class-layout-ui.php:133 | `new $class()` finds an element class exactly when the name matches it up to ASCII case, after an optional leading backslash |
| `LayoutUI.ResolveIgnoresCase` | class-layout-ui.php:133 | class lookup ignores ASCII case |
| `LayoutUI.ResolveClassNames` | class-layout-ui.php:133 | each element's class name, with or without a leading backslash, resolves to that element |
| `LayoutUI.ClassNameInjective` | class-layout-ui.php:121-127 | different elements have different class names |
| `LayoutUI.StoredInOrder` | class-layout-ui.php:132-134 | with distinct names, the stored map is the instantiated pairs in list order |
| `LayoutUI.AbstractBaseIsFatal` | class-layout-ui.php:133 | the abstract `Layout_Element` cannot be instantiated |

## Left out

- Echoed markup and registration glue are not modelled: `form_container`, `form`,
  `layout_elements_callback` with its script and styles, `add_meta_boxes`, `Term_Meta::setup`,
  `archive_layouts_menu` and `archive_layouts_init`.
- `WP_Field_HTML`, `WP_Field_URL` and `WP_Field_Text` sanitize and escape through WordPress
  functions. Those functions are opaque parameters, so nothing is proved about what they return.
- The `WP_Query` calls in `archive_layout_content` and `render_page`, and the `FilterWithArgs`
  hook object, are foreign calls and global hooks.
- `DataContainers.GetDataContainers`: as written, the call fails at `new WP_Query`
  (data-containers.php:141) after building the arguments. The model returns those arguments and
  that failure. The `posts_where` filter it adds and never removes is not modelled, and neither
  is what a query through the global `WP_Query` would return.
- Empty bodies are not modelled: the element `sanitize` methods, `WP_Field_Repeater::sanitize`
  and `esc_value`, `get_data`, `pre_get_post` and `save_layout_elements`. `no_versions` is stored
  and never used.
- `label()`, `css_classes()`, `whitelist()` and `fields()` return stored values. They are read as fields of the field's value and are not separate members.
- A repeater's `$args['fields']` is modelled as the list of arguments given. The `get_parent_class` test is modelled as "is a field object", since every field class extends `WP_Field` directly.
- The `var_dump` debug output in `name()` and `archive_layout_content` is not modelled.
- The `sanitize_key` filter hook is not modelled. The `layout_element_classes` and
  `archive_layouts_list` filters are function parameters.
- `LayoutUI.SetupOutcome`: only the seven element classes of the plugin exist in the model. Any
  other name is modelled as a fatal error, including a concrete class that a theme or plugin
  declares and adds through the `layout_element_classes` filter; PHP would instantiate it.
- `Fields.Field.Repeater`: aliased or shared child fields are not modelled. The children must
  be distinct objects that no other repeater holds. PHP also accepts one object listed twice,
  which gets the key twice, and one object held by two repeaters.
- `in_array` uses PHP's loose comparison. The model approximates it with equality of values.
- The `(int)` cast of a string reads an optional sign and a digit prefix. Exponents, floats and
  64-bit saturation are not modelled.
- Strings are sequences of single-byte characters; locales and multibyte text are not modelled.
- `LayoutElements.ChildValue`: when a repeater section is a string rather than an array, the
  model treats it as having nothing set. PHP would read a character at a numeric child id.
- The versioned container resolver, the container store and the APIs planned in the comment at
  the end of data-containers.php have no code, so they are not modelled.
