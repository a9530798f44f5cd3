/**
 * The WordPress helpers the plugin calls but does not define. Each is an opaque function:
 * the model says nothing about what it computes, only where its result is used.
 */
module WordPress {
  import opened Php

  /** A `WP_Post`; only its `ID` is used. */
  datatype Post = Post(id: int)

  datatype Env = Env(
    /** `sanitize_text_field` */
    sanitizeTextField: string -> string,
    /** `wp_kses($v, wp_kses_allowed_html('post'))` */
    ksesPost: string -> string,
    /** `esc_url_raw` */
    escUrlRaw: string -> string,
    /** `esc_url` */
    escUrl: string -> string,
    /** `esc_textarea` */
    escTextarea: string -> string,
    /** `taxonomy_exists` */
    taxonomyExists: string -> bool,
    /** `post_type_exists` */
    postTypeExists: string -> bool,
    /** `term_exists($term, $taxonomy)`, true when it finds the term */
    termExists: (Value, string) -> bool,
    /** `get_post($id)`, null when there is no such post */
    getPost: int -> Option<Post>)

  /**
   * `checked($checked, $current, false)`, which WordPress defines concretely: the attribute
   * ` checked='checked'` when the two values are equal as strings, else nothing.
   */
  function Checked(helper: Value, current: Value): (r: string)
    ensures r == " checked='checked'" <==> ToPhpString(helper) == ToPhpString(current)
    ensures r == "" <==> ToPhpString(helper) != ToPhpString(current)
  {
    if ToPhpString(helper) == ToPhpString(current) then " checked='checked'" else ""
  }
}
