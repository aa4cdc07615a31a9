/** The two JavaScript conversions the screens apply to a value that is a string or absent. */
module JsValues {

  import opened Wrappers

  /** `!!v`: absent and the empty string are both falsy. */
  predicate Truthy(v: Option<string>) {
    v.Some? && v.value != ""
  }

  /** `String(v)`: an absent member reads as "undefined". */
  function StringOf(v: Option<string>): string {
    if v.Some? then v.value else "undefined"
  }
}
