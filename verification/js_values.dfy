/**
 * The few JavaScript value rules the templates in the console depend on:
 * truthiness (`x ? a : b`, `x || 'fallback'`) and how `${x}` interpolates.
 */
module JsValues {
  import opened Wrappers

  /** A scalar property of an upstream JSON payload. Numeric fields arrive
      from the indexing API as decimal strings and are `Str` here. */
  datatype Scalar = Undefined | Null | Bool(b: bool) | Str(s: string)

  /** JavaScript truthiness of a scalar. */
  predicate Truthy(v: Scalar) {
    match v
    case Bool(b) => b
    case Str(s) => s != ""
    case _ => false
  }

  /** The text a template literal produces for `${v}`. */
  function Show(v: Scalar): string {
    match v
    case Undefined => "undefined"
    case Null => "null"
    case Bool(b) => if b then "true" else "false"
    case Str(s) => s
  }

  /** `${v || fallback}`: the value's text when it is truthy, else the fallback. */
  function OrElse(v: Scalar, fallback: string): string {
    if Truthy(v) then Show(v) else fallback
  }

  /** Truthiness of an optional string argument (`undefined` and `""` are falsy). */
  predicate Given(o: Option<string>) {
    o.Some? && o.value != ""
  }

  /** `o || d` for an optional string. */
  function OrDefault(o: Option<string>, d: string): string {
    if Given(o) then o.value else d
  }
}
