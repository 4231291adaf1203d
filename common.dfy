/** Values shared by the whole model: the optional result that stands for a
    PHP `null` return, and the scalar values PHP hands around (cell values,
    option values and the leaves of a style array). */
module Common {

  /** `None` plays the part of PHP's `null` (or of a missing return value). */
  datatype Option<+T> = None | Some(value: T) {
    function GetOr(default: T): T {
      match this
      case Some(v) => v
      case None => default
    }
  }

  /** A PHP scalar: what a cell holds, what an option is set to, what a leaf
      of a style array carries. Floats are copied, never computed on, so a
      `real` stands for them. */
  datatype Value =
    | Null
    | Str(s: string)
    | Int(i: int)
    | Float(x: real)
    | Bool(b: bool)

  /** The first of two optional values that is present. */
  function Or<T>(a: Option<T>, b: Option<T>): Option<T> {
    if a.Some? then a else b
  }

  /** PHP's two families of throwables: `\Exception` and its subclasses,
      which `catch (\Exception $ex)` intercepts, and `\Error` (a
      `TypeError`, say), which it does not. */
  datatype Throwable = Exception(message: string) | Error(message: string)

  /** What a PHP call does: return a value, or throw. */
  datatype Outcome<+T> = Ok(value: T) | Raised(thrown: Throwable)

  /** Lookup in a map that answers `None` for a missing key. */
  function Get<K, V>(m: map<K, V>, k: K): (r: Option<V>)
    ensures r.Some? <==> k in m
    ensures r.Some? ==> r.value == m[k]
  {
    if k in m then Some(m[k]) else None
  }
}
