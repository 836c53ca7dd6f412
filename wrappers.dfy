/** Small value types shared by every module: optional values (JavaScript's
    `null`/`undefined` next to a value) and the answer an interactive prompt
    gives back (a value, or the cancel symbol of the prompt library). */
module Wrappers {

  datatype Option<+T> = None | Some(value: T) {

    /** `x ?? default` */
    function GetOr(default: T): T {
      match this
      case Some(v) => v
      case None => default
    }
  }

  /** What a `select`, `confirm` or `text` prompt resolves to. */
  datatype Answer<+T> = Picked(value: T) | Cancelled

  /** The exceptions the modelled code can raise and does not catch. */
  datatype Failure =
    | FileNotFound(file: string)      // fs.readFileSync on a missing file (ENOENT)
    | InvalidJson(file: string)       // JSON.parse on text that is not the expected JSON
    | TypeError(what: string)         // a property read on null or undefined
    | NoFolder(path: string)          // listing or writing into a folder that is missing or is a file (ENOENT, ENOTDIR)
    | RangeError(what: string)        // `toISOString()` on an invalid date

  /** The value of a call that returns normally, or the exception it throws. */
  datatype Result<+T> = Ok(value: T) | Err(error: Failure)

  /** JavaScript truthiness of an optional string: `undefined`, `null` and `""` are falsy. */
  predicate Truthy(s: Option<string>) {
    s.Some? && s.value != ""
  }
}
