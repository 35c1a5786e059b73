/**
 The slice of the Python runtime that the daemon protocol and the Makefile
 target registry pass around: JSON-representable values, exceptions and the
 outcome of a call (it returned, or it raised).
 */
module PyRuntime {

  datatype Option<+T> = None | Some(value: T)

  /** The JSON values the model carries in requests and responses: `null`,
      booleans, integers, strings, lists and objects. Floating-point numbers,
      which `json.loads` yields for a number such as `1.5`, are not modelled. */
  datatype Value =
    | VNone
    | VBool(b: bool)
    | VInt(i: int)
    | VStr(s: string)
    | VList(items: seq<Value>)
    | VDict(fields: map<string, Value>)

  /** `Error` stands for the subclasses of `Exception`; `Interrupt` for the other
      `BaseException`s (`KeyboardInterrupt`, `SystemExit`), which an
      `except Exception` clause lets through. */
  datatype ExcKind = Error | Interrupt

  /** A raised exception; `message` is what `str(e)` yields. */
  datatype Exc = Exc(kind: ExcKind, message: string)
  {
    /** True when an `except Exception` clause catches this exception. */
    predicate IsException() {
      kind == Error
    }
  }

  /** The outcome of a Python call: it returned `value`, or it raised `exc`. */
  datatype Result<+T> = Ok(value: T) | Err(exc: Exc)

  type Args = seq<Value>
  type Kwargs = map<string, Value>

  /** A Python callable, seen through its outcome on given arguments. */
  type Callable = (Args, Kwargs) -> Result<Value>
}
