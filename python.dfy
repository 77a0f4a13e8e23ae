/**
 * The Python values and exceptions the core passes around: filter values,
 * attribute values, stored document fields; and the built-in conversions it
 * applies to them (`str`, `repr`, `int`, `bool`, `list`).
 */
module Python {
  import opened Wrappers
  import opened Text

  /** A Python value, as far as the core inspects it. Python's bool is a subclass of int. */
  datatype PyValue =
    | PyNone
    | PyStr(s: string)
    | PyInt(i: int)
    | PyBool(b: bool)
    | PyList(items: seq<PyValue>)

  /** Why a search backend refused: the two SearchBackendError cases of the core. */
  datatype BackendReason =
    | UnsupportedFieldType(fieldType: string)
    | MultipleReverseSort

  /** The exceptions the core raises or lets escape. */
  datatype Error =
    | TypeError(what: string)
    | ValueError(what: string)
    | KeyError(key: string)
    | AttributeError(what: string)
    | SearchBackendError(reason: BackendReason)
    | SearchFieldError
    | ImproperlyConfigured(setting: string)

  /** `repr(v)`; a string is shown in single quotes, without Python's escaping. */
  function Repr(v: PyValue): string
    decreases v
  {
    match v
    case PyNone => "None"
    case PyStr(s) => "'" + s + "'"
    case PyInt(i) => IntToString(i)
    case PyBool(b) => if b then "True" else "False"
    case PyList(xs) => "[" + Join(seq(|xs|, k requires 0 <= k < |xs| => Repr(xs[k])), ", ") + "]"
  }

  /** `str(v)`, which is also what `'%s' % v` inserts. */
  function ToStr(v: PyValue): string {
    if v.PyStr? then v.s else Repr(v)
  }

  /** `bool(v)`. */
  function Truthy(v: PyValue): bool {
    match v
    case PyNone => false
    case PyStr(s) => s != ""
    case PyInt(i) => i != 0
    case PyBool(b) => b
    case PyList(xs) => xs != []
  }

  /** `int(v)`. */
  function ToInt(v: PyValue): Result<int, Error> {
    match v
    case PyInt(i) => Success(i)
    case PyBool(b) => Success(if b then 1 else 0)
    case PyStr(s) =>
      (match ParseInt(s)
       case Some(n) => Success(n)
       case None => Failure(ValueError("invalid literal for int()")))
    case PyNone => Failure(TypeError("int() argument must be a string or a number"))
    case PyList(_) => Failure(TypeError("int() argument must be a string or a number"))
  }

  /** `list(v)`: a list is copied, a string becomes its characters, anything else is not iterable. */
  function ToList(v: PyValue): Result<seq<PyValue>, Error> {
    match v
    case PyList(xs) => Success(xs)
    case PyStr(s) => Success(seq(|s|, k requires 0 <= k < |s| => PyStr([s[k]])))
    case _ => Failure(TypeError("object is not iterable"))
  }
}
