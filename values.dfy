/** The Python values that travel through the RPC layer, with the builtins the code applies to them. */
module Values {
  import opened Text

  /** A readable file object: its name (used for `os.path.basename`) and the bytes still to be read. */
  datatype FileObj = FileObj(name: string, contents: seq<bv8>)

  /**
   * A JSON value as `json.loads` produces it, plus the two kinds of Python object that may sit in
   * a parameter list or be returned by a method: a readable stream and any other object that
   * `json.dumps` refuses. The client takes anything with a `read` attribute for a stream, the
   * server an `io.IOBase` instance; the model uses the one `Stream` case for both. `empty` says whether Python finds
   * that object falsy (`b""`, `set()`, an object whose `__len__` is 0).
   */
  datatype Value =
    | Null
    | Bool(b: bool)
    | Num(n: int)
    | Str(s: string)
    | Arr(items: seq<Value>)
    | Obj(fields: map<string, Value>)
    | Stream(file: FileObj)
    | Foreign(id: nat, empty: bool)

  /** Python truthiness: `not v`. A file object is always truthy; another object as its `empty` flag says. */
  predicate Falsy(v: Value) {
    match v
    case Null => true
    case Bool(b) => !b
    case Num(n) => n == 0
    case Str(s) => s == ""
    case Arr(xs) => xs == []
    case Obj(m) => m == map[]
    case Stream(_) => false
    case Foreign(_, empty) => empty
  }

  /** Python can hash the value, so it may be looked up in a dict: lists and dicts cannot be. */
  predicate Hashable(v: Value) {
    !v.Arr? && !v.Obj?
  }

  /** `json.dumps(v)` succeeds exactly when no stream or foreign object occurs anywhere in `v`. */
  predicate Serializable(v: Value) {
    match v
    case Arr(xs) => forall i :: 0 <= i < |xs| ==> Serializable(xs[i])
    case Obj(m) => forall k :: k in m ==> Serializable(m[k])
    case Stream(_) => false
    case Foreign(_, _) => false
    case _ => true
  }

  /** `hasattr(v, "read")`. */
  predicate Readable(v: Value) {
    v.Stream?
  }

  /**
   * `str(v)` as applied to a non-string method name. Scalars get Python's exact text; a list, a
   * dict or an object gets a fixed stand-in that is never empty but whose dots need not match
   * Python's text, so the path `find_method` splits from it differs.
   */
  function PyStr(v: Value): (r: string)
    ensures v.Str? ==> r == v.s
    ensures !v.Str? ==> r != ""
  {
    match v
    case Str(s) => s
    case Null => "None"
    case Bool(b) => if b then "True" else "False"
    case Num(n) => IntToString(n)
    case Arr(_) => "[...]"
    case Obj(_) => "{...}"
    case Stream(_) => "<stream>"
    case Foreign(_, _) => "<object>"
  }

  /** `d.get(key)` on a dict: the value, or `None` when the key is absent. */
  function Get(m: map<string, Value>, key: string): (r: Value)
    ensures key in m ==> r == m[key]
    ensures key !in m ==> r == Null
  {
    if key in m then m[key] else Null
  }
}
