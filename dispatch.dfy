/**
 * The server-side dispatcher of `KRequestHandler`: resolving a dotted method path against the
 * registered instance, calling it, and decoding a request (including the file placeholders of a
 * multipart upload).
 */
module Dispatch {
  import opened Wrappers
  import opened Text
  import opened Values
  import opened Errors

  /** Every uploaded file travels as a parameter string that starts with this prefix. */
  const FILE_PREFIX: string := "__file__:"

  /**
   * The registered object graph: an object with named attributes, a callable (identified by a
   * number; what it does is given by `Server.behaviour`), or a plain data attribute.
   */
  datatype Target = Node(members: map<string, Target>) | Fn(id: nat) | Attr(value: Value)

  /** Arguments as Python passes them: `method(*list)` or `method(**dict)`. */
  datatype Args = Positional(list: seq<Value>) | Named(kwargs: map<string, Value>)

  /**
   * An exception raised by a called method. `isException` says whether it derives from
   * `Exception` (so `except Exception` sees it); `managed` is `getattr(e, "managed", False) == True`;
   * the options are the `code`, `message` and `info` attributes when present.
   */
  datatype Exc = Exc(isException: bool, managed: bool,
                     code: Option<Value>, message: Option<Value>, info: Option<Value>)

  datatype Outcome = Returns(v: Value) | Raises(e: Exc)

  /** The server's configuration: `instance`, `pre_method_hook_name` ("" for unset) and the code behind each callable. */
  datatype Server = Server(instance: Target, hookName: string, behaviour: (nat, Args) -> Outcome)

  /** One call of a registered callable. */
  datatype Invocation = Invocation(fn: nat, args: Args)

  /**
   * How `call_method` ends: with a value, by raising `KRequestHandlerException(code, info)`, or by
   * letting through an exception that does not derive from `Exception`.
   */
  datatype CallOutcome = Returned(v: Value) | HandlerError(code: int, info: Option<string>) | Uncaught

  datatype Call = Call(outcome: CallOutcome, invoked: seq<Invocation>)

  /** `traceback.format_exc()`: the header line followed by a frame listing that is not modelled. */
  function Traceback(detail: string): (t: string)
    ensures t != "" && StartsWith(t, "Traceback")
  {
    "Traceback (most recent call last):\n" + detail
  }

  // ---------------------------------------------------------------- find_method

  /** `getattr` along `segs`, starting from `t`; `None` as soon as an attribute is missing. */
  function Walk(t: Target, segs: seq<string>): Option<Target>
    decreases segs
  {
    if segs == [] then Some(t)
    else match t
      case Node(m) => if segs[0] in m then Walk(m[segs[0]], segs[1..]) else None
      case _ => None
  }

  /** Segment `i` of `segs` is an attribute of the object reached by the segments before it. */
  predicate Resolves(t: Target, segs: seq<string>, i: nat)
    requires i < |segs|
  {
    var w := Walk(t, segs[..i]);
    w.Some? && w.value.Node? && segs[i] in w.value.members
  }

  /**
   * `find_method`: follow the `.`-separated segments of `path` from the registered instance. A
   * name without a dot is a single `getattr` on the instance.
   */
  function FindMethod(root: Target, path: string): (r: Option<Target>)
    ensures '.' !in path ==> r == (if root.Node? && path in root.members then Some(root.members[path]) else None)
  {
    if '.' in path then Walk(root, Split(path, '.'))
    else
      SplitNoSeparator(path, '.');
      assert root.Node? && path in root.members ==> Walk(root.members[path], [path][1..]) == Some(root.members[path]);
      Walk(root, Split(path, '.'))
  }

  lemma {:induction false} WalkAppend(t: Target, a: seq<string>, b: seq<string>)
    ensures Walk(t, a + b) == match Walk(t, a) case None => None case Some(u) => Walk(u, b)
    decreases a
  {
    if a != [] {
      assert (a + b)[0] == a[0] && (a + b)[1..] == a[1..] + b;
      if t.Node? && a[0] in t.members {
        WalkAppend(t.members[a[0]], a[1..], b);
      }
    } else {
      assert a + b == b;
    }
  }

  /** The walk succeeds exactly when every segment is found; otherwise it yields `None`. */
  lemma {:induction false} WalkSucceedsIff(t: Target, segs: seq<string>)
    ensures Walk(t, segs).Some? <==> forall i :: 0 <= i < |segs| ==> Resolves(t, segs, i)
    decreases |segs|
  {
    if segs != [] {
      var n := |segs| - 1;
      var front := segs[..n];
      assert segs == front + [segs[n]];
      WalkAppend(t, front, [segs[n]]);
      WalkSucceedsIff(t, front);
      forall i | 0 <= i < n ensures Resolves(t, segs, i) <==> Resolves(t, front, i) {
        assert segs[..i] == front[..i];
      }
      assert segs[..n] == front;
      match Walk(t, front)
      case None =>
      case Some(u) =>
        assert Walk(u, [segs[n]]).Some? <==> Resolves(t, segs, n);
    }
  }

  /** A method reached through a chained client name is found by following those very segments. */
  lemma FindMethodJoin(root: Target, segs: seq<string>)
    requires |segs| >= 1
    requires forall i :: 0 <= i < |segs| ==> '.' !in segs[i]
    ensures FindMethod(root, Join(segs, '.')) == Walk(root, segs)
  {
    SplitJoin(segs, '.');
  }

  // ---------------------------------------------------------------- call_method

  /** `call_method`'s parameter normalisation. */
  function Normalise(params: Value): (a: Args)
    ensures Falsy(params) ==> a == Positional([])
    ensures !Falsy(params) && params.Arr? ==> a == Positional(params.items)
    ensures !Falsy(params) && params.Obj? ==> a == Named(params.fields)
    ensures !Falsy(params) && !params.Arr? && !params.Obj? ==> a == Positional([params])
  {
    if Falsy(params) then Positional([])
    else match params
      case Arr(xs) => Positional(xs)
      case Obj(m) => Named(m)
      case _ => Positional([params])
  }

  /** The value a managed exception turns into: `{"error": {code, message[, info]}}`. */
  function ManagedError(e: Exc): (r: Value)
    ensures r.Obj? && r.fields.Keys == {"error"} && r.fields["error"].Obj?
    ensures var err := r.fields["error"].fields;
      && "code" in err && "message" in err
      && err["code"] == e.code.GetOr(Num(-1))
      && err["message"] == e.message.GetOr(Str(""))
      && (e.info.Some? <==> "info" in err)
      && (e.info.Some? ==> err["info"] == e.info.value)
      && err.Keys <= {"code", "message", "info"}
  {
    var base := map["code" := e.code.GetOr(Num(-1)), "message" := e.message.GetOr(Str(""))];
    Obj(map["error" := Obj(if e.info.Some? then base["info" := e.info.value] else base)])
  }

  /** `call_method(name, params)` against the server's instance; `detail` stands for the traceback text. */
  function CallMethod(server: Server, name: string, params: Value, detail: string): (c: Call)
    // an empty name is an invalid request, and nothing is called
    ensures name == "" ==>
      c == Call(HandlerError(ERR_SRV_INVALID_REQUEST, Some("Method not specified.")), [])
    // a name that does not lead to a callable is "method not found", and nothing is called
    ensures name != "" && !(FindMethod(server.instance, name).Some? && FindMethod(server.instance, name).value.Fn?) ==>
      c == Call(HandlerError(ERR_SRV_METHOD_NOT_FOUND, None), [])
    // otherwise the callable is called exactly once, with the normalised parameters
    ensures name != "" && FindMethod(server.instance, name).Some? && FindMethod(server.instance, name).value.Fn? ==>
      c.invoked == [Invocation(FindMethod(server.instance, name).value.id, Normalise(params))]
    ensures |c.invoked| <= 1
    // what it returns, and what the outcome is when it raises
    ensures |c.invoked| == 1 ==>
      match server.behaviour(c.invoked[0].fn, c.invoked[0].args)
      case Returns(v) => c.outcome == Returned(v)
      case Raises(e) =>
        if !e.isException then c.outcome == Uncaught
        else if e.managed then c.outcome == Returned(ManagedError(e))
        else c.outcome == HandlerError(ERR_SRV_METHOD_EXCEPTION, Some(Traceback(detail)))
    ensures c.outcome.HandlerError? ==> c.outcome.code in MESSAGES && IsServerCode(c.outcome.code)
  {
    if name == "" then Call(HandlerError(ERR_SRV_INVALID_REQUEST, Some("Method not specified.")), [])
    else
      var found := FindMethod(server.instance, name);
      if found.None? || !found.value.Fn? then Call(HandlerError(ERR_SRV_METHOD_NOT_FOUND, None), [])
      else
        var args := Normalise(params);
        var outcome :=
          match server.behaviour(found.value.id, args)
          case Returns(v) => Returned(v)
          case Raises(e) =>
            if !e.isException then Uncaught
            else if e.managed then Returned(ManagedError(e))
            else HandlerError(ERR_SRV_METHOD_EXCEPTION, Some(Traceback(detail)));
        Call(outcome, [Invocation(found.value.id, args)])
  }

  // ---------------------------------------------------------------- reinstate_files / decode_request

  /**
   * What `form[key]` gives for a name of the posted form: one field, or the list of fields posted
   * under the same name, of which there are at least two. A field's `.file` is absent for a plain
   * (non-file) field.
   */
  datatype FormField =
    | Single(file: Option<FileObj>)
    | Repeated(first: Option<FileObj>, second: Option<FileObj>, more: seq<Option<FileObj>>)

  type Form = map<string, FormField>

  /** The `.file` of every field posted under one name, in the order they were posted. */
  function PostedFiles(field: FormField): seq<Option<FileObj>> {
    match field
    case Single(f) => [f]
    case Repeated(f, g, more) => [f, g] + more
  }

  /**
   * `KFieldStorage.getfile(key)`: the file of the first field posted under `key`, and the default
   * `None` when no field has that name.
   */
  function GetFile(form: Form, key: string): (f: Option<FileObj>)
    ensures key !in form ==> f.None?
    ensures key in form ==> f == PostedFiles(form[key])[0]
  {
    if key !in form then None
    else match form[key]
      case Single(f) => f
      case Repeated(f, _, _) => f
  }

  /** An exception that escapes `handle_request` (raised before its `try`). */
  datatype Escape = Raised(code: int, info: Option<string>) | AttributeError | UnboundLocalError

  predicate IsPlaceholder(v: Value) {
    v.Str? && StartsWith(v.s, FILE_PREFIX)
  }

  /** What `reinstate_files` does to one list slot. */
  function ReinstateSlot(v: Value, form: Form): Result<Value, Escape> {
    if !v.Str? then Err(AttributeError)
    else if !StartsWith(v.s, FILE_PREFIX) then Ok(v)
    else match GetFile(form, v.s)
      case Some(f) => Ok(Stream(f))
      case None => Err(Raised(ERR_SRV_MISSING_FILE_OBJECT, Some(v.s)))
  }

  /** `reinstate_files` over a list, slot by slot from the front; the first failing slot decides. */
  function ReinstateList(xs: seq<Value>, form: Form): Result<seq<Value>, Escape> {
    if xs == [] then Ok([])
    else match ReinstateSlot(xs[0], form)
      case Err(e) => Err(e)
      case Ok(y) => Prepend([y], ReinstateList(xs[1..], form))
  }

  function Prepend(done: seq<Value>, r: Result<seq<Value>, Escape>): Result<seq<Value>, Escape> {
    match r
    case Ok(ys) => Ok(done + ys)
    case Err(e) => Err(e)
  }

  lemma PrependTwice(a: seq<Value>, b: seq<Value>, r: Result<seq<Value>, Escape>)
    ensures Prepend(a, Prepend(b, r)) == Prepend(a + b, r)
  {
    if r.Ok? { assert a + (b + r.value) == (a + b) + r.value; }
  }

  /**
   * A list is reinstated exactly when every slot is a string and every placeholder has a file;
   * then placeholders become their files and every other slot is kept.
   */
  lemma {:induction false} ReinstateListOk(xs: seq<Value>, form: Form)
    ensures ReinstateList(xs, form).Ok? <==>
      forall i :: 0 <= i < |xs| ==> xs[i].Str? && (IsPlaceholder(xs[i]) ==> GetFile(form, xs[i].s).Some?)
    ensures ReinstateList(xs, form).Ok? ==>
      var ys := ReinstateList(xs, form).value;
      && |ys| == |xs|
      && forall i :: 0 <= i < |xs| ==>
           ys[i] == if IsPlaceholder(xs[i]) then Stream(GetFile(form, xs[i].s).value) else xs[i]
  {
    if xs != [] {
      ReinstateListOk(xs[1..], form);
      var r := ReinstateList(xs, form);
      if ReinstateSlot(xs[0], form).Ok? && ReinstateList(xs[1..], form).Ok? {
        var ys := r.value;
        var rest := ReinstateList(xs[1..], form).value;
        assert ys == [ReinstateSlot(xs[0], form).value] + rest;
        forall i | 0 <= i < |xs|
          ensures ys[i] == if IsPlaceholder(xs[i]) then Stream(GetFile(form, xs[i].s).value) else xs[i]
        {
          if i > 0 { assert xs[i] == xs[1..][i - 1]; }
        }
      }
      if !(ReinstateSlot(xs[0], form).Ok? && ReinstateList(xs[1..], form).Ok?) {
        assert r.Err?;
        if ReinstateSlot(xs[0], form).Ok? {
          var j :| 0 <= j < |xs[1..]| &&
            !(xs[1..][j].Str? && (IsPlaceholder(xs[1..][j]) ==> GetFile(form, xs[1..][j].s).Some?));
          assert xs[j + 1] == xs[1..][j];
        }
      } else {
        forall i | 0 <= i < |xs|
          ensures xs[i].Str? && (IsPlaceholder(xs[i]) ==> GetFile(form, xs[i].s).Some?)
        {
          if i > 0 { assert xs[i] == xs[1..][i - 1]; }
        }
      }
    }
  }

  /** A missing file part is reported with the placeholder that named it, which occurs in the list. */
  lemma {:induction false} ReinstateMissingFile(xs: seq<Value>, form: Form)
    requires ReinstateList(xs, form).Err? && ReinstateList(xs, form).error.Raised?
    ensures var e := ReinstateList(xs, form).error;
      && e.code == ERR_SRV_MISSING_FILE_OBJECT && e.info.Some?
      && Str(e.info.value) in xs && IsPlaceholder(Str(e.info.value))
      && GetFile(form, e.info.value).None?
  {
    if ReinstateSlot(xs[0], form).Ok? {
      ReinstateMissingFile(xs[1..], form);
      assert ReinstateList(xs, form).error == ReinstateList(xs[1..], form).error;
      assert forall v :: v in xs[1..] ==> v in xs;
    }
  }

  /**
   * `reinstate_files(params, form)` on list params: each placeholder slot is overwritten in place
   * with the uploaded file. The dict branch is not modelled (see the README).
   */
  method ReinstateFiles(params: Value, form: Form) returns (r: Result<Value, Escape>)
    requires !(params.Obj? && params.fields != map[])
    ensures params.Arr? ==> r == match ReinstateList(params.items, form)
                                 case Ok(ys) => Ok(Arr(ys))
                                 case Err(e) => Err(e)
    ensures params.Obj? ==> r == Ok(params)
    ensures !params.Arr? && !params.Obj? ==> r == Err(UnboundLocalError)
  {
    if params.Obj? {
      return Ok(params);
    }
    if !params.Arr? {
      // `items` is never bound, so the loop header raises
      return Err(UnboundLocalError);
    }
    var xs := params.items;
    var k := 0;
    assert params.items[0..] == params.items;
    if ReinstateList(params.items, form).Ok? {
      assert [] + ReinstateList(params.items, form).value == ReinstateList(params.items, form).value;
    }
    while k < |xs|
      invariant 0 <= k <= |xs| == |params.items|
      invariant xs[k..] == params.items[k..]
      invariant ReinstateList(params.items, form) == Prepend(xs[..k], ReinstateList(params.items[k..], form))
    {
      var v := xs[k];
      assert params.items[k..][0] == v && params.items[k..][1..] == params.items[k + 1..];
      if !v.Str? {
        return Err(AttributeError);
      }
      ghost var before := xs[..k];
      if StartsWith(v.s, FILE_PREFIX) {
        var f := GetFile(form, v.s);
        if f.Some? {
          xs := xs[k := Stream(f.value)];
        } else {
          return Err(Raised(ERR_SRV_MISSING_FILE_OBJECT, Some(v.s)));
        }
      }
      PrependTwice(before, [ReinstateSlot(v, form).value], ReinstateList(params.items[k + 1..], form));
      assert xs[..k + 1] == before + [xs[k]];
      k := k + 1;
    }
    assert xs[..k] == xs && params.items[k..] == [] && xs + [] == xs;
    return Ok(Arr(xs));
  }

  /** The fields of `KRequestArgs`. */
  datatype RequestArgs = RequestArgs(methodName: string, params: Value, pmhParams: Value)

  /**
   * What `decode_request(json_req, form)` returns or raises; `loaded` is what `json.loads` gave
   * (`None` for invalid JSON) and `form` the posted form, absent for a GET. `if form:` holds for
   * every non-empty form, so a plain POST, whose form carries the `json` field, reinstates too.
   */
  function Decode(loaded: Option<Value>, form: Option<Form>): (r: Result<RequestArgs, Escape>)
    requires loaded.Some? && loaded.value.Obj? && form.Some? && form.value != map[] ==>
             !(Get(loaded.value.fields, "params").Obj? && Get(loaded.value.fields, "params").fields != map[])
    ensures loaded.None? ==> r == Err(Raised(ERR_SRV_JSON_DECODING, None))
    ensures loaded.Some? && !loaded.value.Obj? ==> r == Err(AttributeError)
    // the three fields are read from the request whenever it decodes
    ensures r.Ok? ==>
      && loaded.Some? && loaded.value.Obj?
      && var req := loaded.value.fields;
      && r.value.methodName == PyStr(Get(req, "method"))
      && r.value.pmhParams == Get(req, "pmhparams")
    // without a form, or with params that hold no placeholder slot, it always decodes, unchanged
    ensures loaded.Some? && loaded.value.Obj? &&
            (form.None? || form.value == map[] || Get(loaded.value.fields, "params").Obj?) ==>
      r.Ok? && r.value.params == Get(loaded.value.fields, "params")
    // with a form, list params decode exactly when they are reinstated, and fail as that fails
    ensures loaded.Some? && loaded.value.Obj? && form.Some? && form.value != map[] ==>
      var p := Get(loaded.value.fields, "params");
      && (p.Arr? ==> (r.Ok? <==> ReinstateList(p.items, form.value).Ok?))
      && (p.Arr? && r.Ok? ==> r.value.params == Arr(ReinstateList(p.items, form.value).value))
      && (p.Arr? && r.Err? ==> r.error == ReinstateList(p.items, form.value).error)
      && (!p.Arr? && !p.Obj? ==> r == Err(UnboundLocalError))
  {
    if loaded.None? then Err(Raised(ERR_SRV_JSON_DECODING, None))
    else if !loaded.value.Obj? then Err(AttributeError)
    else
      var req := loaded.value.fields;
      var args := RequestArgs(PyStr(Get(req, "method")), Get(req, "params"), Get(req, "pmhparams"));
      if form.None? || form.value == map[] || args.params.Obj? then Ok(args)
      else if !args.params.Arr? then Err(UnboundLocalError)
      else match ReinstateList(args.params.items, form.value)
        case Ok(ys) => Ok(args.(params := Arr(ys)))
        case Err(e) => Err(e)
  }

  /** `decode_request`: parse, read the three fields, and reinstate the uploaded files in place. */
  method DecodeRequest(loaded: Option<Value>, form: Option<Form>) returns (r: Result<RequestArgs, Escape>)
    requires loaded.Some? && loaded.value.Obj? && form.Some? && form.value != map[] ==>
             !(Get(loaded.value.fields, "params").Obj? && Get(loaded.value.fields, "params").fields != map[])
    ensures r == Decode(loaded, form)
  {
    if loaded.None? {
      return Err(Raised(ERR_SRV_JSON_DECODING, None));
    }
    if !loaded.value.Obj? {
      // `req.get` on a value that is not a dict
      return Err(AttributeError);
    }
    var req := loaded.value.fields;
    var args := RequestArgs(PyStr(Get(req, "method")), Get(req, "params"), Get(req, "pmhparams"));
    if form.Some? && form.value != map[] {
      var p := ReinstateFiles(args.params, form.value);
      if p.Err? {
        return Err(p.error);
      }
      args := args.(params := p.value);
    }
    return Ok(args);
  }

  /**
   * A request decodes exactly when it is a JSON object and, when a form was posted and the params
   * are a list, every slot is a string and every placeholder names a file part.
   */
  lemma DecodeOkIff(loaded: Option<Value>, form: Option<Form>)
    requires loaded.Some? && loaded.value.Obj? && form.Some? && form.value != map[] ==>
             !(Get(loaded.value.fields, "params").Obj? && Get(loaded.value.fields, "params").fields != map[])
    ensures Decode(loaded, form).Ok? <==>
      && loaded.Some? && loaded.value.Obj?
      && var p := Get(loaded.value.fields, "params");
      && (form.None? || form.value == map[] || p.Obj? ||
          (p.Arr? && forall i :: 0 <= i < |p.items| ==>
             p.items[i].Str? && (IsPlaceholder(p.items[i]) ==> GetFile(form.value, p.items[i].s).Some?)))
  {
    if loaded.Some? && loaded.value.Obj? && form.Some? {
      var p := Get(loaded.value.fields, "params");
      if p.Arr? {
        ReinstateListOk(p.items, form.value);
      }
    }
  }

  /**
   * Of the errors `decode_request` raises itself, invalid JSON is -32700 and anything else is
   * -32002 for a placeholder of the params whose file part is missing.
   */
  lemma DecodeRaises(loaded: Option<Value>, form: Option<Form>)
    requires loaded.Some? && loaded.value.Obj? && form.Some? && form.value != map[] ==>
             !(Get(loaded.value.fields, "params").Obj? && Get(loaded.value.fields, "params").fields != map[])
    requires Decode(loaded, form).Err? && Decode(loaded, form).error.Raised?
    ensures var e := Decode(loaded, form).error;
      if loaded.None? then e == Raised(ERR_SRV_JSON_DECODING, None)
      else
        && form.Some? && Get(loaded.value.fields, "params").Arr?
        && e.code == ERR_SRV_MISSING_FILE_OBJECT && e.info.Some?
        && Str(e.info.value) in Get(loaded.value.fields, "params").items
        && IsPlaceholder(Str(e.info.value)) && GetFile(form.value, e.info.value).None?
  {
    if loaded.Some? {
      ReinstateMissingFile(Get(loaded.value.fields, "params").items, form.value);
    }
  }

  /** With a form posted, a list parameter that is not a string makes decoding fail. */
  lemma NonStringParamFails(req: map<string, Value>, form: Form, i: nat)
    requires form != map[] && Get(req, "params").Arr?
    requires i < |Get(req, "params").items| && !Get(req, "params").items[i].Str?
    ensures Decode(Some(Obj(req)), Some(form)).Err?
  {
    DecodeOkIff(Some(Obj(req)), Some(form));
  }

  /** Only an explicitly empty method string reaches the "invalid request" check; a missing one becomes "None". */
  lemma EmptyNameOnlyFromEmptyString(req: map<string, Value>)
    ensures PyStr(Get(req, "method")) == "" <==> "method" in req && req["method"] == Str("")
  {
  }
}
