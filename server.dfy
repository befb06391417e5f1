/**
 * The response side of `KRequestHandler`: the envelopes it writes, the `headers_sent` flag, and
 * `handle_request`, which runs the pre-method hook and then the requested method.
 */
module RequestHandler {
  import opened Wrappers
  import opened Values
  import opened Errors
  import opened Streams
  import opened Dispatch

  /**
   * What the handler writes, in order: status line, headers, end of headers and body pieces.
   * `Status` is the call to `send_response`, which only buffers the status line: nothing reaches
   * the socket before the next `EndHeaders`, so an exception escaping the handler before then
   * leaves it unsent.
   */
  datatype Event =
    | Status(code: int)
    | Header(name: string, value: string)
    | EndHeaders
    | Json(v: Value)              // `bytes(json.dumps(v), "utf8")`
    | Data(bytes: seq<bv8>)
    | ErrorPage(code: int, message: string)  // `send_error`

  const JSON_HEADERS: seq<Event> := [Header("Content-Type", "application/json"), EndHeaders]
  const STREAM_HEADERS: seq<Event> := [Header("Content-Type", "application/octet-stream"), EndHeaders]

  /** One `wfile.write` per chunk. */
  function DataEvents(chunks: seq<seq<bv8>>): seq<Event> {
    if chunks == [] then [] else [Data(chunks[0])] + DataEvents(chunks[1..])
  }

  /** `{"error": {"code": code, "message": MESSAGES[code]}}`, with `"info"` only for a non-empty info. */
  function ErrorEnvelope(code: int, info: Option<string>): (r: Value)
    requires code in MESSAGES
    ensures Serializable(r)
    ensures r.Obj? && r.fields.Keys == {"error"} && r.fields["error"].Obj?
    ensures var err := r.fields["error"].fields;
      && "code" in err && err["code"] == Num(code)
      && "message" in err && err["message"] == Str(MESSAGES[code])
      && ("info" in err <==> info.Some? && info.value != "")
      && ("info" in err ==> err["info"] == Str(info.value))
      && err.Keys <= {"code", "message", "info"}
  {
    var base := map["code" := Num(code), "message" := Str(MESSAGES[code])];
    var err := if info.Some? && info.value != "" then base["info" := Str(info.value)] else base;
    assert forall k :: k in err ==> err[k].Num? || err[k].Str?;
    assert Serializable(Obj(err));
    var r := Obj(map["error" := Obj(err)]);
    assert forall k :: k in r.fields ==> r.fields[k] == Obj(err);
    r
  }

  /** What the `try` block of `handle_request` settles on. */
  datatype Reply = Success(v: Value) | Failure(code: int, info: Option<string>)

  datatype Dispatched = Dispatched(reply: Reply, invoked: seq<Invocation>)

  /** A failed `call_method` as the two `except` clauses of `handle_request` see it. */
  function FailureOf(c: CallOutcome, detail: string): Reply
    requires !c.Returned?
  {
    match c
    case HandlerError(code, info) => Failure(code, info)
    case Uncaught => Failure(ERR_SRV_UNHANDLED_EXCEPTION, Some(Traceback(detail)))
  }

  /** The hook call (if a hook name is set) followed by the main call, as `handle_request` makes them. */
  function DispatchRequest(server: Server, args: RequestArgs, detail: string): Dispatched {
    var hook :=
      if server.hookName != "" then CallMethod(server, server.hookName, args.pmhParams, detail)
      else Call(Returned(Null), []);
    if !hook.outcome.Returned? then Dispatched(FailureOf(hook.outcome, detail), hook.invoked)
    else
      var main := CallMethod(server, args.methodName, args.params, detail);
      var reply :=
        if main.outcome.Returned? then Success(if Falsy(main.outcome.v) then Obj(map[]) else main.outcome.v)
        else FailureOf(main.outcome, detail);
      Dispatched(reply, hook.invoked + main.invoked)
  }

  /** What `send_result` or `send_json_error` write for a reply, on a handler with no headers sent yet. */
  function ReplyEvents(reply: Reply, typeError: string): seq<Event>
    requires reply.Failure? ==> reply.code in MESSAGES
  {
    match reply
    case Success(v) =>
      if v.Stream? then STREAM_HEADERS + DataEvents(Chunks(v.file.contents))
      else if Serializable(v) then JSON_HEADERS + [Json(Obj(map["result" := v]))]
      else JSON_HEADERS + [Json(ErrorEnvelope(ERR_SRV_JSON_ENCODING, Some(typeError)))]
    case Failure(code, info) => JSON_HEADERS + [Json(ErrorEnvelope(code, info))]
  }

  /** The result envelope can be encoded exactly when the result itself can. */
  lemma ResultEnvelopeSerializable(v: Value)
    ensures Serializable(Obj(map["result" := v])) <==> Serializable(v)
  {
    var m := map["result" := v];
    assert m["result"] == v;
  }

  /** Every error code a dispatch can settle on is a server code from the table. */
  lemma DispatchCodesAreServerCodes(server: Server, args: RequestArgs, detail: string)
    ensures var r := DispatchRequest(server, args, detail).reply;
      r.Failure? ==> r.code in MESSAGES && IsServerCode(r.code)
  {
  }

  /**
   * The pre-method hook: with a hook name set, it is called (at most once) before anything else;
   * the main method is called only if the hook did not raise, and then exactly once after it; the
   * hook's return value plays no part in the reply.
   */
  lemma HookRunsFirst(server: Server, args: RequestArgs, detail: string)
    requires server.hookName != ""
    ensures var d := DispatchRequest(server, args, detail);
      var hook := CallMethod(server, server.hookName, args.pmhParams, detail);
      var main := CallMethod(server, args.methodName, args.params, detail);
      && |hook.invoked| <= 1 && |main.invoked| <= 1
      && d.invoked[..|hook.invoked|] == hook.invoked
      && (hook.outcome.Returned? ==> d.invoked == hook.invoked + main.invoked
                                      && d.reply == DispatchRequest(server.(hookName := ""), args, detail).reply)
      && (!hook.outcome.Returned? ==> d.invoked == hook.invoked && d.reply.Failure?)
  {
    var d := DispatchRequest(server, args, detail);
    var hook := CallMethod(server, server.hookName, args.pmhParams, detail);
    var main := CallMethod(server, args.methodName, args.params, detail);
    var noHook := server.(hookName := "");
    assert CallMethod(noHook, args.methodName, args.params, detail) == main;
    assert [] + main.invoked == main.invoked;
  }

  /** Without a hook, only the main method is called. */
  lemma NoHookCallsOnlyMain(server: Server, args: RequestArgs, detail: string)
    requires server.hookName == ""
    ensures DispatchRequest(server, args, detail).invoked == CallMethod(server, args.methodName, args.params, detail).invoked
  {
    assert [] + CallMethod(server, args.methodName, args.params, detail).invoked
        == CallMethod(server, args.methodName, args.params, detail).invoked;
  }

  /** A falsy result is replaced by `{}`; any other result is sent as it is. */
  lemma FalsyResultBecomesEmptyObject(server: Server, args: RequestArgs, detail: string, v: Value)
    requires server.hookName == "" || CallMethod(server, server.hookName, args.pmhParams, detail).outcome.Returned?
    requires CallMethod(server, args.methodName, args.params, detail).outcome == Returned(v)
    ensures DispatchRequest(server, args, detail).reply == Success(if Falsy(v) then Obj(map[]) else v)
    ensures DispatchRequest(server, args, detail).reply.v != Null
  {
  }

  function CountContentType(events: seq<Event>): nat {
    if events == [] then 0
    else (if events[0].Header? && events[0].name == "Content-Type" then 1 else 0) + CountContentType(events[1..])
  }

  lemma {:induction false} CountContentTypeAppend(a: seq<Event>, b: seq<Event>)
    ensures CountContentType(a + b) == CountContentType(a) + CountContentType(b)
  {
    if a == [] {
      assert a + b == b;
    } else {
      assert (a + b)[1..] == a[1..] + b;
      CountContentTypeAppend(a[1..], b);
    }
  }

  lemma {:induction false} NoHeaderInData(chunks: seq<seq<bv8>>)
    ensures CountContentType(DataEvents(chunks)) == 0
  {
    if chunks != [] {
      assert DataEvents(chunks)[1..] == DataEvents(chunks[1..]);
      NoHeaderInData(chunks[1..]);
    }
  }

  function DataBytes(events: seq<Event>): seq<bv8> {
    if events == [] then [] else (if events[0].Data? then events[0].bytes else []) + DataBytes(events[1..])
  }

  /**
   * Each reply sends exactly one Content-Type header, first, and then either one JSON envelope
   * (holding `result` or `error`, never both) or the bytes of the returned stream.
   */
  lemma {:induction false} ReplyIsOneEnvelope(reply: Reply, typeError: string)
    requires reply.Failure? ==> reply.code in MESSAGES
    ensures var ev := ReplyEvents(reply, typeError);
      && CountContentType(ev) == 1
      && |ev| >= 2 && ev[0].Header? && ev[1] == EndHeaders
      && (reply.Success? && reply.v.Stream? ==>
            ev[0].value == "application/octet-stream" && DataBytes(ev[2..]) == reply.v.file.contents)
      && (!(reply.Success? && reply.v.Stream?) ==>
            ev[0].value == "application/json" && |ev| == 3 && ev[2].Json?
            && ev[2].v.Obj? && (ev[2].v.fields.Keys == {"result"} || ev[2].v.fields.Keys == {"error"}))
  {
    var ev := ReplyEvents(reply, typeError);
    if reply.Success? && reply.v.Stream? {
      var chunks := Chunks(reply.v.file.contents);
      assert ev == STREAM_HEADERS + DataEvents(chunks);
      CountContentTypeAppend(STREAM_HEADERS, DataEvents(chunks));
      NoHeaderInData(chunks);
      assert ev[2..] == DataEvents(chunks);
      DataBytesOfChunks(chunks);
      ChunksReassemble(reply.v.file.contents);
    } else {
      CountContentTypeAppend(JSON_HEADERS, ev[2..]);
      assert ev == JSON_HEADERS + ev[2..];
    }
  }

  lemma {:induction false} DataBytesOfChunks(chunks: seq<seq<bv8>>)
    ensures DataBytes(DataEvents(chunks)) == Concat(chunks)
  {
    if chunks != [] {
      assert DataEvents(chunks)[1..] == DataEvents(chunks[1..]);
      DataBytesOfChunks(chunks[1..]);
    }
  }

  /** One `KRequestHandler`: the server it serves, the `headers_sent` flag and what it has written. */
  class Handler {
    const server: Server
    var headersSent: bool
    var out: seq<Event>

    constructor (server: Server)
      ensures this.server == server && !headersSent && out == []
    {
      this.server := server;
      headersSent := false;
      out := [];
    }

    /** `extract_json`: the `json` (or else `JSON`) parameter; a 400 error page when neither is present. */
    method ExtractJson(params: map<string, string>) returns (r: Option<string>)
      modifies this`out
      ensures "json" in params ==> r == Some(params["json"])
      ensures "json" !in params && "JSON" in params ==> r == Some(params["JSON"])
      ensures r.None? <==> "json" !in params && "JSON" !in params
      ensures out == old(out) + (if r.None? then [ErrorPage(400, "Missing 'json' parameter")] else [])
    {
      if "json" !in params {
        if "JSON" !in params {
          out := out + [ErrorPage(400, "Missing 'json' parameter")];
          return None;
        }
        return Some(params["JSON"]);
      }
      return Some(params["json"]);
    }

    /** `send_data`: copy the stream to the output, `CHUNK_SIZE` bytes at a time. */
    method SendData(stream: FileObj)
      modifies this`out
      ensures out == old(out) + DataEvents(Chunks(stream.contents))
    {
      var data := stream.contents;
      var pos := 0;
      while pos < |data|
        invariant 0 <= pos <= |data|
        invariant old(out) + DataEvents(Chunks(data)) == out + DataEvents(Chunks(data[pos..]))
        decreases |data| - pos
      {
        var n := if |data| - pos <= CHUNK_SIZE then |data| else pos + CHUNK_SIZE;
        var buf := data[pos..n];
        ChunksStep(data, pos);
        assert DataEvents(Chunks(data[pos..])) == [Data(buf)] + DataEvents(Chunks(data[n..]));
        out := out + [Data(buf)];
        pos := n;
      }
      assert data[pos..] == [];
    }

    /** `send_json`: write the encoded value, or raise -32003 with the `TypeError` text. */
    method SendJson(data: Value, typeError: string) returns (raised: Option<Escape>)
      modifies this`out
      ensures Serializable(data) ==> raised.None? && out == old(out) + [Json(data)]
      ensures !Serializable(data) ==> raised == Some(Raised(ERR_SRV_JSON_ENCODING, Some(typeError))) && out == old(out)
    {
      if !Serializable(data) {
        return Some(Raised(ERR_SRV_JSON_ENCODING, Some(typeError)));
      }
      out := out + [Json(data)];
      return None;
    }

    /** `send_json_error`: the JSON Content-Type header unless already sent, then the error envelope. */
    method SendJsonError(code: int, info: Option<string>)
      requires code in MESSAGES
      modifies this`out, this`headersSent
      ensures headersSent
      ensures out == old(out) + (if old(headersSent) then [] else JSON_HEADERS) + [Json(ErrorEnvelope(code, info))]
    {
      if !headersSent {
        out := out + JSON_HEADERS;
        headersSent := true;
      }
      var raised := SendJson(ErrorEnvelope(code, info), "");
    }

    /** `send_json_result`: the result envelope `{"result": res}`. */
    method SendJsonResult(res: Value, typeError: string) returns (raised: Option<Escape>)
      modifies this`out
      ensures Serializable(res) ==> raised.None? && out == old(out) + [Json(Obj(map["result" := res]))]
      ensures !Serializable(res) ==> raised == Some(Raised(ERR_SRV_JSON_ENCODING, Some(typeError))) && out == old(out)
    {
      ResultEnvelopeSerializable(res);
      raised := SendJson(Obj(map["result" := res]), typeError);
    }

    /** `send_result`: headers for a stream or for JSON, then the stream's bytes or the result envelope. */
    method SendResult(res: Value, typeError: string) returns (raised: Option<Escape>)
      modifies this`out, this`headersSent
      ensures headersSent
      ensures res.Stream? ==> raised.None? && out == old(out) + STREAM_HEADERS + DataEvents(Chunks(res.file.contents))
      ensures !res.Stream? && Serializable(res) ==>
        raised.None? && out == old(out) + JSON_HEADERS + [Json(Obj(map["result" := res]))]
      ensures !res.Stream? && !Serializable(res) ==>
        raised == Some(Raised(ERR_SRV_JSON_ENCODING, Some(typeError))) && out == old(out) + JSON_HEADERS
    {
      if res.Stream? {
        out := out + [Header("Content-Type", "application/octet-stream")];
      } else {
        out := out + [Header("Content-Type", "application/json")];
      }
      out := out + [EndHeaders];
      headersSent := true;
      if res.Stream? {
        SendData(res.file);
        raised := None;
      } else {
        raised := SendJsonResult(res, typeError);
      }
    }

    /**
     * `handle_request`: status 200, decode the request (whose failures escape), then the hook and
     * the main call inside the `try`, whose outcome becomes exactly one response envelope.
     * `detail` stands for the traceback text and `typeError` for the message of `json.dumps`'s
     * `TypeError`.
     */
    method HandleRequest(loaded: Option<Value>, form: Option<Form>, detail: string, typeError: string)
      returns (escape: Option<Escape>, ghost args: Option<RequestArgs>, ghost invoked: seq<Invocation>)
      requires loaded.Some? && loaded.value.Obj? && form.Some? && form.value != map[] ==>
               !(Get(loaded.value.fields, "params").Obj? && Get(loaded.value.fields, "params").fields != map[])
      modifies this`out, this`headersSent
      // a request escapes exactly when `decode_request` raises, with what it raises
      ensures escape == (if Decode(loaded, form).Err? then Some(Decode(loaded, form).error) else None)
      ensures args == (if Decode(loaded, form).Ok? then Some(Decode(loaded, form).value) else None)
      ensures escape.Some? <==> args.None?
      ensures loaded.None? ==> escape == Some(Raised(ERR_SRV_JSON_DECODING, None))
      ensures escape.Some? ==> out == old(out) + [Status(200)] && invoked == [] && !headersSent
      // what the hook and the method receive
      ensures args.Some? ==>
        && loaded.Some? && loaded.value.Obj?
        && var req := loaded.value.fields;
        && args.value.methodName == PyStr(Get(req, "method"))
        && args.value.pmhParams == Get(req, "pmhparams")
        && (form.None? || form.value == map[] || Get(req, "params").Obj? ==> args.value.params == Get(req, "params"))
        && (form.Some? && form.value != map[] && Get(req, "params").Arr? ==>
              args.value.params == Arr(ReinstateList(Get(req, "params").items, form.value).value))
      // and what is written once it decoded
      ensures args.Some? ==>
        && headersSent
        && var d := DispatchRequest(server, args.value, detail);
        && invoked == d.invoked
        && out == old(out) + [Status(200)] + ReplyEvents(d.reply, typeError)
    {
      headersSent := false;
      out := out + [Status(200)];
      var decoded := DecodeRequest(loaded, form);
      if decoded.Err? {
        return Some(decoded.error), None, [];
      }
      args := Some(decoded.value);
      invoked := Respond(decoded.value, detail, typeError);
      escape := None;
    }

    /** The `try` block of `handle_request` and its two `except` clauses. */
    method Respond(a: RequestArgs, detail: string, typeError: string) returns (ghost invoked: seq<Invocation>)
      requires !headersSent
      modifies this`out, this`headersSent
      ensures headersSent
      ensures var d := DispatchRequest(server, a, detail);
        invoked == d.invoked && out == old(out) + ReplyEvents(d.reply, typeError)
    {
      ghost var d := DispatchRequest(server, a, detail);
      invoked := [];
      if server.hookName != "" {
        var hook := CallMethod(server, server.hookName, a.pmhParams, detail);
        invoked := hook.invoked;
        if !hook.outcome.Returned? {
          assert d == Dispatched(FailureOf(hook.outcome, detail), hook.invoked);
          Fail(hook.outcome, detail);
          return;
        }
      }
      var main := CallMethod(server, a.methodName, a.params, detail);
      invoked := invoked + main.invoked;
      assert d.invoked == invoked;
      if !main.outcome.Returned? {
        assert d.reply == FailureOf(main.outcome, detail);
        Fail(main.outcome, detail);
        return;
      }
      var res := main.outcome.v;
      if Falsy(res) {
        res := Obj(map[]);
      }
      assert d.reply == Success(res);
      SendSuccess(res, typeError);
    }

    /** `send_result` for a successful call, with the `-32003` error when the result cannot be encoded. */
    method SendSuccess(res: Value, typeError: string)
      requires !headersSent
      modifies this`out, this`headersSent
      ensures headersSent
      ensures out == old(out) + ReplyEvents(Success(res), typeError)
    {
      ghost var before := out;
      var raised := SendResult(res, typeError);
      if raised.Some? {
        ghost var sent := out;
        SendJsonError(raised.value.code, raised.value.info);
        AppendEmpty(sent);
        AppendAssoc(before, JSON_HEADERS, [Json(ErrorEnvelope(ERR_SRV_JSON_ENCODING, Some(typeError)))]);
      } else if res.Stream? {
        AppendAssoc(before, STREAM_HEADERS, DataEvents(Chunks(res.file.contents)));
      } else {
        AppendAssoc(before, JSON_HEADERS, [Json(Obj(map["result" := res]))]);
      }
    }

    /** The two `except` clauses of `handle_request`. */
    method Fail(c: CallOutcome, detail: string)
      requires !c.Returned?
      requires c.HandlerError? ==> c.code in MESSAGES
      modifies this`out, this`headersSent
      requires !headersSent
      ensures headersSent
      ensures out == old(out) + ReplyEvents(FailureOf(c, detail), "")
    {
      match c
      case HandlerError(code, info) => SendJsonError(code, info);
      case Uncaught => SendJsonError(ERR_SRV_UNHANDLED_EXCEPTION, Some(Traceback(detail)));
    }
  }
}
