# krpc in Dafny

A model of `krpc/krpc.py`: a small RPC library that carries JSON over HTTP. A client call
`client.a.b(x, f)` becomes a JSON envelope `{"method": "a.b", "params": [...], "pmhparams": ...}`.
The envelope is posted as a plain form field, or as a `multipart/form-data` body when some
arguments are open files. The server resolves the dotted name against a registered object. It
runs an optional pre-method hook and then the method, and answers with `{"result": ...}`, with
`{"error": {"code", "message"[, "info"]}}`, or with the raw bytes of a returned stream.

Modules, one per component of the source:

- `Errors` (`errors.dfy`): the error table `MESSAGES` and `KRPCClientException`'s constructor.
  The server codes are those of section 5.1 of the JSON-RPC 2.0 specification, plus its reserved
  block -32000..-32099.
- `Values` (`values.dfy`): the Python values that cross the wire. This is JSON plus readable
  streams and other unserialisable objects, with the truthiness of those values (`not v`), `str()`
  and `dict.get`.
- `Text` (`text.dfy`): UTF-8 encoding, `split`/`join` on one character, `os.path.basename`.
- `Streams` (`streams.dfy`): reading a stream `CHUNK_SIZE` (8192) bytes at a time.
- `Dispatch` (`dispatch.dfy`): `find_method`, `call_method`, `KFieldStorage.getfile`,
  `reinstate_files` and `decode_request`. The registered instance is a tree of attributes. Each
  callable is identified by a number, and what it does is a function parameter of the server.
- `RequestHandler` (`server.dfy`): the `Handler` class. It has the `headers_sent` flag and the
  sequence of events it writes (status, headers, JSON envelopes, data chunks, error pages). Its
  methods are `extract_json`, `send_data`, `send_json`, `send_json_error`, `send_json_result`,
  `send_result` and `handle_request`.
- `Multipart` (`multipart.dfy`): the multipart body as `body_generator` yields it. It holds the
  two ways of counting its length, and the framing and length lemmas. The layout is RFC 7578's,
  with the boundary delimiters of section 5.1.1 of RFC 2046.
- `Client` (`client.dfy`): `KRPCClientMethod` name chaining, and the `RpcClient` class:
  - `execute`, with its placeholder loop over the positional arguments
  - `body_generator` and `build_multipart`
  - `parse_result`
  - the round trips between the client and the server

Where the code differs from what its documentation suggests, the model follows the code:

- `decode_request` runs before the `try` of `handle_request`. Its failures escape rather than
  becoming error envelopes: malformed JSON, JSON that is not an object (`req.get` raises
  `AttributeError`), a non-string parameter hitting `startswith`, a missing
  file part, and a parameter value that is neither a list nor a dict (`items` is unbound).
- A missing `method` is turned into the string `"None"`, so only an explicit `""` reaches the
  invalid-request check.
- `if form:` is true for every posted form, and a plain urlencoded POST already carries the
  `json` field. So `reinstate_files` runs on every POST, streams or not, and a positional argument
  that is not a string makes such a request fail before the `try`.
- A managed exception is returned as an ordinary value, so the client receives it as
  `{"result": {"error": ...}}`.
- `mimetypes.guess_type` returns a tuple, so the `or "application/octet-stream"` fallback never
  applies. The guess is a parameter that gives the text `%s` makes of it, and both passes of the
  multipart code use that same text.
- `build_multipart` counts code points, but the body is UTF-8 bytes (see Findings). `execute`
  in the model uses the corrected count.

## Model

| member | source | states |
|---|---|---|
| `Errors.DefaultMessage` | krpc/krpc.py:56-76 | `MESSAGES.get(code, "")`: the table's non-empty text for a known integer code, `""` otherwise; a found message belongs to exactly one of the server and client ranges; a list or dict code is refused, as the lookup raises `TypeError` for it |
| `Errors.NewClientException` | krpc/krpc.py:72-79 | code and info are stored as given and a truthy message is kept; an exception whose code is in the table never carries a falsy message, and a falsy message survives only as `""` for a code outside the table; a falsy message with a list or dict code is refused (the table lookup raises `TypeError`) |
| `Values.PyStr` | krpc/krpc.py:229 | a string method name is kept; any other value becomes a non-empty text (`None` becomes `"None"`) |
| `Values.Falsy` | krpc/krpc.py:75 | Python's `not v` for the values that cross the wire: `None`, `False`, `0`, `""`, `[]`, `{}` and empty objects are falsy, files never are (no contract: a definition) |
| `Values.Serializable` | krpc/krpc.py:134-139 | `json.dumps` succeeds exactly when no stream or other object occurs anywhere in the value (no contract: a definition) |
| `Text.JoinSplit` | krpc/krpc.py:241 | joining the pieces of `split('.')` gives the path back |
| `Text.SplitJoin` | krpc/krpc.py:348 | splitting a join of dot-free segments gives the segments back |
| `Text.Basename` | krpc/krpc.py:497 | the base name is the slash-free tail of the path that follows its last `/` |
| `Text.Utf8Length` | krpc/krpc.py:493 | `bytes(s, "utf8")` has one byte per character exactly when `s` is ASCII |
| `Streams.ChunksReassemble` | krpc/krpc.py:511-515 | the successive reads of a stream concatenate to its bytes, each read non-empty and at most 8192 bytes |
| `Dispatch.Walk` | krpc/krpc.py:237-247 | `getattr` along the segments from an object, `None` once one is missing (no contract: its partner is `WalkSucceedsIff`) |
| `Dispatch.FindMethod` | krpc/krpc.py:237-247 | a name without a dot is a single `getattr` on the registered instance, found exactly when the instance has that attribute |
| `Dispatch.WalkSucceedsIff` | krpc/krpc.py:237-247 | following the segments succeeds exactly when every segment is an attribute of the object reached before it |
| `Dispatch.FindMethodJoin` | krpc/krpc.py:237-247 | `find_method` on a dot-joined name follows exactly the joined segments |
| `Dispatch.ManagedError` | krpc/krpc.py:271-273 | `{"error": {...}}` with code (default -1), message (default `""`), and `info` exactly when the exception has one |
| `Dispatch.CallMethod` | krpc/krpc.py:250-278 | empty name: -32600 with "Method not specified." and no call; unresolved or non-callable: -32601 and no call; otherwise one call with the params normalised as `Normalise` states (falsy params become `[]`, a list is passed positionally, a dict by name, any other value as a one-element list), its value returned, a managed exception returned as its error value, another `Exception` giving -32000 with the traceback, anything else escaping; every raised code is a server code in the table |
| `Dispatch.GetFile` | krpc/krpc.py:89-97 | the file of the first field posted under `key` (for a repeated name, `value[0].file`), and the default `None` when no field has that name |
| `Dispatch.ReinstateSlot` | krpc/krpc.py:184-192 | one slot: a non-string raises `AttributeError`, a non-placeholder is kept, a placeholder becomes its file or raises -32002 (no contract: a definition) |
| `Dispatch.ReinstateList` | krpc/krpc.py:177-192 | the slots of a list in order, the first failing one deciding (no contract: its partners are `ReinstateListOk` and `ReinstateMissingFile`) |
| `Dispatch.ReinstateListOk` | krpc/krpc.py:177-192 | a list is reinstated exactly when every slot is a string and every placeholder has a file part; then placeholders become their files and every other slot is kept |
| `Dispatch.ReinstateMissingFile` | krpc/krpc.py:185-192 | a missing part raises -32002 with the placeholder, taken from the list, as info |
| `Dispatch.ReinstateFiles` | krpc/krpc.py:177-192 | the in-place loop over list params yields the slot-by-slot result; an empty dict is returned unchanged; any other value fails because `items` is unbound |
| `Dispatch.DecodeRequest` | krpc/krpc.py:216-234 | the method, including its in-place reinstatement loop, returns or raises exactly what `Decode` describes |
| `Dispatch.Decode` | krpc/krpc.py:216-234 | invalid JSON raises -32700 and a non-object request fails; a decoded request carries `str(method)` and `pmhparams` as sent; without a form, or with dict params, it always decodes with the params as sent; with a form, list params decode exactly when they are reinstated, carry the reinstated list, and fail with the error of the reinstatement; any other params fail because `items` is unbound |
| `Dispatch.DecodeOkIff` | krpc/krpc.py:177-234 | a request decodes exactly when it is a JSON object and, with a form and list params, every slot is a string and every placeholder names a file part |
| `Dispatch.DecodeRaises` | krpc/krpc.py:216-234 | a raised decoding error is -32700 for invalid JSON and otherwise -32002 naming a placeholder of the params whose part is missing |
| `Dispatch.NonStringParamFails` | krpc/krpc.py:184 | with any form posted, a positional parameter that is not a string makes the request fail to decode |
| `Dispatch.EmptyNameOnlyFromEmptyString` | krpc/krpc.py:225-253 | the method name is empty exactly when the request holds `"method": ""` |
| `RequestHandler.DispatchRequest` | krpc/krpc.py:287-300 | the hook call when a hook name is set, then the main call unless the hook raised, and the reply they settle on (no contract: its partners are the lemmas below) |
| `RequestHandler.ReplyEvents` | krpc/krpc.py:144-174 | what `send_result` or `send_json_error` writes for a reply on fresh headers (no contract: its partner is `ReplyIsOneEnvelope`) |
| `RequestHandler.ErrorEnvelope` | krpc/krpc.py:150-151 | the error envelope is serialisable and holds code, the table message, and `info` exactly when info is non-empty |
| `RequestHandler.ResultEnvelopeSerializable` | krpc/krpc.py:155-157 | `{"result": v}` can be encoded exactly when `v` can |
| `RequestHandler.DispatchCodesAreServerCodes` | krpc/krpc.py:287-300 | every error a request settles on is a server code from the table |
| `RequestHandler.HookRunsFirst` | krpc/krpc.py:288-291 | with a hook name set, the hook is called at most once and first; the main method runs only when the hook returned, and then, since callables are modelled without state, the reply is the one without a hook; if the hook raised, the reply is an error and nothing else was called |
| `RequestHandler.NoHookCallsOnlyMain` | krpc/krpc.py:288-291 | without a hook name only the main method is called |
| `RequestHandler.FalsyResultBecomesEmptyObject` | krpc/krpc.py:291-292 | a falsy result is replaced by `{}`, any other is sent unchanged, so the reply value is never `None` |
| `RequestHandler.ReplyIsOneEnvelope` | krpc/krpc.py:144-174 | each reply sends exactly one Content-Type header, first, then either one JSON envelope holding `result` or `error` or the stream's bytes in full |
| `RequestHandler.DataBytesOfChunks` | krpc/krpc.py:126-131 | the bytes written for a sequence of chunks are their concatenation |
| `RequestHandler.Handler.ExtractJson` | krpc/krpc.py:109-123 | `json` is preferred over `JSON`; when neither is present a 400 page is written and nothing is returned |
| `RequestHandler.Handler.SendData` | krpc/krpc.py:126-131 | one write per chunk read, in order, until the stream is exhausted |
| `RequestHandler.Handler.SendJson` | krpc/krpc.py:134-141 | a serialisable value is written; otherwise nothing is written and -32003 is raised with the `TypeError` text |
| `RequestHandler.Handler.SendJsonError` | krpc/krpc.py:144-152 | the JSON header only when headers were not yet sent, then the error envelope; headers are marked sent |
| `RequestHandler.Handler.SendJsonResult` | krpc/krpc.py:155-157 | writes `{"result": res}`, or raises -32003 and writes nothing |
| `RequestHandler.Handler.SendResult` | krpc/krpc.py:160-174 | octet-stream header and the stream's chunks for a stream, JSON header and the result envelope otherwise; headers are marked sent before the body |
| `RequestHandler.Handler.HandleRequest` | krpc/krpc.py:281-300 | status 200 first; the request escapes exactly when `decode_request` raises, with that error and no header; otherwise the hook receives `pmhparams` as sent, the method receives `str(method)` and the params as sent or with their files reinstated, and the calls made and the events written are those of the dispatch and its reply |
| `RequestHandler.Handler.Respond` | krpc/krpc.py:287-300 | the `try` block and its handlers write exactly the events of the reply the dispatch settles on |
| `RequestHandler.Handler.SendSuccess` | krpc/krpc.py:292-297 | a result that cannot be encoded turns into the -32003 envelope after the JSON header, with no second header |
| `RequestHandler.Handler.Fail` | krpc/krpc.py:296-300 | a handler exception becomes its error envelope, anything else -32001 with the traceback |
| `Multipart.Body` | krpc/krpc.py:488-519 | every chunk `body_generator` yields, in order (no contract: its partners are `BodyFraming` and the length lemmas) |
| `Multipart.CodePointLength` | krpc/krpc.py:522-541 | the sum `build_multipart` returns, counting `len` of each text (no contract: its partners are `DeclaredLengthMatchesBody` and `NameMiscount`) |
| `Multipart.ByteLength` | krpc/krpc.py:522-541 | the same sum over the UTF-8 bytes of each text (no contract: its partner is `ByteLengthIsBodyLength`) |
| `Multipart.ByteLengthIsBodyLength` | krpc/krpc.py:522-541 | the sum taken over the encoded header texts equals the total length of the chunks, for every input |
| `Multipart.DeclaredLengthMatchesBody` | krpc/krpc.py:488-541 | with ASCII JSON, placeholders, base names and content types, the length `build_multipart` declares equals the total length of the chunks `body_generator` yields |
| `Multipart.LengthGap` | krpc/krpc.py:523-539 | with ASCII JSON, the two counts differ only in what they count for the file parts |
| `Multipart.FileHeadShape` | krpc/krpc.py:505-507 | a file part's header text is as long as the three texts counted for it, and ASCII around the base name |
| `Multipart.PartMiscount` | krpc/krpc.py:532-537 | a file part's encoded size exceeds its counted size by exactly the extra UTF-8 bytes of its base name |
| `Multipart.AsciiFiles` | krpc/krpc.py:527-537 | with ASCII header texts, the file parts count the same in code points and in bytes |
| `Multipart.NameMiscount` | krpc/krpc.py:529-533 | for one file, the declared length falls short of the body by the extra bytes of the base name |
| `Multipart.NonAsciiNameMiscounts` | krpc/krpc.py:529-533 | a file named `é` makes the declared length one byte short of the body |
| `Multipart.FileChunksWire` | krpc/krpc.py:495-517 | the chunks of the file parts concatenate to each part's header, its whole file and CRLF, in file-table order |
| `Multipart.BodyFraming` | krpc/krpc.py:488-519 | the first chunk is the `json` part and the last the closing delimiter, and the body is the `json` part, then the file parts in order, then the closing delimiter |
| `Client.ClientMethod.Attr` | krpc/krpc.py:347-348 | a dot-free attribute adds exactly one more piece to the name the server splits |
| `Client.Chain` | krpc/krpc.py:341-366 | for segments that reach `__getattr__` (`RemoteNames`: not one of the client's or method object's own attributes, not a dunder name), the server's `split('.')` of a chain of dot-free attributes gives back exactly those segments |
| `Client.ChainName` | krpc/krpc.py:341-366 | `client.s0.s1...sn`, for segments that reach `__getattr__`, names the segments joined with `.` |
| `Client.EveryPathIsAChain` | krpc/krpc.py:237-241 | every path the server splits and resolves is the name of the client chain of its pieces (for pieces that reach `__getattr__`), and resolves the same |
| `Client.ChainReachesMethod` | krpc/krpc.py:341-366 | for dot-free segments that reach `__getattr__`, the server resolves a chained name by following exactly the chained segments |
| `Client.UniqueName` | krpc/krpc.py:483-485 | the placeholder for one stamp (no contract: its partners are `UniqueNameShape` and `UniqueNameInjective`) |
| `Client.UniqueNameShape` | krpc/krpc.py:483-485 | every generated name starts with `__file__:`, followed by the stamp |
| `Client.UniqueNameInjective` | krpc/krpc.py:483-485 | distinct stamps give distinct names |
| `Client.Put` | krpc/krpc.py:386 | `self.files[name] = f` on an insertion-ordered table (no contract: its partners are `PutLookup` and `PutKeys`) |
| `Client.Lookup` | krpc/krpc.py:386 | the entry of a key in the table (no contract: a definition) |
| `Client.Keys` | krpc/krpc.py:386 | the keys of the table (no contract: a definition) |
| `Client.PutLookup` | krpc/krpc.py:386 | after `files[name] = f`, `name` maps to `f` and every other key is unchanged |
| `Client.LookupFound` | krpc/krpc.py:386 | a key that is found has its entry in the table |
| `Client.PutKeys` | krpc/krpc.py:386 | the assignment adds its key to the keys and keeps the keys distinct |
| `Client.SubstitutedUpToItems` | krpc/krpc.py:383-387 | after `k` arguments, the streams among them carry their placeholders and every other argument is unchanged |
| `Client.SubstitutedItems` | krpc/krpc.py:383-387 | each stream argument is replaced at its index by its placeholder, every other argument is kept |
| `Client.FileTableLookup` | krpc/krpc.py:383-387 | with fresh stamps, every stream argument is in the file table under its placeholder |
| `Client.FileTableKeys` | krpc/krpc.py:383-387 | the file table has distinct keys, each starting with `__file__:` |
| `Client.Unpacks` | krpc/krpc.py:383 | whether `k, v = value` succeeds: a string, list, dict or file of exactly two items (no contract: a definition) |
| `Client.ParamsSent` | krpc/krpc.py:372-381 | positional arguments with their placeholders when there are any, else the keyword dict, else `[]` (no contract: a definition) |
| `Client.Envelope` | krpc/krpc.py:389 | the envelope has exactly the keys `method`, `params` and `pmhparams`, holding the method name as a string, the parameters and the hook parameters |
| `Client.EnvelopeReachesServer` | krpc/krpc.py:216-235 | without a form, `decode_request` reads back exactly the method name, parameters and hook parameters the envelope carries |
| `Client.RequestReachesServer` | krpc/krpc.py:369-400 | request round trip of a positional call posted with its files: `decode_request` gives the method name and hook parameters as sent and every argument back, each stream as a file with its bytes |
| `Client.RpcClient.constructor` | krpc/krpc.py:358-362 | the server address is stored; no files and no hook params |
| `Client.RpcClient.SetPreMethodHookParams` | krpc/krpc.py:544-545 | stores the hook params sent with every later call |
| `Client.RpcClient.RegisterStreams` | krpc/krpc.py:375-387 | the positional loop replaces each stream at its index by its placeholder and leaves the rest, with a file table of distinct keys |
| `Client.RpcClient.Execute` | krpc/krpc.py:369-400 | the file table is reset; positional arguments win over keyword arguments; a keyword value that cannot be unpacked raises that error first; otherwise the call fails exactly when the envelope cannot be encoded, and succeeds whenever it can; an unpacking error is reported only for keyword-only calls with a bad value; the payload is multipart exactly when the table is non-empty, with the body of the file table and a length equal to its size |
| `Client.RpcClient.BodyGenerator` | krpc/krpc.py:488-519 | yields the `json` part, each file part in table order, then the closing delimiter |
| `Client.RpcClient.ReadChunks` | krpc/krpc.py:511-515 | the read loop yields the stream's successive chunks |
| `Client.RpcClient.BuildMultipart` | krpc/krpc.py:522-541 | as written: the code-point count, together with the generator's body |
| `Client.RpcClient.BuildMultipartBytes` | krpc/krpc.py:522-541 | corrected: the declared length is always the total length of the body |
| `Client.PlaceholdersReinstated` | krpc/krpc.py:177-192 | client placeholders followed by server `reinstate_files` restore, at each stream's index, a file with the same bytes, and leave the other string arguments as sent |
| `Client.NonStringBesideStreamFails` | krpc/krpc.py:184-185 | a positional argument that is neither a string nor a stream makes the server's `reinstate_files` fail, on any posted form, with or without streams beside it |
| `Client.ParseResult` | krpc/krpc.py:452-480 | every reply has its outcome: invalid JSON raises 10002 with the parser's text; a `result` key gives its value; else an `error` object with `code` and `message` raises them with `info` (or `None`), except that a falsy message with a list or dict code crashes in the table lookup, and any other `error` crashes; an object with neither key gives `None`; a list or string gives `None` when it holds neither key and crashes otherwise; anything else crashes |
| `Client.ReplyReachesClient` | krpc/krpc.py:475-480 | a JSON reply from the handler, read by `parse_result`, gives the result, or an exception with the server's code, the table message and the info (`None` when left out) |

## Left out

- HTTP and processes: `KHTTPServer`/`ForkingMixIn`, `do_GET`/`do_POST`, `cgi.FieldStorage`
  parsing, `KRPCServer` setup, `send_request` (urllib, urlencoding, headers) and `get_data`
  (temporary files). These are network, process and filesystem I/O. A posted form is a map from
  field names to one field or to the list of fields posted under that name, each with an
  optional file.
- JSON: `json.dumps`/`json.loads` are library code. The server writes JSON *values*. On the client,
  `dumps` is a parameter and `loads` arrives as an optional value (absent for `ValueError`).
- `traceback.format_exc()` is a fixed header line followed by a parameter. The `TypeError` text
  of a failed encode is a parameter.
- `time.time()`/`random.random()` in `generate_unique_name` are a `stamp` parameter per argument
  position. Their uniqueness is assumed where needed (`FreshStamps`).
- `mimetypes.guess_type` is a parameter giving the text that `%s` makes of its result.
- `os.stat(...).st_size` is taken to equal the number of bytes the stream yields. The close and
  reopen in `'rb'` mode are not modelled: the stream's bytes are its contents.
- Streams opened in text mode: `bytes(buf, "utf8")` on a `str` read is not modelled, so every
  stream yields bytes.
- `KRPCClientException.__str__` reads the never-set `self.msg` and always fails. It is not
  modelled.
- `parse_result`'s `data.decode("utf8")` is not modelled: the response is taken as decoded text.
- `Dispatch.ReinstateFiles`: non-empty dict params are excluded by its precondition. The dict
  branch iterates `params.values()` and unpacks each value as `k, v`, which does not substitute
  by key.
- `Dispatch.DecodeRequest`: same exclusion, for requests with a non-empty form.
- `Dispatch.Decode`: same exclusion, for requests with a non-empty form.
- `Dispatch.DecodeOkIff`: same exclusion, for requests with a non-empty form.
- `Dispatch.DecodeRaises`: same exclusion, for requests with a non-empty form.
- `RequestHandler.Handler.HandleRequest`: same exclusion, inherited from `decode_request`.
- `Client.RpcClient.Execute`: its precondition excludes keyword values that are two-item lists
  whose second item is a stream. On those, the source's unpacking loop would write a placeholder
  under the first item as a key. Other keyword values are modelled: a value that cannot be
  unpacked into two items is an error, and any other value is sent unchanged.
- `Client.RpcClient.Execute` uses the corrected length (`BuildMultipartBytes`) rather than the
  code-point count of the source (see Findings). Past this point the request is handed to
  `send_request`, which is not modelled.
- `Dispatch.Walk`: functions and data attributes are leaves without attributes of their own.
  Python's `getattr` also finds their methods (`"config.get"` reaches `dict.get` on a registered
  dict, `"echo.__call__"` the method's `__call__`), which the model reaches only when the object
  is modelled as a `Node`; otherwise such a path answers -32601.
- `Values.PyStr`: a list, dict or other object used as a method name gets a stand-in text rather
  than Python's `str`, so the dotted path resolved from it is not modelled (`str([1.5])` has one
  dot, the stand-in `"[...]"` three).
- `Dispatch.CallMethod`: a registered object counts as callable only when it is a function.
  Objects that define `__call__` are not modelled.
- `RequestHandler.HookRunsFirst`: registered callables are modelled as functions of their
  arguments, without state. In the source the hook and the method run on the same instance, so a
  hook may set state the method reads; the lemma's "same reply as without a hook" does not cover
  that.
- `Values.Falsy`: numbers are integers only, so floats (`0.0` is falsy) are not modelled. Other
  objects carry their truthiness as a flag rather than through `__bool__` or `__len__`.
- `Client.Chain`: its precondition `RemoteNames` keeps to names that reach `__getattr__`. A first
  segment that is one of the client's own attributes or methods (`files`, `execute`, ...), a later
  segment `name` or `client`, or any dunder name is found by ordinary lookup and gives that
  attribute instead of a remote method. Every dunder name is excluded, even those `object` does
  not define.
- `Client.ChainName`: same precondition, for the same reason.
- `Client.ChainReachesMethod`: same precondition, for the same reason.
- `Client.EveryPathIsAChain`: same precondition, for the same reason.
- `Errors.DefaultMessage`: its precondition excludes list and dict codes. For those the lookup
  raises `TypeError`, which `Client.ParseResult` models as a crash.
- `Errors.NewClientException`: its precondition excludes a falsy message with a list or dict
  code, for the same `TypeError`, again modelled by `Client.ParseResult` as a crash.
- Streams: the client takes any object with a `read` attribute for a stream (`hasattr`), the
  server only an `io.IOBase` instance (`isinstance`). Both are the one `Stream` case, so an object
  that has `read` without being an `io.IOBase` is not modelled.
- `Client.ParseResult`: `"key" in data` for a JSON list or string is modelled. For other
  non-object values the `TypeError` is a crash outcome without further detail.

## Findings

| source | as written | input that shows it | evidently intended | confidence | as-written member | corrected member |
|---|---|---|---|---|---|---|
| krpc/krpc.py:522-541 | `build_multipart` adds up `len` of each header text, which counts code points, while `body_generator` yields those texts as UTF-8 bytes | one file whose base name is `é`, with ASCII JSON, placeholder and content type: the declared Content-Length is one byte shorter than the body | the Content-Length equals the number of bytes sent | not executed | `Multipart.NonAsciiNameMiscounts` | `Client.RpcClient.BuildMultipartBytes` |
