/**
 * The client side: `KRPCClientMethod` name chaining, `KRPCClient.execute` (placeholders for
 * streams, the request envelope, plain or multipart payload), the multipart framer and
 * `parse_result`.
 */
module Client {
  import opened Wrappers
  import opened Text
  import opened Values
  import opened Errors
  import opened Streams
  import opened Multipart
  import D = Dispatch
  import RH = RequestHandler

  // ---------------------------------------------------------------- KRPCClientMethod

  /** A remote method name under construction: `client.a.b.c` names `"a.b.c"`. */
  datatype ClientMethod = ClientMethod(name: string) {
    /**
     * `__getattr__`: one more segment, joined with a dot. A dot-free segment is exactly one more
     * piece of the name the server splits.
     */
    function Attr(segment: string): (m: ClientMethod)
      ensures m.name == name + "." + segment
      ensures '.' !in segment ==> Split(m.name, '.') == Split(name, '.') + [segment]
    {
      SplitSnoc(name, segment, '.');
      ClientMethod(name + "." + segment)
    }
  }

  /** The attributes and methods a `KRPCClient` instance has of its own. */
  const CLIENT_ATTRIBUTES: set<string> := {
    "MULTIPART_BOUNDARY", "server_name", "server_port", "files", "pre_method_hook_params",
    "execute", "get_data", "send_request", "parse_result", "generate_unique_name",
    "body_generator", "build_multipart", "set_pre_method_hook_params"}

  /** The attributes a `KRPCClientMethod` instance has of its own. */
  const METHOD_ATTRIBUTES: set<string> := {"client", "name"}

  /** `__x__`: every such name is taken to be found without `__getattr__` (`object` defines many). */
  predicate IsDunder(s: string) {
    |s| >= 4 && s[..2] == "__" && s[|s| - 2..] == "__"
  }

  /**
   * Python calls `__getattr__` only for a name ordinary lookup does not find: the first segment
   * must not be one of the client's own attributes, each later one not one of the method object's.
   */
  predicate RemoteNames(segs: seq<string>) {
    && |segs| >= 1
    && segs[0] !in CLIENT_ATTRIBUTES && !IsDunder(segs[0])
    && forall i :: 1 <= i < |segs| ==> segs[i] !in METHOD_ATTRIBUTES && !IsDunder(segs[i])
  }

  /**
   * `client.s0.s1...sn`: `KRPCClient.__getattr__` for the first segment, then `Attr` for each next
   * one. The server's `split('.')` of the name gives back dot-free segments.
   */
  function Chain(segs: seq<string>): (m: ClientMethod)
    requires RemoteNames(segs)
    ensures (forall i :: 0 <= i < |segs| ==> '.' !in segs[i]) ==> Split(m.name, '.') == segs
  {
    if |segs| == 1 then
      SplitNoSeparatorIf(segs[0], '.');
      ClientMethod(segs[0])
    else
      var front := segs[..|segs| - 1];
      assert front + [segs[|segs| - 1]] == segs;
      assert RemoteNames(front) by {
        assert forall i :: 1 <= i < |front| ==> front[i] == segs[i];
      }
      Chain(front).Attr(segs[|segs| - 1])
  }

  lemma {:induction false} JoinSnoc(a: seq<string>, x: string)
    requires |a| >= 1
    ensures Join(a + [x], '.') == Join(a, '.') + "." + x
  {
    if |a| > 1 {
      assert (a + [x])[1..] == a[1..] + [x];
      JoinSnoc(a[1..], x);
    }
  }

  /** The chained name is the segments joined with dots. */
  lemma {:induction false} ChainName(segs: seq<string>)
    requires RemoteNames(segs)
    ensures Chain(segs).name == Join(segs, '.')
  {
    if |segs| > 1 {
      var front := segs[..|segs| - 1];
      assert RemoteNames(front) by {
        assert forall i :: 1 <= i < |front| ==> front[i] == segs[i];
      }
      ChainName(front);
      JoinSnoc(front, segs[|segs| - 1]);
      assert front + [segs[|segs| - 1]] == segs;
    }
  }

  /** The server resolves a chained name by following exactly the chained segments. */
  lemma ChainReachesMethod(root: D.Target, segs: seq<string>)
    requires RemoteNames(segs)
    requires forall i :: 0 <= i < |segs| ==> '.' !in segs[i]
    ensures FindMethodOf(root, Chain(segs)) == D.Walk(root, segs)
  {
    ChainName(segs);
    D.FindMethodJoin(root, segs);
  }

  /**
   * Every method path the server resolves can be named from the client: chaining the pieces of
   * its `split('.')` gives back the path itself.
   */
  lemma EveryPathIsAChain(root: D.Target, path: string)
    requires RemoteNames(Split(path, '.'))
    ensures Chain(Split(path, '.')).name == path
    ensures FindMethodOf(root, Chain(Split(path, '.'))) == D.FindMethod(root, path)
  {
    ChainName(Split(path, '.'));
    JoinSplit(path, '.');
  }

  function FindMethodOf(root: D.Target, m: ClientMethod): Option<D.Target> {
    D.FindMethod(root, m.name)
  }

  // ---------------------------------------------------------------- placeholders and the file table

  /** `generate_unique_name`; `stamp` stands for the `"<time>-<random>"` text of that call. */
  function UniqueName(stamp: string): string {
    D.FILE_PREFIX + stamp
  }

  /** The name carries the placeholder prefix the server looks for, followed by the stamp. */
  lemma UniqueNameShape(stamp: string)
    ensures StartsWith(UniqueName(stamp), D.FILE_PREFIX)
    ensures UniqueName(stamp)[|D.FILE_PREFIX|..] == stamp
  {
  }

  lemma UniqueNameInjective(s: string, t: string)
    requires UniqueName(s) == UniqueName(t)
    ensures s == t
  {
    UniqueNameShape(s);
    UniqueNameShape(t);
  }

  /** `self.files[name] = f`: replaces the entry of an existing key in place, appends a new key. */
  function Put(table: seq<Part>, name: string, f: FileObj): seq<Part> {
    if table == [] then [Part(name, f)]
    else if table[0].name == name then [Part(name, f)] + table[1..]
    else [table[0]] + Put(table[1..], name, f)
  }

  /** `self.files.get(name)`. */
  function Lookup(table: seq<Part>, name: string): Option<FileObj> {
    if table == [] then None
    else if table[0].name == name then Some(table[0].file)
    else Lookup(table[1..], name)
  }

  /** The keys of the table. */
  function Keys(table: seq<Part>): set<string> {
    if table == [] then {} else {table[0].name} + Keys(table[1..])
  }

  /** No key occurs twice, as in a dictionary. */
  predicate DistinctNames(table: seq<Part>) {
    table == [] || (table[0].name !in Keys(table[1..]) && DistinctNames(table[1..]))
  }

  lemma {:induction false} PutLookup(table: seq<Part>, name: string, f: FileObj, other: string)
    ensures Lookup(Put(table, name, f), other) == if other == name then Some(f) else Lookup(table, other)
  {
    if table != [] && table[0].name != name {
      PutLookup(table[1..], name, f, other);
    }
  }

  lemma {:induction false} LookupFound(table: seq<Part>, name: string)
    requires Lookup(table, name).Some?
    ensures exists j :: 0 <= j < |table| && table[j] == Part(name, Lookup(table, name).value)
  {
    if table[0].name != name {
      LookupFound(table[1..], name);
      var j :| 0 <= j < |table[1..]| && table[1..][j] == Part(name, Lookup(table, name).value);
      assert table[j + 1] == table[1..][j];
    }
  }

  /** `Put` adds its key to the keys and keeps them distinct. */
  lemma {:induction false} PutKeys(table: seq<Part>, name: string, f: FileObj)
    ensures Keys(Put(table, name, f)) == Keys(table) + {name}
    ensures DistinctNames(table) ==> DistinctNames(Put(table, name, f))
  {
    if table != [] {
      if table[0].name == name {
        assert Put(table, name, f)[1..] == table[1..];
      } else {
        PutKeys(table[1..], name, f);
        assert Put(table, name, f)[1..] == Put(table[1..], name, f);
      }
    }
  }

  /** The argument list once the positional loop of `execute` has handled its first `k` items. */
  function SubstitutedUpTo(args: seq<Value>, k: nat, stamp: nat -> string): (r: seq<Value>)
    requires k <= |args|
    ensures |r| == |args|
  {
    if k == 0 then args
    else
      var l := SubstitutedUpTo(args, k - 1, stamp);
      if Readable(args[k - 1]) then l[k - 1 := Str(UniqueName(stamp(k - 1)))] else l
  }

  /** The argument list as sent: each stream replaced by the placeholder made for its position. */
  function Substituted(args: seq<Value>, stamp: nat -> string): seq<Value> {
    SubstitutedUpTo(args, |args|, stamp)
  }

  /** After `k` items, the streams among them carry placeholders and everything else is as given. */
  lemma {:induction false} SubstitutedUpToItems(args: seq<Value>, k: nat, stamp: nat -> string)
    requires k <= |args|
    ensures forall i :: 0 <= i < |args| ==>
      SubstitutedUpTo(args, k, stamp)[i] == if i < k && Readable(args[i]) then Str(UniqueName(stamp(i))) else args[i]
  {
    if k > 0 { SubstitutedUpToItems(args, k - 1, stamp); }
  }

  /** Position by position: a stream becomes its placeholder, anything else is sent as it was. */
  lemma SubstitutedItems(args: seq<Value>, stamp: nat -> string)
    ensures |Substituted(args, stamp)| == |args|
    ensures forall i :: 0 <= i < |args| ==>
      Substituted(args, stamp)[i] == if Readable(args[i]) then Str(UniqueName(stamp(i))) else args[i]
  {
    SubstitutedUpToItems(args, |args|, stamp);
  }

  /** `self.files` once the positional loop has handled the first `k` arguments. */
  function TableUpTo(args: seq<Value>, k: nat, stamp: nat -> string): seq<Part>
    requires k <= |args|
  {
    if k == 0 then []
    else
      var t := TableUpTo(args, k - 1, stamp);
      if Readable(args[k - 1]) then Put(t, UniqueName(stamp(k - 1)), args[k - 1].file) else t
  }

  /** `self.files` after the positional loop of `execute`: one entry per stream, in argument order. */
  function FileTable(args: seq<Value>, stamp: nat -> string): seq<Part> {
    TableUpTo(args, |args|, stamp)
  }

  /** The stamps of distinct stream arguments differ (`time.time()` and `random.random()` do not repeat). */
  predicate FreshStamps(args: seq<Value>, stamp: nat -> string) {
    forall i, j :: 0 <= i < j < |args| && Readable(args[i]) && Readable(args[j]) ==> stamp(i) != stamp(j)
  }

  /** With fresh stamps, every stream argument handled so far is found in the table under its placeholder. */
  lemma {:induction false} FileTableLookup(args: seq<Value>, stamp: nat -> string, k: nat, i: nat)
    requires FreshStamps(args, stamp)
    requires i < k <= |args| && Readable(args[i])
    ensures Lookup(TableUpTo(args, k, stamp), UniqueName(stamp(i))) == Some(args[i].file)
  {
    var n := k - 1;
    if Readable(args[n]) {
      PutLookup(TableUpTo(args, n, stamp), UniqueName(stamp(n)), args[n].file, UniqueName(stamp(i)));
    }
    if i < n {
      UniqueNameShape(stamp(i));
      UniqueNameShape(stamp(n));
      FileTableLookup(args, stamp, n, i);
    }
  }

  /** The file table has one entry per key, as a dictionary does, and every key is a placeholder. */
  lemma {:induction false} FileTableKeys(args: seq<Value>, stamp: nat -> string, k: nat)
    requires k <= |args|
    ensures DistinctNames(TableUpTo(args, k, stamp))
    ensures forall key :: key in Keys(TableUpTo(args, k, stamp)) ==> StartsWith(key, D.FILE_PREFIX)
  {
    if k > 0 {
      var n := k - 1;
      FileTableKeys(args, stamp, n);
      if Readable(args[n]) {
        UniqueNameShape(stamp(n));
        PutKeys(TableUpTo(args, n, stamp), UniqueName(stamp(n)), args[n].file);
      }
    }
  }

  // ---------------------------------------------------------------- execute

  /** Whether `k, v = value` succeeds: strings, lists, dicts and files of exactly two items/lines. */
  predicate Unpacks(v: Value) {
    match v
    case Str(s) => |s| == 2
    case Arr(xs) => |xs| == 2
    case Obj(m) => |m| == 2
    case Stream(f) => LineCount(f.contents) == 2
    case _ => false
  }

  function Newlines(data: seq<bv8>): nat {
    if data == [] then 0 else (if data[0] == 10 then 1 else 0) + Newlines(data[1..])
  }

  /** The lines a file yields when iterated: one per newline, plus an unterminated last one. */
  function LineCount(data: seq<bv8>): nat {
    if data == [] then 0 else if data[|data| - 1] == 10 then Newlines(data) else Newlines(data) + 1
  }

  /** The `params` value `execute` puts in the envelope. */
  function ParamsSent(args: seq<Value>, kwargs: map<string, Value>, stamp: nat -> string): Value {
    if |args| > 0 then Arr(Substituted(args, stamp))
    else if kwargs != map[] then Obj(kwargs)
    else Arr([])
  }

  /** The request `execute` encodes: the method name, its parameters and the hook parameters. */
  function Envelope(methodName: string, params: Value, pmhParams: Value): (e: Value)
    ensures e.Obj? && e.fields.Keys == {"method", "params", "pmhparams"}
    ensures e.fields["method"] == Str(methodName) && e.fields["params"] == params
    ensures e.fields["pmhparams"] == pmhParams
  {
    Obj(map["method" := Str(methodName), "params" := params, "pmhparams" := pmhParams])
  }

  /** What `execute` hands to `send_request`: the JSON text alone, or a multipart body and its length. */
  datatype Payload = Form(json: string) | MultipartForm(contentLength: int, chunks: seq<seq<bv8>>)

  datatype Request = Request(envelope: Value, payload: Payload)

  /** Exceptions `execute` raises before anything is sent. */
  datatype ExecError =
    | UnpackError   // a keyword argument value that `k, v = value` cannot unpack
    | EncodeError   // `json.dumps` of the envelope raised `TypeError`

  class RpcClient {
    const serverName: string
    const serverPort: int
    /** `self.files`: placeholder name to stream, in insertion order. */
    var files: seq<Part>
    /** `self.pre_method_hook_params`. */
    var pmhParams: Value

    /**
     * `KRPCClient(server_name, server_port)`. The source starts `self.files` at `None`; the empty
     * table stands for it, since every `execute` replaces the table before reading it.
     */
    constructor (serverName: string, serverPort: int)
      ensures this.serverName == serverName && this.serverPort == serverPort
      ensures files == [] && pmhParams == Null
    {
      this.serverName := serverName;
      this.serverPort := serverPort;
      files := [];
      pmhParams := Null;
    }

    method SetPreMethodHookParams(params: Value)
      modifies this`pmhParams
      ensures pmhParams == params
    {
      pmhParams := params;
    }

    /**
     * `execute(method_name, *args, **kwargs)` up to the point where the request is sent.
     * `stamp(k)` is the unique text made for the stream at position `k`, `dumps` is `json.dumps`
     * of a serialisable value and `guess` the mimetypes guess.
     */
    method Execute(methodName: string, args: seq<Value>, kwargs: map<string, Value>,
                   stamp: nat -> string, dumps: Value -> string, guess: Guess)
      returns (r: Result<Request, ExecError>)
      requires forall k :: k in kwargs ==> !(kwargs[k].Arr? && |kwargs[k].items| == 2 && Readable(kwargs[k].items[1]))
      modifies this`files
      ensures files == if |args| > 0 then FileTable(args, stamp) else []
      // the `k, v` unpacking of a keyword value raises before anything is encoded
      ensures |args| == 0 && (exists k :: k in kwargs && !Unpacks(kwargs[k])) ==> r == Err(UnpackError)
      ensures var env := Envelope(methodName, ParamsSent(args, kwargs, stamp), pmhParams);
        && (r.Err? <==> (|args| == 0 && (exists k :: k in kwargs && !Unpacks(kwargs[k]))) || !Serializable(env))
        && (r.Err? && r.error == EncodeError ==> !Serializable(env))
        && (r.Err? && r.error == UnpackError ==> |args| == 0 && (exists k :: k in kwargs && !Unpacks(kwargs[k])))
        && (!(|args| == 0 && (exists k :: k in kwargs && !Unpacks(kwargs[k]))) && Serializable(env) ==> r.Ok?)
        && (r.Ok? ==> r.value.envelope == env)
        && (r.Ok? && files == [] ==> r.value.payload == Form(dumps(env)))
        && (r.Ok? && files != [] ==>
              && r.value.payload.MultipartForm?
              && r.value.payload.chunks == Body(dumps(env), files, guess)
              && r.value.payload.contentLength == TotalLength(r.value.payload.chunks))
    {
      files := [];
      var params: Value := Arr([]);
      if |args| > 0 {
        var table, list := RegisterStreams(args, stamp);
        files := table;
        params := Arr(list);
      } else if kwargs != map[] {
        if exists k :: k in kwargs && !Unpacks(kwargs[k]) {
          return Err(UnpackError);
        }
        params := Obj(kwargs);
      }
      var env := Envelope(methodName, params, pmhParams);
      if !Serializable(env) {
        return Err(EncodeError);
      }
      var json := dumps(env);
      if |files| > 0 {
        var cl, chunks := BuildMultipartBytes(json, guess);
        r := Ok(Request(env, MultipartForm(cl, chunks)));
      } else {
        r := Ok(Request(env, Form(json)));
      }
    }

    /** The positional loop of `execute`: each stream gets a placeholder and an entry in `files`. */
    static method RegisterStreams(args: seq<Value>, stamp: nat -> string) returns (table: seq<Part>, list: seq<Value>)
      ensures table == FileTable(args, stamp) && list == Substituted(args, stamp)
      ensures |list| == |args|
      ensures forall i :: 0 <= i < |args| ==>
        list[i] == if Readable(args[i]) then Str(UniqueName(stamp(i))) else args[i]
      ensures DistinctNames(table)
    {
      list := args;
      table := [];
      var k := 0;
      while k < |args|
        invariant 0 <= k <= |args|
        invariant table == TableUpTo(args, k, stamp)
        invariant list == SubstitutedUpTo(args, k, stamp)
      {
        var arg := args[k];
        if Readable(arg) {
          var uname := UniqueName(stamp(k));
          table := Put(table, uname, arg.file);
          list := list[k := Str(uname)];
        }
        k := k + 1;
      }
      SubstitutedItems(args, stamp);
      FileTableKeys(args, stamp, |args|);
    }

    /** `body_generator(params_json)`: every chunk it yields, in order. */
    method BodyGenerator(paramsJson: string, guess: Guess) returns (chunks: seq<seq<bv8>>)
      ensures chunks == Body(paramsJson, files, guess)
    {
      var table := files;
      var head := Utf8(JsonPart(paramsJson));
      chunks := [head];
      var i := 0;
      while i < |table|
        invariant 0 <= i <= |table|
        invariant chunks == [head] + FileChunks(table[..i], guess)
      {
        var p := table[i];
        var read := ReadChunks(p.file.contents);
        var part := [Utf8(FileHead(p, guess))] + read + [Utf8(CRLF)];
        TakeOneMore(table, i);
        FileChunksSnoc(table[..i], p, guess);
        AppendAssoc([head], FileChunks(table[..i], guess), part);
        chunks := chunks + part;
        i := i + 1;
      }
      assert table[..i] == table;
      chunks := chunks + [Utf8(CLOSING)];
    }

    /** The `stream.read(CHUNK_SIZE)` loop: every non-empty read, in order. */
    static method ReadChunks(data: seq<bv8>) returns (chunks: seq<seq<bv8>>)
      ensures chunks == Chunks(data)
    {
      chunks := [];
      var pos := 0;
      while pos < |data|
        invariant 0 <= pos <= |data|
        invariant chunks + Chunks(data[pos..]) == Chunks(data)
        decreases |data| - pos
      {
        var n := if |data| - pos <= CHUNK_SIZE then |data| else pos + CHUNK_SIZE;
        ChunksStep(data, pos);
        chunks := chunks + [data[pos..n]];
        pos := n;
      }
      assert data[pos..] == [];
    }

    /** `build_multipart(params_json)` as written: Python `len` of each header text, i.e. code points. */
    method BuildMultipart(paramsJson: string, guess: Guess) returns (cl: int, chunks: seq<seq<bv8>>)
      ensures cl == CodePointLength(paramsJson, files, guess)
      ensures chunks == Body(paramsJson, files, guess)
    {
      cl := |BOUNDARY_LINE|;
      cl := cl + |JSON_DISPOSITION|;
      cl := cl + |paramsJson + CRLF|;
      var i := 0;
      while i < |files|
        invariant 0 <= i <= |files|
        invariant CodePointLength(paramsJson, files, guess) == cl + FilesCodePoints(files[i..], guess) + |CLOSING|
      {
        assert files[i..][1..] == files[i + 1..];
        var fname := Basename(files[i].file.name);
        cl := cl + |BOUNDARY_LINE|;
        cl := cl + |Disposition(files[i].name, fname)|;
        cl := cl + |ContentTypeLine(guess(fname))|;
        cl := cl + |files[i].file.contents|;
        cl := cl + |CRLF|;
        i := i + 1;
      }
      assert files[i..] == [];
      cl := cl + |CLOSING|;
      chunks := BodyGenerator(paramsJson, guess);
    }

    /** `build_multipart` counting the UTF-8 bytes of each header text: always the body's length. */
    method BuildMultipartBytes(paramsJson: string, guess: Guess) returns (cl: int, chunks: seq<seq<bv8>>)
      ensures chunks == Body(paramsJson, files, guess)
      ensures cl == TotalLength(chunks)
    {
      cl := |Utf8(JsonPart(paramsJson))|;
      var i := 0;
      while i < |files|
        invariant 0 <= i <= |files|
        invariant ByteLength(paramsJson, files, guess) == cl + FilesBytes(files[i..], guess) + |Utf8(CLOSING)|
      {
        assert files[i..][1..] == files[i + 1..];
        cl := cl + |Utf8(FileHead(files[i], guess))|;
        cl := cl + |files[i].file.contents|;
        cl := cl + |Utf8(CRLF)|;
        i := i + 1;
      }
      assert files[i..] == [];
      cl := cl + |Utf8(CLOSING)|;
      chunks := BodyGenerator(paramsJson, guess);
      ByteLengthIsBodyLength(paramsJson, files, guess);
    }
  }

  // ---------------------------------------------------------------- placeholders reach the server

  /** The form the server parses holds, under each placeholder, a file with the same bytes. */
  predicate FormCarries(form: D.Form, table: seq<Part>) {
    forall j :: 0 <= j < |table| ==>
      D.GetFile(form, table[j].name).Some? && D.GetFile(form, table[j].name).value.contents == table[j].file.contents
  }

  /**
   * The placeholder round trip: when every other argument is a string that does not look like a
   * placeholder, `reinstate_files` on the server puts back, at each stream's position, a file with
   * that stream's bytes, and leaves every other argument as it was.
   */
  lemma PlaceholdersReinstated(args: seq<Value>, stamp: nat -> string, form: D.Form)
    requires FreshStamps(args, stamp)
    requires forall i :: 0 <= i < |args| && !Readable(args[i]) ==> args[i].Str? && !StartsWith(args[i].s, D.FILE_PREFIX)
    requires FormCarries(form, FileTable(args, stamp))
    ensures var r := D.ReinstateList(Substituted(args, stamp), form);
      && r.Ok? && |r.value| == |args|
      && forall i :: 0 <= i < |args| ==>
           if Readable(args[i]) then r.value[i].Stream? && r.value[i].file.contents == args[i].file.contents
           else r.value[i] == args[i]
  {
    var xs := Substituted(args, stamp);
    var t := FileTable(args, stamp);
    SubstitutedItems(args, stamp);
    forall i | 0 <= i < |args| && Readable(args[i])
      ensures D.GetFile(form, xs[i].s).Some? && D.GetFile(form, xs[i].s).value.contents == args[i].file.contents
    {
      FileTableLookup(args, stamp, |args|, i);
      LookupFound(t, UniqueName(stamp(i)));
    }
    D.ReinstateListOk(xs, form);
  }

  /** Without a form, the server's `decode_request` reads back exactly what the envelope carries. */
  lemma EnvelopeReachesServer(methodName: string, params: Value, pmhParams: Value)
    ensures D.Decode(Some(Envelope(methodName, params, pmhParams)), None)
         == Ok(D.RequestArgs(methodName, params, pmhParams))
  {
  }

  /**
   * The request round trip of a positional call posted with its files: the server decodes the
   * method name and hook parameters as sent, and gets back every argument, each stream as a file
   * with that stream's bytes.
   */
  lemma RequestReachesServer(methodName: string, args: seq<Value>, stamp: nat -> string,
                             pmhParams: Value, form: D.Form)
    requires FreshStamps(args, stamp)
    requires forall i :: 0 <= i < |args| && !Readable(args[i]) ==> args[i].Str? && !StartsWith(args[i].s, D.FILE_PREFIX)
    requires form != map[] && FormCarries(form, FileTable(args, stamp))
    ensures var r := D.Decode(Some(Envelope(methodName, ParamsSent(args, map[], stamp), pmhParams)), Some(form));
      && r.Ok? && r.value.methodName == methodName && r.value.pmhParams == pmhParams
      && r.value.params.Arr? && |r.value.params.items| == |args|
      && forall i :: 0 <= i < |args| ==>
           if Readable(args[i]) then
             r.value.params.items[i].Stream? && r.value.params.items[i].file.contents == args[i].file.contents
           else r.value.params.items[i] == args[i]
  {
    PlaceholdersReinstated(args, stamp, form);
    if |args| == 0 {
      assert Substituted(args, stamp) == [];
    }
  }

  /** A non-string argument beside a stream makes `reinstate_files` fail on the server. */
  lemma NonStringBesideStreamFails(args: seq<Value>, stamp: nat -> string, form: D.Form, i: nat)
    requires i < |args| && !Readable(args[i]) && !args[i].Str?
    ensures D.ReinstateList(Substituted(args, stamp), form).Err?
  {
    SubstitutedItems(args, stamp);
    D.ReinstateListOk(Substituted(args, stamp), form);
  }

  // ---------------------------------------------------------------- parse_result

  /** How `parse_result` ends: a value, a raised `KRPCClientException`, or another exception. */
  datatype Parsed = Answered(v: Value) | ClientError(e: ClientException) | Crashed

  /** Python `t in s` for strings. */
  predicate ContainsText(s: string, t: string)
    decreases |s|
  {
    t <= s || (s != [] && ContainsText(s[1..], t))
  }

  /** `"key" in data` for the non-dict values `json.loads` can give; `None` marks a `TypeError`. */
  function Membership(data: Value, key: string): Option<bool> {
    match data
    case Arr(xs) => Some(Str(key) in xs)
    case Str(s) => Some(ContainsText(s, key))
    case _ => None
  }

  /**
   * `parse_result`: `loaded` is what `json.loads` made of the response (`None` when it raised
   * `ValueError`, whose text is `parseError`).
   */
  function ParseResult(loaded: Option<Value>, parseError: string): (p: Parsed)
    ensures loaded.None? ==>
      p == ClientError(ClientException(Num(ERR_JSON_PARSE), Str(MESSAGES[ERR_JSON_PARSE]), Str(parseError)))
    ensures loaded.Some? && loaded.value.Obj? && "result" in loaded.value.fields ==>
      p == Answered(loaded.value.fields["result"])
    ensures p.ClientError? && loaded.Some? ==>
      && loaded.value.Obj? && "result" !in loaded.value.fields && "error" in loaded.value.fields
      && var err := loaded.value.fields["error"];
         err.Obj? && "code" in err.fields && "message" in err.fields
         && (Falsy(err.fields["message"]) ==> Hashable(err.fields["code"]))
         && p.e == NewClientException(err.fields["code"], err.fields["message"], Get(err.fields, "info"))
    ensures p.Answered? && loaded.Some? && !(loaded.value.Obj? && "result" in loaded.value.fields) ==> p.v == Null
    // an object with neither key answers `None`
    ensures loaded.Some? && loaded.value.Obj? && "result" !in loaded.value.fields && "error" !in loaded.value.fields ==>
      p == Answered(Null)
    // an `error` object with a code and a message raises them, unless a falsy message sends a list
    // or dict code to the table lookup (`TypeError`); any other `error` value crashes
    ensures loaded.Some? && loaded.value.Obj? && "result" !in loaded.value.fields && "error" in loaded.value.fields ==>
      var err := loaded.value.fields["error"];
      if err.Obj? && "code" in err.fields && "message" in err.fields
         && (Falsy(err.fields["message"]) ==> Hashable(err.fields["code"]))
      then p == ClientError(NewClientException(err.fields["code"], err.fields["message"], Get(err.fields, "info")))
      else p == Crashed
    // a list or a string answers `None` when it holds neither key; any other reply crashes
    ensures loaded.Some? && !loaded.value.Obj? ==>
      if Membership(loaded.value, "result") == Some(false) && Membership(loaded.value, "error") == Some(false)
      then p == Answered(Null)
      else p == Crashed
  {
    match loaded
    case None => ClientError(NewClientException(Num(ERR_JSON_PARSE), Null, Str(parseError)))
    case Some(data) =>
      if data.Obj? then
        var m := data.fields;
        if "result" in m then Answered(m["result"])
        else if "error" in m then
          var err := m["error"];
          if err.Obj? && "code" in err.fields && "message" in err.fields
             && (Falsy(err.fields["message"]) ==> Hashable(err.fields["code"])) then
            ClientError(NewClientException(err.fields["code"], err.fields["message"], Get(err.fields, "info")))
          else Crashed
        else Answered(Null)
      else match Membership(data, "result")
        case None => Crashed
        case Some(hasResult) =>
          if hasResult || Membership(data, "error") == Some(true) then Crashed else Answered(Null)
  }

  /**
   * Server reply to client outcome: a JSON reply written by the handler, read back by
   * `parse_result`, gives the result itself, or a client exception carrying the server's code, the
   * table's message and the info (`None` when the server left it out).
   */
  lemma ReplyReachesClient(reply: RH.Reply, typeError: string)
    requires reply.Failure? ==> reply.code in MESSAGES
    requires !(reply.Success? && reply.v.Stream?)
    ensures var events := RH.ReplyEvents(reply, typeError);
      var last := events[|events| - 1];
      && last.Json?
      && var p := ParseResult(Some(last.v), "");
         && (reply.Success? && Serializable(reply.v) ==> p == Answered(reply.v))
         && (reply.Success? && !Serializable(reply.v) ==>
               p == ClientError(ClientException(Num(ERR_SRV_JSON_ENCODING), Str(MESSAGES[ERR_SRV_JSON_ENCODING]),
                                                if typeError != "" then Str(typeError) else Null)))
         && (reply.Failure? ==>
               p == ClientError(ClientException(Num(reply.code), Str(MESSAGES[reply.code]),
                                                if reply.info.Some? && reply.info.value != "" then Str(reply.info.value) else Null)))
  {
    var events := RH.ReplyEvents(reply, typeError);
    if reply.Success? && Serializable(reply.v) {
      assert events[|events| - 1] == RH.Json(Obj(map["result" := reply.v]));
    } else {
      var code := if reply.Success? then ERR_SRV_JSON_ENCODING else reply.code;
      var info := if reply.Success? then Some(typeError) else reply.info;
      var env := RH.ErrorEnvelope(code, info);
      assert events[|events| - 1] == RH.Json(env);
      var err := env.fields["error"].fields;
      assert "result" !in env.fields;
      assert DefaultMessage(Num(code)) == MESSAGES[code];
    }
  }
}
