/**
 * The `multipart/form-data` body the client sends when a call carries files (RFC 7578, with the
 * boundary delimiters of section 5.1.1 of RFC 2046): one `json` part, one part per file, then the
 * closing delimiter. Chunks are given as the byte strings `body_generator` yields.
 */
module Multipart {
  import opened Text
  import opened Values
  import opened Streams

  /** `KRPCClient.MULTIPART_BOUNDARY`. */
  const MULTIPART_BOUNDARY: string := "-----KrOnOsThEwIzArD"

  const BOUNDARY_LINE: string := "--" + MULTIPART_BOUNDARY + CRLF
  const JSON_DISPOSITION: string := "Content-Disposition: form-data; name=\"json\"" + CRLF + CRLF
  const CLOSING: string := "--" + MULTIPART_BOUNDARY + "--" + CRLF + CRLF

  /** One entry of the client's file table: the placeholder name and the stream it stands for. */
  datatype Part = Part(name: string, file: FileObj)

  /** The file-name guess of the `mimetypes` module, as the text that `%s` makes of it. */
  type Guess = string -> string

  const DISPOSITION_OPEN: string := "Content-Disposition: form-data; name=\""
  const DISPOSITION_MID: string := "\"; filename=\""
  const DISPOSITION_CLOSE: string := "\"" + CRLF
  const CONTENT_TYPE_OPEN: string := "Content-Type: "

  function Disposition(uname: string, fname: string): string {
    DISPOSITION_OPEN + uname + DISPOSITION_MID + fname + DISPOSITION_CLOSE
  }

  function ContentTypeLine(contentType: string): string {
    CONTENT_TYPE_OPEN + contentType + CRLF + CRLF
  }

  /** The text of the first chunk: delimiter, `name="json"` header, blank line, the JSON, CRLF. */
  function JsonPart(paramsJson: string): string {
    BOUNDARY_LINE + JSON_DISPOSITION + paramsJson + CRLF
  }

  /** The text of a file part's header chunk: delimiter, disposition line, content-type line. */
  function FileHead(p: Part, guess: Guess): string {
    var fname := Basename(p.file.name);
    BOUNDARY_LINE + DISPOSITION_OPEN + p.name + DISPOSITION_MID + fname + DISPOSITION_CLOSE + ContentTypeLine(guess(fname))
  }

  /** The chunks of one file part: header, the file read `CHUNK_SIZE` bytes at a time, CRLF. */
  function PartChunks(p: Part, guess: Guess): seq<seq<bv8>> {
    [Utf8(FileHead(p, guess))] + Chunks(p.file.contents) + [Utf8(CRLF)]
  }

  function FileChunks(files: seq<Part>, guess: Guess): seq<seq<bv8>> {
    if files == [] then [] else PartChunks(files[0], guess) + FileChunks(files[1..], guess)
  }

  lemma {:induction false} FileChunksAppend(a: seq<Part>, b: seq<Part>, guess: Guess)
    ensures FileChunks(a + b, guess) == FileChunks(a, guess) + FileChunks(b, guess)
  {
    if a == [] {
      EmptyAppend(a, b);
      EmptyAppend(FileChunks(a, guess), FileChunks(b, guess));
    } else {
      DropAppend(a, b);
      FileChunksAppend(a[1..], b, guess);
      AppendAssoc(PartChunks(a[0], guess), FileChunks(a[1..], guess), FileChunks(b, guess));
    }
  }

  lemma FileChunksSnoc(a: seq<Part>, p: Part, guess: Guess)
    ensures FileChunks(a + [p], guess) == FileChunks(a, guess) + PartChunks(p, guess)
  {
    FileChunksAppend(a, [p], guess);
    assert [p][1..] == [];
    AppendEmpty(PartChunks(p, guess));
  }

  /** Everything `body_generator(params_json)` yields for the file table `files`. */
  function Body(paramsJson: string, files: seq<Part>, guess: Guess): seq<seq<bv8>> {
    [Utf8(JsonPart(paramsJson))] + FileChunks(files, guess) + [Utf8(CLOSING)]
  }

  // ---------------------------------------------------------------- the two ways of counting

  /** What `build_multipart` adds up for one file: `len` of each header text, the file size, CRLF. */
  function PartCodePoints(p: Part, guess: Guess): int {
    var fname := Basename(p.file.name);
    |BOUNDARY_LINE| + |Disposition(p.name, fname)| + |ContentTypeLine(guess(fname))| + |p.file.contents| + |CRLF|
  }

  function FilesCodePoints(files: seq<Part>, guess: Guess): int {
    if files == [] then 0 else PartCodePoints(files[0], guess) + FilesCodePoints(files[1..], guess)
  }

  /** The Content-Length `build_multipart` returns: Python `len` of each text, i.e. code points. */
  function CodePointLength(paramsJson: string, files: seq<Part>, guess: Guess): int {
    |BOUNDARY_LINE| + |JSON_DISPOSITION| + |paramsJson + CRLF| + FilesCodePoints(files, guess) + |CLOSING|
  }

  /** The same sum taken over the encoded texts: `len(bytes(buf, "utf8"))` for each header. */
  function PartBytes(p: Part, guess: Guess): int {
    |Utf8(FileHead(p, guess))| + |p.file.contents| + |Utf8(CRLF)|
  }

  function FilesBytes(files: seq<Part>, guess: Guess): int {
    if files == [] then 0 else PartBytes(files[0], guess) + FilesBytes(files[1..], guess)
  }

  function ByteLength(paramsJson: string, files: seq<Part>, guess: Guess): int {
    |Utf8(JsonPart(paramsJson))| + FilesBytes(files, guess) + |Utf8(CLOSING)|
  }

  /** The header texts of one file part are ASCII: its placeholder, base name and guessed type. */
  predicate AsciiPart(p: Part, guess: Guess) {
    IsAscii(p.name) && IsAscii(Basename(p.file.name)) && IsAscii(guess(Basename(p.file.name)))
  }

  predicate AsciiParts(files: seq<Part>, guess: Guess) {
    files == [] || (AsciiPart(files[0], guess) && AsciiParts(files[1..], guess))
  }

  /** Every header text of the body is ASCII. */
  predicate AsciiHeaders(paramsJson: string, files: seq<Part>, guess: Guess) {
    IsAscii(paramsJson) && AsciiParts(files, guess)
  }

  // ---------------------------------------------------------------- lemmas

  lemma {:induction false} TotalLengthAppend(a: seq<seq<bv8>>, b: seq<seq<bv8>>)
    ensures TotalLength(a + b) == TotalLength(a) + TotalLength(b)
  {
    TotalLengthIsConcatLength(a + b);
    TotalLengthIsConcatLength(a);
    TotalLengthIsConcatLength(b);
    ConcatAppend(a, b);
  }

  lemma ChunksLength(data: seq<bv8>)
    ensures TotalLength(Chunks(data)) == |data|
  {
    TotalLengthIsConcatLength(Chunks(data));
    ChunksReassemble(data);
  }

  lemma PartChunksLength(p: Part, guess: Guess)
    ensures TotalLength(PartChunks(p, guess)) == PartBytes(p, guess)
  {
    TotalLengthAppend([Utf8(FileHead(p, guess))], Chunks(p.file.contents));
    TotalLengthAppend([Utf8(FileHead(p, guess))] + Chunks(p.file.contents), [Utf8(CRLF)]);
    ChunksLength(p.file.contents);
  }

  lemma {:induction false} FileChunksLength(files: seq<Part>, guess: Guess)
    ensures TotalLength(FileChunks(files, guess)) == FilesBytes(files, guess)
  {
    if files != [] {
      PartChunksLength(files[0], guess);
      FileChunksLength(files[1..], guess);
      TotalLengthAppend(PartChunks(files[0], guess), FileChunks(files[1..], guess));
    }
  }

  /** The byte count is exactly the number of bytes the generator yields, for every input. */
  lemma ByteLengthIsBodyLength(paramsJson: string, files: seq<Part>, guess: Guess)
    ensures ByteLength(paramsJson, files, guess) == TotalLength(Body(paramsJson, files, guess))
  {
    TotalLengthAppend([Utf8(JsonPart(paramsJson))], FileChunks(files, guess));
    TotalLengthAppend([Utf8(JsonPart(paramsJson))] + FileChunks(files, guess), [Utf8(CLOSING)]);
    FileChunksLength(files, guess);
  }

  lemma ShortLiteralsAscii()
    ensures IsAscii("--") && IsAscii(CRLF) && IsAscii("\"") && IsAscii(DISPOSITION_MID) && IsAscii(CONTENT_TYPE_OPEN)
  {
  }

  lemma BoundaryAscii()
    ensures IsAscii(MULTIPART_BOUNDARY)
  {
  }

  lemma JsonNameAscii()
    ensures IsAscii("Content-Disposition: form-data; name=\"json\"")
  {
  }

  lemma DispositionOpenAscii()
    ensures IsAscii(DISPOSITION_OPEN)
  {
  }

  /** The fixed header texts are ASCII. */
  lemma FixedTextsAscii()
    ensures IsAscii(CRLF) && IsAscii(BOUNDARY_LINE) && IsAscii(JSON_DISPOSITION) && IsAscii(CLOSING)
    ensures IsAscii(DISPOSITION_OPEN) && IsAscii(DISPOSITION_MID) && IsAscii(DISPOSITION_CLOSE)
    ensures IsAscii(CONTENT_TYPE_OPEN)
  {
    ShortLiteralsAscii();
    BoundaryAscii();
    JsonNameAscii();
    DispositionOpenAscii();
    var dashes := "--";
    AsciiAppend(dashes, MULTIPART_BOUNDARY);
    AsciiAppend(dashes + MULTIPART_BOUNDARY, CRLF);
    AsciiAppend(dashes + MULTIPART_BOUNDARY, dashes);
    AsciiAppend(dashes + MULTIPART_BOUNDARY + dashes, CRLF);
    AsciiAppend(dashes + MULTIPART_BOUNDARY + dashes + CRLF, CRLF);
    var json := "Content-Disposition: form-data; name=\"json\"";
    AsciiAppend(json, CRLF);
    AsciiAppend(json + CRLF, CRLF);
    AsciiAppend("\"", CRLF);
  }

  /** The header text of a file part: ASCII text around the base name, as long as the pieces counted for it. */
  lemma FileHeadShape(p: Part, guess: Guess)
    ensures var fname := Basename(p.file.name);
      var pre := BOUNDARY_LINE + DISPOSITION_OPEN + p.name + DISPOSITION_MID;
      && FileHead(p, guess) == pre + fname + DISPOSITION_CLOSE + ContentTypeLine(guess(fname))
      && |FileHead(p, guess)| == |BOUNDARY_LINE| + |Disposition(p.name, fname)| + |ContentTypeLine(guess(fname))|
      && (IsAscii(p.name) ==> IsAscii(pre))
      && (IsAscii(guess(fname)) ==> IsAscii(ContentTypeLine(guess(fname))))
  {
    var fname := Basename(p.file.name);
    var ctype := guess(fname);
    FixedTextsAscii();
    if IsAscii(p.name) {
      AsciiAppend(BOUNDARY_LINE, DISPOSITION_OPEN);
      AsciiAppend(BOUNDARY_LINE + DISPOSITION_OPEN, p.name);
      AsciiAppend(BOUNDARY_LINE + DISPOSITION_OPEN + p.name, DISPOSITION_MID);
    }
    if IsAscii(ctype) {
      AsciiAppend(CONTENT_TYPE_OPEN, ctype);
      AsciiAppend(CONTENT_TYPE_OPEN + ctype, CRLF);
      AsciiAppend(CONTENT_TYPE_OPEN + ctype + CRLF, CRLF);
    }
  }

  /** A file part's encoded header exceeds its code-point count by exactly the extra bytes of its base name. */
  lemma PartMiscount(p: Part, guess: Guess)
    requires IsAscii(p.name) && IsAscii(guess(Basename(p.file.name)))
    ensures var fname := Basename(p.file.name);
      PartCodePoints(p, guess) + (|Utf8(fname)| - |fname|) == PartBytes(p, guess)
  {
    var fname := Basename(p.file.name);
    var pre := BOUNDARY_LINE + DISPOSITION_OPEN + p.name + DISPOSITION_MID;
    var ctl := ContentTypeLine(guess(fname));
    FileHeadShape(p, guess);
    FixedTextsAscii();
    Utf8Append(pre, fname);
    Utf8Append(pre + fname, DISPOSITION_CLOSE);
    Utf8Append(pre + fname + DISPOSITION_CLOSE, ctl);
    Utf8Length(pre);
    Utf8Length(DISPOSITION_CLOSE);
    Utf8Length(ctl);
    Utf8Length(CRLF);
  }

  lemma {:induction false} AsciiFiles(files: seq<Part>, guess: Guess)
    requires AsciiParts(files, guess)
    ensures FilesCodePoints(files, guess) == FilesBytes(files, guess)
  {
    if files != [] {
      PartMiscount(files[0], guess);
      Utf8Length(Basename(files[0].file.name));
      AsciiFiles(files[1..], guess);
    }
  }

  /**
   * The headline property of `build_multipart`: when every header text is ASCII, the declared
   * length equals the total length of the chunks `body_generator` yields.
   */
  lemma DeclaredLengthMatchesBody(paramsJson: string, files: seq<Part>, guess: Guess)
    requires AsciiHeaders(paramsJson, files, guess)
    ensures CodePointLength(paramsJson, files, guess) == TotalLength(Body(paramsJson, files, guess))
  {
    AsciiFiles(files, guess);
    ByteLengthIsBodyLength(paramsJson, files, guess);
    LengthGap(paramsJson, files, guess);
  }

  /** With ASCII JSON, the two counts differ only in what they count for the file parts. */
  lemma LengthGap(paramsJson: string, files: seq<Part>, guess: Guess)
    requires IsAscii(paramsJson)
    ensures ByteLength(paramsJson, files, guess) - CodePointLength(paramsJson, files, guess)
         == FilesBytes(files, guess) - FilesCodePoints(files, guess)
  {
    JsonPartCount(paramsJson);
    FixedTextsAscii();
    Utf8Length(JsonPart(paramsJson));
    Utf8Length(CLOSING);
  }

  /** The `json` part's text: ASCII when the JSON is, and as long as the three pieces counted for it. */
  lemma JsonPartCount(paramsJson: string)
    ensures |JsonPart(paramsJson)| == |BOUNDARY_LINE| + |JSON_DISPOSITION| + |paramsJson + CRLF|
    ensures IsAscii(paramsJson) ==> IsAscii(JsonPart(paramsJson))
  {
    FixedTextsAscii();
    if IsAscii(paramsJson) {
      AsciiAppend(BOUNDARY_LINE, JSON_DISPOSITION);
      AsciiAppend(BOUNDARY_LINE + JSON_DISPOSITION, paramsJson);
      AsciiAppend(BOUNDARY_LINE + JSON_DISPOSITION + paramsJson, CRLF);
    }
  }

  /**
   * With ASCII placeholder, JSON and guessed type, the declared length of a one-file body falls
   * short by exactly the extra UTF-8 bytes of the file's base name.
   */
  lemma NameMiscount(paramsJson: string, p: Part, guess: Guess)
    requires IsAscii(paramsJson) && IsAscii(p.name) && IsAscii(guess(Basename(p.file.name)))
    ensures var fname := Basename(p.file.name);
      CodePointLength(paramsJson, [p], guess) + (|Utf8(fname)| - |fname|) == TotalLength(Body(paramsJson, [p], guess))
  {
    ByteLengthIsBodyLength(paramsJson, [p], guess);
    PartMiscount(p, guess);
    LengthGap(paramsJson, [p], guess);
    assert [p][1..] == [];
    assert FilesBytes([p], guess) == PartBytes(p, guess);
    assert FilesCodePoints([p], guess) == PartCodePoints(p, guess);
  }

  /** `é` is one code point, encoded in two bytes, and a base name of its own. */
  lemma AccentFacts()
    ensures Basename("é") == "é" && |"é"| == 1 && |Utf8("é")| == 2
  {
  }

  /** A file named `é`: the declared length is one byte short of the body. */
  lemma NonAsciiNameMiscounts(paramsJson: string, p: Part, guess: Guess)
    requires IsAscii(paramsJson) && IsAscii(p.name) && p.file.name == "é" && IsAscii(guess("é"))
    ensures CodePointLength(paramsJson, [p], guess) + 1 == TotalLength(Body(paramsJson, [p], guess))
  {
    AccentFacts();
    NameMiscount(paramsJson, p, guess);
  }

  // ---------------------------------------------------------------- framing

  /** The bytes of one part on the wire: header, the whole file, CRLF. */
  function PartWire(p: Part, guess: Guess): seq<bv8> {
    Utf8(FileHead(p, guess)) + p.file.contents + Utf8(CRLF)
  }

  function PartsWire(files: seq<Part>, guess: Guess): seq<bv8> {
    if files == [] then [] else PartWire(files[0], guess) + PartsWire(files[1..], guess)
  }

  lemma PartChunksWire(p: Part, guess: Guess)
    ensures Concat(PartChunks(p, guess)) == PartWire(p, guess)
  {
    FramedChunks(Utf8(FileHead(p, guess)), p.file.contents, Utf8(CRLF));
  }

  lemma {:induction false} FileChunksWire(files: seq<Part>, guess: Guess)
    ensures Concat(FileChunks(files, guess)) == PartsWire(files, guess)
  {
    if files != [] {
      PartChunksWire(files[0], guess);
      FileChunksWire(files[1..], guess);
      ConcatAppend(PartChunks(files[0], guess), FileChunks(files[1..], guess));
    }
  }

  /**
   * The body on the wire: the `json` part first, then each file's part in file-table order (its
   * bytes whole, followed by CRLF), then the closing delimiter.
   */
  lemma BodyFraming(paramsJson: string, files: seq<Part>, guess: Guess)
    ensures var body := Body(paramsJson, files, guess);
      && body[0] == Utf8(JsonPart(paramsJson))
      && body[|body| - 1] == Utf8(CLOSING)
      && Concat(body) == Utf8(JsonPart(paramsJson)) + PartsWire(files, guess) + Utf8(CLOSING)
  {
    FramedConcat(Utf8(JsonPart(paramsJson)), FileChunks(files, guess), Utf8(CLOSING));
    FileChunksWire(files, guess);
  }
}
