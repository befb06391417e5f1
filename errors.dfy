/** The error table shared by client and server, and the client-side exception built from it. */
module Errors {
  import opened Values

  // Server errors fixed by section 5.1 of the JSON-RPC 2.0 specification.
  const ERR_SRV_INVALID_REQUEST: int := -32600
  const ERR_SRV_JSON_DECODING: int := -32700
  const ERR_SRV_METHOD_NOT_FOUND: int := -32601
  // Server errors in the block reserved for implementations (-32000 .. -32099).
  const ERR_SRV_METHOD_EXCEPTION: int := -32000
  const ERR_SRV_UNHANDLED_EXCEPTION: int := -32001
  const ERR_SRV_MISSING_FILE_OBJECT: int := -32002
  const ERR_SRV_JSON_ENCODING: int := -32003
  // Client errors.
  const ERR_REQUEST: int := 10000
  const ERR_CONNECTION_REFUSED: int := 10001
  const ERR_JSON_PARSE: int := 10002

  /** `KRPCClientException.MESSAGES`. */
  const MESSAGES: map<int, string> := map[
    ERR_SRV_INVALID_REQUEST := "Invalid request.",
    ERR_SRV_JSON_DECODING := "Parse error.",
    ERR_SRV_METHOD_NOT_FOUND := "Method not found.",
    ERR_SRV_METHOD_EXCEPTION := "Method call raised an exception.",
    ERR_SRV_UNHANDLED_EXCEPTION := "Unhandled exception.",
    ERR_SRV_MISSING_FILE_OBJECT := "Missing file object.",
    ERR_SRV_JSON_ENCODING := "Object is not JSON serializable.",
    ERR_REQUEST := "Request error",
    ERR_CONNECTION_REFUSED := "Connection refused",
    ERR_JSON_PARSE := "Error parsing JSON"
  ]

  /** The codes the server may put in an error envelope: JSON-RPC's own, or its reserved block. */
  predicate IsServerCode(code: int) {
    code == ERR_SRV_INVALID_REQUEST || code == ERR_SRV_JSON_DECODING ||
    code == ERR_SRV_METHOD_NOT_FOUND || -32099 <= code <= -32000
  }

  /** The client codes live in a range of their own, disjoint from every server code. */
  predicate IsClientCode(code: int) {
    code >= 10000
  }

  /**
   * `MESSAGES.get(code, "")` for the code of a client exception. Only an integer can match a key
   * (Python's `True` hashes as 1, which is not a key either). A list or dict code makes the lookup
   * raise `TypeError`, so the code must be hashable.
   */
  function DefaultMessage(code: Value): (m: string)
    requires Hashable(code)
    ensures code.Num? && code.n in MESSAGES ==> m == MESSAGES[code.n] && m != ""
    ensures !(code.Num? && code.n in MESSAGES) ==> m == ""
    ensures m != "" ==> IsServerCode(code.n) != IsClientCode(code.n)
  {
    if code.Num? && code.n in MESSAGES then MESSAGES[code.n] else ""
  }

  /** A raised `KRPCClientException`: code, message and info as the constructor stores them. */
  datatype ClientException = ClientException(code: Value, message: Value, info: Value)

  /**
   * `KRPCClientException(code, msg, info)`: a falsy message is replaced by the table's default, so
   * an exception whose code is in the table always carries a message. The default is looked up
   * only for a falsy message, and that lookup raises `TypeError` for an unhashable code.
   */
  function NewClientException(code: Value, msg: Value, info: Value): (e: ClientException)
    requires Falsy(msg) ==> Hashable(code)
    ensures e.code == code && e.info == info
    ensures !Falsy(msg) ==> e.message == msg
    ensures Falsy(msg) ==> e.message == Str(DefaultMessage(code))
    ensures code.Num? && code.n in MESSAGES ==> !Falsy(e.message)
    ensures Falsy(e.message) ==> e.message == Str("") && !(code.Num? && code.n in MESSAGES)
  {
    ClientException(code, if Falsy(msg) then Str(DefaultMessage(code)) else msg, info)
  }
}
