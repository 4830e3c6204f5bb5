/**
 The wire protocol: JSON values, the members of a frame that the sidecar reads or writes, the
 method names and error codes, and the library functions that are taken as given.
 */
module Protocol {
  import opened Basics

  /**
   A JavaScript value as JSON sees it: NaN is null, and so is an infinity. A number is an integer or
   the fraction m / 2^e in lowest terms. Foreign stands for what JSON.stringify refuses (BigInt,
   cycles).
   */
  datatype Json =
    | Null
    | Bool(b: bool)
    | Num(n: int)
    | Frac(m: int, e: nat)
    | Str(s: string)
    | Arr(items: seq<Json>)
    | Dict(fields: map<string, Json>)
    | Foreign(tag: int)

  /**
   A value that exists in JavaScript and that JSON.stringify accepts: integers are taken up to
   Number.MAX_SAFE_INTEGER, fractions are those with a double of their own.
   */
  ghost predicate Plain(j: Json) {
    match j
    case Num(n) => -MAX_MANTISSA <= n <= MAX_MANTISSA
    case Frac(m, e) => m % 2 == 1 && -MAX_MANTISSA <= m <= MAX_MANTISSA && 1 <= e <= 1074
    case Arr(items) => forall x :: x in items ==> Plain(x)
    case Dict(fields) => forall k :: k in fields ==> Plain(fields[k])
    case Foreign(_) => false
    case _ => true
  }

  /** Property access on a value that may not be an object. */
  function Get(j: Json, key: string): Option<Json> {
    if j.Dict? && key in j.fields then Some(j.fields[key]) else None
  }

  /** A frame: which of the JSON-RPC members the object owns, and their values. */
  datatype Frame = Frame(
    id: Option<Json>, methodName: Option<Json>, params: Option<Json>,
    result: Option<Json>, error: Option<Json>)

  /** What JSON.parse returns: null, an object, or something that has none of the members above. */
  datatype Value = NullValue | Object(frame: Frame) | Scalar(json: Json)

  /** The library functions the sidecar relies on; number is Number(), None when it gives no integer. */
  datatype Lib = Lib(
    encode: Frame -> Option<string>,
    decode: string -> Option<Value>,
    number: Json -> Option<int>)

  /** The white space that String.prototype.trim removes. */
  predicate IsSpace(c: char) {
    || '\t' <= c <= '\r'
    || c == ' ' || c == '\U{00A0}' || c == '\U{1680}'
    || '\U{2000}' <= c <= '\U{200A}'
    || c == '\U{2028}' || c == '\U{2029}' || c == '\U{202F}' || c == '\U{205F}'
    || c == '\U{3000}' || c == '\U{FEFF}'
  }

  predicate Blank(s: string) {
    forall i :: 0 <= i < |s| ==> IsSpace(s[i])
  }

  ghost predicate PlainFrame(f: Frame) {
    && (f.id.Some? ==> Plain(f.id.value))
    && (f.methodName.Some? ==> Plain(f.methodName.value))
    && (f.params.Some? ==> Plain(f.params.value))
    && (f.result.Some? ==> Plain(f.result.value))
    && (f.error.Some? ==> Plain(f.error.value))
  }

  /**
   RFC 8259: what can be encoded is encoded on one line and decodes to itself, every plain frame can
   be encoded, and white space is no JSON text. Module Coding has a library that satisfies this.
   */
  ghost predicate Lawful(lib: Lib) {
    && (forall f :: lib.encode(f).Some? ==>
          && '\n' !in lib.encode(f).value
          && (lib.encode(f).value != [] ==> lib.encode(f).value[|lib.encode(f).value| - 1] != '\r')
          && lib.decode(lib.encode(f).value) == Some(Object(f)))
    && (forall f {:trigger PlainFrame(f)} :: PlainFrame(f) ==> lib.encode(f).Some?)
    && (forall s {:trigger Blank(s)} :: Blank(s) ==> lib.decode(s) == None)
  }

  const MAX_MANTISSA := 0x1f_ffff_ffff_ffff

  const SESSION_CREATE := "session.create"
  const SESSION_SEND := "session.send"
  const SESSION_CONTROL := "session.control"
  const SESSION_RESUME := "session.resume"
  const SESSION_CLOSE := "session.close"
  const PING := "ping"
  const SHUTDOWN := "shutdown"

  const ERROR_METHOD_NOT_FOUND := -32601
  const ERROR_INVALID_PARAMS := -32602
  const ERROR_INTERNAL := -32603
  const ERROR_SESSION_UNKNOWN := -32001
  const ERROR_CONTROL_FAILED := -32003
  const ERROR_PUMP := -32010

  function Request(id: int, methodName: string, params: Json): Frame {
    Frame(Some(Num(id)), Some(Str(methodName)), Some(params), None, None)
  }

  function Reply(id: Json, result: Json): Frame {
    Frame(Some(id), None, None, Some(result), None)
  }

  function ErrorReply(id: Json, error: Json): Frame {
    Frame(Some(id), None, None, None, Some(error))
  }

  function Notification(methodName: string, params: Json): Frame {
    Frame(None, Some(Str(methodName)), Some(params), None, None)
  }
}
