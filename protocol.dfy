/** The wire vocabulary of the mining protocol: JSON values, the error-code table,
    the error type with its three-element dump, and the shape check that turns a
    received line into a request. */
module Protocol {
  import opened Wrappers

  /** A JSON value as `JSON.parse` produces it. */
  datatype Json =
    | JNull
    | JBool(b: bool)
    | JNumber(n: real)
    | JString(s: string)
    | JArray(elems: seq<Json>)
    | JObject(fields: map<string, Json>)

  /** The names of the `ErrorCodes` enumeration. */
  datatype ErrorName =
    | Unknown
    | JobNotFound
    | DuplicateShare
    | LowDifficultyShare
    | UnauthorizedWorker
    | NotSubscribed

  /** `ErrorCodes[name]`. */
  function Code(name: ErrorName): (r: int)
    ensures 20 <= r <= 25
    ensures NameOfCode(r) == Some(name)
  {
    match name
    case Unknown => 20
    case JobNotFound => 21
    case DuplicateShare => 22
    case LowDifficultyShare => 23
    case UnauthorizedWorker => 24
    case NotSubscribed => 25
  }

  /** The reverse mapping a numeric TypeScript enumeration carries: `ErrorCodes[code]`. */
  function NameOfCode(code: int): (r: Option<ErrorName>)
    ensures r.Some? <==> 20 <= code <= 25
  {
    if code == 20 then Some(Unknown)
    else if code == 21 then Some(JobNotFound)
    else if code == 22 then Some(DuplicateShare)
    else if code == 23 then Some(LowDifficultyShare)
    else if code == 24 then Some(UnauthorizedWorker)
    else if code == 25 then Some(NotSubscribed)
    else None
  }

  /** The enumeration's key, which is also the error's message. */
  function Text(name: ErrorName): string
  {
    match name
    case Unknown => "unknown"
    case JobNotFound => "job-not-found"
    case DuplicateShare => "duplicate-share"
    case LowDifficultyShare => "low-difficulty-share"
    case UnauthorizedWorker => "unauthorized-worker"
    case NotSubscribed => "not-subscribed"
  }

  /** Every code in the table names exactly one error, and back. */
  lemma CodeRoundTrip(code: int)
    requires 20 <= code <= 25
    ensures Code(NameOfCode(code).value) == code
  {
  }

  /** A `StratumError`: its code, its message and the stack trace the runtime recorded. */
  datatype StratumError = StratumError(code: int, message: string, stack: Option<string>)

  /** `new StratumError(name)`; the stack trace is whatever the runtime captured. */
  function NewStratumError(name: ErrorName, stack: Option<string>): (e: StratumError)
    ensures e.code == Code(name) && e.message == Text(name) && e.stack == stack
    ensures NameOfCode(e.code) == Some(name)
  {
    StratumError(Code(name), Text(name), stack)
  }

  /** The error member of a response: code, human-readable message, trace or null. */
  type Dump = (int, string, Option<string>)

  /** `toDump()`: `[code, message, stack ?? null]`. */
  function ToDump(e: StratumError): (d: Dump)
    ensures d.0 == e.code && d.1 == e.message && d.2 == e.stack
  {
    (e.code, e.message, e.stack)
  }

  lemma DumpOfNamedError(name: ErrorName, stack: Option<string>)
    ensures ToDump(NewStratumError(name, stack)) == (Code(name), Text(name), stack)
  {
  }

  /** What an operation throws: a `StratumError` by name, or a plain `Error` with its message. */
  datatype Thrown = Raised(name: ErrorName) | Failed(message: string)

  /** `validateRequest`: `None` is the `TypeError` that reading `.id` of `null` raises
      (`typeof null` is `'object'`). */
  function ValidateRequest(v: Json): (r: Option<bool>)
    ensures r.None? <==> v.JNull?
    ensures r == Some(true) <==>
      && v.JObject?
      && "id" in v.fields && v.fields["id"].JNumber?
      && "method" in v.fields && v.fields["method"].JString?
      && "params" in v.fields && v.fields["params"].JArray?
  {
    match v
    case JNull => None
    case JObject(fields) =>
      Some(&& "id" in fields && fields["id"].JNumber?
           && "method" in fields && fields["method"].JString?
           && "params" in fields && fields["params"].JArray?)
    case JArray(_) => Some(false)
    case _ => Some(false)
  }

  /** A value that passed `validateRequest`. */
  predicate IsRequest(v: Json)
  {
    ValidateRequest(v) == Some(true)
  }

  function RequestId(v: Json): real
    requires IsRequest(v)
  {
    v.fields["id"].n
  }

  function Method(v: Json): string
    requires IsRequest(v)
  {
    v.fields["method"].s
  }

  function Params(v: Json): seq<Json>
    requires IsRequest(v)
  {
    v.fields["params"].elems
  }

  /** `parseMessage`: `parse` stands for `JSON.parse`, `None` for a `SyntaxError`.
      A parse failure, a failed check and a check that throws all give `undefined`;
      otherwise the parsed value itself is returned. */
  function ParseMessage(message: string, parse: string -> Option<Json>): (r: Option<Json>)
    ensures r.Some? <==> parse(message).Some? && IsRequest(parse(message).value)
    ensures r.Some? ==> r.value == parse(message).value
  {
    match parse(message)
    case None => None
    case Some(v) =>
      match ValidateRequest(v)
      case None => None
      case Some(ok) => if ok then Some(v) else None
  }

  /** A response envelope `{id, result, error}`. */
  datatype Response = Response(id: real, result: Json, error: Option<Dump>)

  /** The notifications the server pushes without a request. */
  datatype Event =
    | SetExtranonce(extranonce: string)
    | SetDifficulty(difficulty: real)
    | Notify(job: string, payload: string)
}
