/**
 * The record access gateway (`QueryRecordService`): the request each operation
 * sends, how a successful reply is post-processed, and how a failure is turned
 * into one error message. The HTTP transport is not modelled: each operation
 * takes the reply to its request as a parameter, so every function here is total.
 */
module QueryRecordService {
  import opened Wrappers
  import opened Strings
  import opened Query

  /** The API root every request is addressed to. */
  const BaseUrl: string := "https://fantastic-space-succotash-6746996vqw724jr4-8085.app.github.dev/api"

  datatype Verb = Get | Post | Patch

  /** A request body: none, the raw query text, or the JSON object `{status: s}`. */
  datatype Body = NoBody | PlainText(text: string) | StatusJson(status: string)

  datatype Request = Request(verb: Verb, url: string, body: Body)

  /**
   * What `catchError` receives when a call fails: the `ErrorEvent` message when the
   * failure happened in the browser, the HTTP status (`None` where the error object
   * has no `status` at all, which JavaScript prints as `undefined`), and the error's
   * own `message`.
   */
  datatype HttpFailure = HttpFailure(clientEvent: Option<string>, status: Option<int>, message: string)

  /**
   * The reply to one request, after the call's `timeout` operator: a value, or a
   * failure. A reply later than the deadline arrives here as a failure.
   */
  datatype HttpOutcome<+T> = Reply(value: T) | Fail(failure: HttpFailure)

  /** The JavaScript `Error` an operation's observable errors with. */
  datatype JsError = JsError(message: string)

  /** One gateway operation: the request it sends and the value or error its observable emits. */
  datatype Call<+T> = Call(request: Request, result: Result<T, JsError>)

  /**
   * The error `timeout` raises when the deadline passes: an rxjs `TimeoutError`
   * carries neither an `ErrorEvent` nor a `status`.
   */
  const TimeoutFailure: HttpFailure := HttpFailure(None, None, "Timeout has occurred")

  /** The message categories `handleError` distinguishes. */
  datatype ErrorKind =
    | ClientSide(detail: string)
    | Unreachable
    | ResourceNotFound
    | InternalError
    | OtherStatus(status: Option<int>, message: string)

  /**
   * The classification in `handleError`, checked in this order: a client-side
   * `ErrorEvent`, then status 0, 404 (section 15.5.5 of RFC 9110), 500 (section
   * 15.6.1 of RFC 9110), and everything else.
   */
  function Classify(f: HttpFailure): (k: ErrorKind)
    ensures k.ClientSide? <==> f.clientEvent.Some?
    ensures k.ClientSide? ==> k.detail == f.clientEvent.value
    ensures k.Unreachable? <==> f.clientEvent.None? && f.status == Some(0)
    ensures k.ResourceNotFound? <==> f.clientEvent.None? && f.status == Some(404)
    ensures k.InternalError? <==> f.clientEvent.None? && f.status == Some(500)
    ensures k.OtherStatus? <==> f.clientEvent.None? && f.status != Some(0) && f.status != Some(404) && f.status != Some(500)
    ensures k.OtherStatus? ==> k.status == f.status && k.message == f.message
  {
    if f.clientEvent.Some? then ClientSide(f.clientEvent.value)
    else if f.status == Some(0) then Unreachable
    else if f.status == Some(404) then ResourceNotFound
    else if f.status == Some(500) then InternalError
    else OtherStatus(f.status, f.message)
  }

  const ClientPrefix: string := "Error del cliente: "
  // The connection message, written as two literals (one per sentence): the category
  // lemmas below read single characters of it, which the verifier does only for a
  // short literal free of accented letters.
  const ConnectionMessage: string := "No se pudo conectar con el servidor." + " Por favor, verifique su conexión."
  const NotFoundMessage: string := "El recurso solicitado no fue encontrado."
  const InternalMessage: string := "Error interno del servidor."
  const ServerPrefix: string := "Error del servidor: "

  /** `${error.status}`: the number, or `undefined` when there is none. */
  function StatusText(status: Option<int>): string {
    match status
    case None => "undefined"
    case Some(n) => IntToString(n)
  }

  /** The tag of a category, without its data. */
  datatype Category = ClientCategory | ConnectionCategory | NotFoundCategory | InternalCategory | ServerCategory

  function CategoryOf(k: ErrorKind): Category {
    match k
    case ClientSide(_) => ClientCategory
    case Unreachable => ConnectionCategory
    case ResourceNotFound => NotFoundCategory
    case InternalError => InternalCategory
    case OtherStatus(_, _) => ServerCategory
  }

  /** Recovers the category from a message text, as a reader of the message would. */
  function ReadCategory(message: string): Option<Category> {
    if StartsWith(message, ClientPrefix) then Some(ClientCategory)
    else if message == ConnectionMessage then Some(ConnectionCategory)
    else if message == NotFoundMessage then Some(NotFoundCategory)
    else if message == InternalMessage then Some(InternalCategory)
    else if StartsWith(message, ServerPrefix) then Some(ServerCategory)
    else None
  }

  /** The message text of each category. */
  function Describe(k: ErrorKind): string {
    match k
    case ClientSide(detail) => ClientPrefix + detail
    case Unreachable => ConnectionMessage
    case ResourceNotFound => NotFoundMessage
    case InternalError => InternalMessage
    case OtherStatus(status, message) => ServerPrefix + StatusText(status) + ", mensaje: " + message
  }

  /** `handleError`: every failure becomes an error, never a value. */
  function HandleError<T>(f: HttpFailure): (r: Result<T, JsError>)
    ensures r.Failure?
    ensures r.error.message == Describe(Classify(f))
  {
    Failure(JsError(Describe(Classify(f))))
  }

  /** Distinct categories give distinguishable messages: the text names its category. */
  lemma DescribeRevealsCategory(k: ErrorKind)
    ensures ReadCategory(Describe(k)) == Some(CategoryOf(k))
  {
    if k.ClientSide? {
      ClientMessageCategory(k);
    } else if k.OtherStatus? {
      ServerMessageCategory(k);
    } else {
      FixedMessageCategories(k);
    }
  }

  lemma ClientMessageCategory(k: ErrorKind)
    requires k.ClientSide?
    ensures ReadCategory(Describe(k)) == Some(ClientCategory)
  {
  }

  lemma FixedMessageCategories(k: ErrorKind)
    requires k.Unreachable? || k.ResourceNotFound? || k.InternalError?
    ensures ReadCategory(Describe(k)) == Some(CategoryOf(k))
  {
    assert ConnectionMessage[0] == 'N' && ConnectionMessage[1] == 'o';
    assert NotFoundMessage[1] == 'l' && InternalMessage[6] == 'i';
    assert ClientPrefix[0] == 'E' && ClientPrefix[1] == 'r' && ClientPrefix[6] == 'd';
  }

  lemma ServerMessageCategory(k: ErrorKind)
    requires k.OtherStatus?
    ensures ReadCategory(Describe(k)) == Some(ServerCategory)
  {
    var rest := StatusText(k.status) + ", mensaje: " + k.message;
    assert Describe(k) == ServerPrefix + rest;
    ServerPrefixCategory(rest);
  }

  lemma ServerPrefixCategory(rest: string)
    ensures ReadCategory(ServerPrefix + rest) == Some(ServerCategory)
  {
    var m := ServerPrefix + rest;
    assert m[..|ServerPrefix|] == ServerPrefix;
    assert m[0] == 'E' && m[1] == 'r' && m[6] == 'd' && m[10] == 's';
    assert ClientPrefix[10] == 'c' && ConnectionMessage[0] == 'N';
    assert NotFoundMessage[1] == 'l' && InternalMessage[6] == 'i';
  }

  /** A timeout is not a category of its own: it lands in the generic server branch. */
  lemma TimeoutIsGenericServerError()
    ensures Classify(TimeoutFailure) == OtherStatus(None, "Timeout has occurred")
    ensures HandleError<bool>(TimeoutFailure).error.message
         == ServerPrefix + "undefined, mensaje: Timeout has occurred"
  {
  }

  /** `processQueryRecord`: a missing or empty status becomes `'A'`; every other field is kept. */
  function ProcessQueryRecord(r: QueryRecord): (p: QueryRecord)
    ensures IsNormalized(p)
    ensures p.id == r.id && p.query == r.query && p.response == r.response && p.timestamp == r.timestamp
    ensures IsNormalized(r) ==> p.status == r.status
    ensures !IsNormalized(r) ==> HasStatus(p, "A")
  {
    r.(status := if IsNormalized(r) then r.status else Some("A"))
  }

  /** Normalizing a list twice is normalizing it once. */
  lemma NormalizeAllIdempotent(rs: seq<QueryRecord>)
    ensures NormalizeAll(NormalizeAll(rs)) == NormalizeAll(rs)
  {
  }

  /** Normalizing twice is normalizing once. */
  lemma ProcessIdempotent(r: QueryRecord)
    ensures ProcessQueryRecord(ProcessQueryRecord(r)) == ProcessQueryRecord(r)
  {
  }

  /** `records.map(record => this.processQueryRecord(record))`. */
  function NormalizeAll(rs: seq<QueryRecord>): (ns: seq<QueryRecord>)
    ensures |ns| == |rs|
    ensures forall x :: x in ns ==> IsNormalized(x)
    ensures forall i :: 0 <= i < |rs| ==> ns[i].id == rs[i].id && ns[i].query == rs[i].query
    ensures forall i :: 0 <= i < |rs| ==> ns[i].response == rs[i].response && ns[i].timestamp == rs[i].timestamp
    ensures forall i :: 0 <= i < |rs| && IsNormalized(rs[i]) ==> ns[i] == rs[i]
    ensures forall i :: 0 <= i < |rs| && !IsNormalized(rs[i]) ==> HasStatus(ns[i], "A")
  {
    seq(|rs|, i requires 0 <= i < |rs| => ProcessQueryRecord(rs[i]))
  }

  /** The reply to a call that answers with one record: normalized, or the handled error. */
  function RecordResult(reply: HttpOutcome<QueryRecord>): Result<QueryRecord, JsError> {
    match reply
    case Reply(record) => Success(ProcessQueryRecord(record))
    case Fail(f) => HandleError(f)
  }

  function RecordsUrl(): string {
    BaseUrl + "/query-records"
  }

  function StatusUrl(id: string): string {
    RecordsUrl() + "/" + id + "/status"
  }

  /** `executeQuery`: posts the raw text and emits the raw reply text. */
  function ExecuteQuery(query: string, reply: HttpOutcome<string>): (c: Call<string>)
    ensures c.request == Request(Post, BaseUrl + "/groq/query", PlainText(query))
    ensures reply.Reply? ==> c.result == Success(reply.value)
    ensures reply.Fail? ==> c.result == HandleError(reply.failure)
  {
    Call(Request(Post, BaseUrl + "/groq/query", PlainText(query)),
      match reply
      case Reply(text) => Success(text)
      case Fail(f) => HandleError(f))
  }

  /** `executeQueryAndStore`: posts the raw text and emits the stored record, normalized. */
  function ExecuteQueryAndStore(query: string, reply: HttpOutcome<QueryRecord>): (c: Call<QueryRecord>)
    ensures c.request == Request(Post, BaseUrl + "/groq/query-and-store", PlainText(query))
    ensures c.result.Success? <==> reply.Reply?
    ensures reply.Reply? ==> c.result == Success(ProcessQueryRecord(reply.value))
    ensures reply.Fail? ==> c.result == HandleError(reply.failure)
  {
    Call(Request(Post, BaseUrl + "/groq/query-and-store", PlainText(query)), RecordResult(reply))
  }

  /**
   * `getAllQueryRecords`: the normalized records whose status is `'A'`, in the
   * server's order, each as often as the server sent it.
   */
  function GetAllQueryRecords(reply: HttpOutcome<seq<QueryRecord>>): (c: Call<seq<QueryRecord>>)
    ensures c.request == Request(Get, RecordsUrl(), NoBody)
    ensures reply.Fail? ==> c.result == HandleError(reply.failure)
    ensures reply.Reply? ==> c.result.Success?
    ensures reply.Reply? ==> forall r :: r in c.result.value ==> HasStatus(r, "A")
    ensures reply.Reply? ==> forall r :: r in c.result.value <==> r in NormalizeAll(reply.value) && HasStatus(r, "A")
    ensures reply.Reply? ==>
      forall r :: multiset(c.result.value)[r] == if HasStatus(r, "A") then multiset(NormalizeAll(reply.value))[r] else 0
    ensures reply.Reply? ==> IsSubsequence(c.result.value, NormalizeAll(reply.value))
  {
    Call(Request(Get, RecordsUrl(), NoBody),
      match reply
      case Reply(records) => Success(WithStatus(NormalizeAll(records), "A"))
      case Fail(f) => HandleError(f))
  }

  /** `getAllQueryRecordsIncludingInactive`: every record, normalized, in the server's order. */
  function GetAllQueryRecordsIncludingInactive(reply: HttpOutcome<seq<QueryRecord>>): (c: Call<seq<QueryRecord>>)
    ensures c.request == Request(Get, RecordsUrl() + "/all", NoBody)
    ensures reply.Fail? ==> c.result == HandleError(reply.failure)
    ensures reply.Reply? ==> c.result.Success? && |c.result.value| == |reply.value|
    ensures reply.Reply? ==> forall i :: 0 <= i < |reply.value| ==> c.result.value[i] == ProcessQueryRecord(reply.value[i])
  {
    Call(Request(Get, RecordsUrl() + "/all", NoBody),
      match reply
      case Reply(records) => Success(NormalizeAll(records))
      case Fail(f) => HandleError(f))
  }

  /** `getQueryRecordById`: the normalized record when it is active, and `null` otherwise. */
  function GetQueryRecordById(id: string, reply: HttpOutcome<QueryRecord>): (c: Call<Option<QueryRecord>>)
    ensures c.request == Request(Get, RecordsUrl() + "/" + id, NoBody)
    ensures reply.Fail? ==> c.result == HandleError(reply.failure)
    ensures reply.Reply? ==> c.result.Success?
    ensures reply.Reply? ==> (c.result.value.Some? <==> HasStatus(ProcessQueryRecord(reply.value), "A"))
    ensures reply.Reply? && c.result.value.Some? ==> c.result.value.value == ProcessQueryRecord(reply.value)
  {
    Call(Request(Get, RecordsUrl() + "/" + id, NoBody),
      match reply
      case Reply(record) =>
        var processed := ProcessQueryRecord(record);
        Success(if HasStatus(processed, "A") then Some(processed) else None)
      case Fail(f) => HandleError(f))
  }

  /** `softDeleteQueryRecord`: PATCH `{status: 'I'}`. */
  function SoftDeleteQueryRecord(id: string, reply: HttpOutcome<QueryRecord>): (c: Call<QueryRecord>)
    ensures c.request == Request(Patch, BaseUrl + "/query-records/" + id + "/status", StatusJson("I"))
    ensures reply.Reply? ==> c.result == Success(ProcessQueryRecord(reply.value))
    ensures reply.Fail? ==> c.result == HandleError(reply.failure)
  {
    Call(Request(Patch, StatusUrl(id), StatusJson("I")), RecordResult(reply))
  }

  /** `restoreQueryRecord`: PATCH `{status: 'A'}`. */
  function RestoreQueryRecord(id: string, reply: HttpOutcome<QueryRecord>): (c: Call<QueryRecord>)
    ensures c.request == Request(Patch, BaseUrl + "/query-records/" + id + "/status", StatusJson("A"))
    ensures reply.Reply? ==> c.result == Success(ProcessQueryRecord(reply.value))
    ensures reply.Fail? ==> c.result == HandleError(reply.failure)
  {
    Call(Request(Patch, StatusUrl(id), StatusJson("A")), RecordResult(reply))
  }

  /** `toggleStatus(id, newStatus)`: PATCH `{status: newStatus}`. */
  function ToggleStatus(id: string, newStatus: StatusCode, reply: HttpOutcome<QueryRecord>): (c: Call<QueryRecord>)
    ensures c.request == Request(Patch, BaseUrl + "/query-records/" + id + "/status", StatusJson(newStatus.Code()))
    ensures reply.Reply? ==> c.result == Success(ProcessQueryRecord(reply.value))
    ensures reply.Fail? ==> c.result == HandleError(reply.failure)
  {
    Call(Request(Patch, StatusUrl(id), StatusJson(newStatus.Code())), RecordResult(reply))
  }

  /**
   * The three status updates address the same URL with the same verb and treat the
   * reply alike; only the status in the body differs. So `toggleStatus(id, 'I')` is
   * soft-delete and `toggleStatus(id, 'A')` is restore.
   */
  lemma StatusUpdatesDifferOnlyInBody(id: string, reply: HttpOutcome<QueryRecord>)
    ensures ToggleStatus(id, Inactive, reply) == SoftDeleteQueryRecord(id, reply)
    ensures ToggleStatus(id, Active, reply) == RestoreQueryRecord(id, reply)
    ensures SoftDeleteQueryRecord(id, reply).request.body == StatusJson("I")
    ensures RestoreQueryRecord(id, reply).request.body == StatusJson("A")
    ensures SoftDeleteQueryRecord(id, reply).request.(body := NoBody)
         == RestoreQueryRecord(id, reply).request.(body := NoBody)
    ensures SoftDeleteQueryRecord(id, reply).result == RestoreQueryRecord(id, reply).result
    ensures SoftDeleteQueryRecord(id, reply).request.url == BaseUrl + "/query-records/" + id + "/status"
  {
  }

  const ConnectionCheckMessage: string := "Error de conexión con el servidor"

  /** `checkServerConnection`: any reply means `true`; every failure is one and the same error. */
  function CheckServerConnection<T>(reply: HttpOutcome<T>): (c: Call<bool>)
    ensures c.request == Request(Get, BaseUrl + "/health-check", NoBody)
    ensures reply.Reply? <==> c.result == Success(true)
    ensures reply.Fail? <==> c.result == Failure(JsError(ConnectionCheckMessage))
  {
    Call(Request(Get, BaseUrl + "/health-check", NoBody),
      if reply.Reply? then Success(true) else Failure(JsError(ConnectionCheckMessage)))
  }
}
