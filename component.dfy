/**
 * The record presentation component (`QueryRecordsComponent`): the response-content
 * extractor, the table's search predicate, and the component's fields as they
 * change in the `next`, `error` and `complete` callbacks of one-shot gateway
 * calls. A successful call runs `next` and then `complete`; a failed call runs
 * `error` only.
 */
module QueryRecords {
  import opened Wrappers
  import opened Strings
  import opened Json
  import opened Query
  import opened QueryRecordService

  /** The table's status filter: one status code, or `'all'`. */
  datatype StatusFilter = Only(code: StatusCode) | All

  const LoadErrorPrefix: string := "Error al obtener los registros: "
  const QueryErrorPrefix: string := "Error al ejecutar la consulta: "
  const StoreErrorPrefix: string := "Error al ejecutar y almacenar la consulta: "

  /** `parsedResponse.choices[0].message`. */
  function MessageOf(root: Json): Access {
    Read(Read(Read(Found(root), Name("choices")), At(0)), Name("message"))
  }

  /** `choices[0].message` exists: the chain reaches a value that is not `null`. */
  predicate HasMessage(root: Json) {
    MessageOf(root).Found? && !MessageOf(root).value.JNull?
  }

  /**
   * `extractContent`: never throws. When the payload parses and `choices[0].message`
   * exists, gives its truthy string `content`, or `''` when `content` is falsy or
   * missing; when parsing fails or the path breaks, gives the payload unchanged.
   * `parse` is `JSON.parse`.
   */
  function ExtractContent(parse: string -> Option<Json>, response: string): (r: string)
    ensures parse(response).None? ==> r == response
    ensures parse(response).Some? && !HasMessage(parse(response).value) ==> r == response
    ensures parse(response).Some? && HasMessage(parse(response).value) ==>
      (var content := Lookup(MessageOf(parse(response).value).value, Name("content"));
       && (content.Found? && Truthy(content.value) && content.value.JString? ==> r == content.value.s)
       && (!(content.Found? && Truthy(content.value)) ==> r == ""))
  {
    match parse(response)
    case None => response
    case Some(root) =>
      match Read(MessageOf(root), Name("content"))
      case Threw => response
      case Undefined => ""
      case Found(content) =>
        if !Truthy(content) then ""
        else if content.JString? then content.s
        else response
  }

  /** The chat-completion payload `{"choices":[{"message":{"content": c}}]}`. */
  function ChatCompletion(content: string): Json {
    JObject(map["choices" := JArray([JObject(map["message" := JObject(map["content" := JString(content)])])])])
  }

  /** A chat-completion payload yields its content (`''` when the content is empty). */
  lemma ExtractsChatCompletion(parse: string -> Option<Json>, response: string, content: string)
    requires parse(response) == Some(ChatCompletion(content))
    ensures ExtractContent(parse, response) == content
  {
  }

  /** The record as the table shows it: `response` passed through the extractor, all else kept. */
  function ForDisplay(parse: string -> Option<Json>, r: QueryRecord): (d: QueryRecord)
    ensures d.id == r.id && d.query == r.query && d.timestamp == r.timestamp && d.status == r.status
    ensures d.response == ExtractContent(parse, r.response)
  {
    r.(response := ExtractContent(parse, r.response))
  }

  /** `data.map(record => ({...record, response: this.extractContent(record.response), ...}))`. */
  function ExtractAll(parse: string -> Option<Json>, rs: seq<QueryRecord>): (ds: seq<QueryRecord>)
    ensures |ds| == |rs|
    ensures forall i :: 0 <= i < |rs| ==> ds[i] == rs[i].(response := ExtractContent(parse, rs[i].response))
  {
    seq(|rs|, i requires 0 <= i < |rs| => ForDisplay(parse, rs[i]))
  }

  /** The gateway call `loadRecords` picks: every record for `'all'`, the active list otherwise. */
  function Fetch(filter: StatusFilter, reply: HttpOutcome<seq<QueryRecord>>): (c: Call<seq<QueryRecord>>)
    ensures c.request == Request(Get, if filter.All? then RecordsUrl() + "/all" else RecordsUrl(), NoBody)
    ensures c.result.Failure? <==> reply.Fail?
    ensures filter.Only? && c.result.Success? ==> forall r :: r in c.result.value ==> HasStatus(r, "A")
    ensures filter.Only? ==> c.result == GetAllQueryRecords(reply).result
    ensures filter.All? && c.result.Success? ==> |c.result.value| == |reply.value|
    ensures filter.All? && c.result.Success? ==>
      forall i :: 0 <= i < |reply.value| ==> c.result.value[i] == ProcessQueryRecord(reply.value[i])
  {
    if filter.All? then GetAllQueryRecordsIncludingInactive(reply) else GetAllQueryRecords(reply)
  }

  /**
   * What a load settles to: the gateway's records with their responses extracted,
   * then kept only if they have the filter's status; or the gateway's error.
   */
  function Loaded(filter: StatusFilter, parse: string -> Option<Json>, reply: HttpOutcome<seq<QueryRecord>>)
    : (r: Result<seq<QueryRecord>, JsError>)
    ensures r.Failure? <==> reply.Fail?
    ensures reply.Fail? ==> r == HandleError(reply.failure)
    ensures r.Success? ==> forall x :: x in r.value ==> IsNormalized(x)
    ensures r.Success? && filter.Only? ==> forall x :: x in r.value ==> HasStatus(x, filter.code.Code())
    ensures r.Success? && filter.All? ==> |r.value| == |reply.value|
    ensures r.Success? && filter.All? ==>
      forall i :: 0 <= i < |reply.value| ==> r.value[i] == ForDisplay(parse, ProcessQueryRecord(reply.value[i]))
  {
    match Fetch(filter, reply).result
    case Failure(e) => Failure(e)
    case Success(data) =>
      var records := ExtractAll(parse, data);
      assert forall x :: x in records ==> IsNormalized(x) by {
        forall x | x in records ensures IsNormalized(x) {
          var i :| 0 <= i < |records| && records[i] == x;
          assert data[i] in data;
        }
      }
      Success(if filter.All? then records else WithStatus(records, filter.code.Code()))
  }

  /** Every record of an extracted list has the status of the record it came from. */
  lemma ExtractAllKeepsStatus(parse: string -> Option<Json>, rs: seq<QueryRecord>, code: string)
    requires forall r :: r in rs ==> HasStatus(r, code)
    ensures forall x :: x in ExtractAll(parse, rs) ==> HasStatus(x, code)
  {
    var records := ExtractAll(parse, rs);
    forall x | x in records ensures HasStatus(x, code) {
      var i :| 0 <= i < |records| && records[i] == x;
      assert rs[i] in rs;
    }
  }

  /**
   * Under filter `'I'` a successful load always shows nothing: the active-records
   * call already dropped every record that is not `'A'`.
   */
  lemma LoadInactiveIsAlwaysEmpty(parse: string -> Option<Json>, reply: HttpOutcome<seq<QueryRecord>>)
    requires reply.Reply?
    ensures Loaded(Only(Inactive), parse, reply) == Success([])
  {
    var data := GetAllQueryRecords(reply).result.value;
    ExtractAllKeepsStatus(parse, data, "A");
    var records := ExtractAll(parse, data);
    var kept := WithStatus(records, "I");
    forall x ensures multiset(kept)[x] == 0 {
      if HasStatus(x, "I") {
        assert x !in records;
      }
    }
    assert multiset(kept) == multiset{};
  }

  /** Under filter `'A'` the component's own status filter is redundant: it keeps every record. */
  lemma LoadActiveFiltersOnce(parse: string -> Option<Json>, reply: HttpOutcome<seq<QueryRecord>>)
    requires reply.Reply?
    ensures Loaded(Only(Active), parse, reply)
         == Success(ExtractAll(parse, WithStatus(NormalizeAll(reply.value), "A")))
  {
    var data := GetAllQueryRecords(reply).result.value;
    ExtractAllKeepsStatus(parse, data, "A");
    WithStatusKeepsMatching(ExtractAll(parse, data), "A");
  }

  /** The table's `filterPredicate`: the lower-cased query or response includes the filter. */
  predicate Matches(r: QueryRecord, filter: string): (b: bool)
    ensures b <==> OccursIn(ToLower(r.query), filter) || OccursIn(ToLower(r.response), filter)
  {
    var inQuery := Contains(ToLower(r.query), filter);
    var inResponse := Contains(ToLower(r.response), filter);
    ContainsIffOccurs(ToLower(r.query), filter);
    ContainsIffOccurs(ToLower(r.response), filter);
    inQuery || inResponse
  }

  /** The filter `applyFilter` installs: the input trimmed and lower-cased. */
  function SearchKey(value: string): (key: string)
    ensures ToLower(key) == key
    ensures key == [] <==> IsBlank(value)
  {
    LowerIdempotent(Trim(value));
    ToLower(Trim(value))
  }

  /** The rows the table keeps for a filter: the matching records, in order. */
  function Search(rs: seq<QueryRecord>, filter: string): (shown: seq<QueryRecord>)
    ensures forall r :: r in shown <==> r in rs && Matches(r, filter)
    ensures forall r :: multiset(shown)[r] == if Matches(r, filter) then multiset(rs)[r] else 0
    ensures IsSubsequence(shown, rs)
    decreases |rs|
  {
    if rs == [] then []
    else
      assert rs == [rs[0]] + rs[1..];
      var rest := Search(rs[1..], filter);
      if Matches(rs[0], filter) then
        assert ([rs[0]] + rest)[1..] == rest;
        [rs[0]] + rest
      else rest
  }

  /** The empty filter keeps every record. */
  lemma {:induction false} SearchEmptyShowsAll(rs: seq<QueryRecord>)
    ensures Search(rs, []) == rs
    decreases |rs|
  {
    if rs != [] {
      ContainsEmpty(ToLower(rs[0].query));
      assert Matches(rs[0], []);
      SearchEmptyShowsAll(rs[1..]);
      assert rs == [rs[0]] + rs[1..];
    }
  }

  /** The filter does not depend on how the user cased the search text. */
  lemma SearchKeyIgnoresCase(value: string)
    ensures SearchKey(ToUpper(value)) == SearchKey(value)
  {
    TrimUpper(value);
    LowerOfUpper(Trim(value));
  }

  /** Whether a record matches does not depend on how its query and response are cased. */
  lemma MatchesIgnoresRecordCase(r: QueryRecord, filter: string)
    ensures Matches(r.(query := ToUpper(r.query), response := ToUpper(r.response)), filter) == Matches(r, filter)
  {
    LowerOfUpper(r.query);
    LowerOfUpper(r.response);
  }

  /** The parts of `MatTableDataSource` the component drives: rows, filter text and paginator page. */
  class TableDataSource {
    var data: seq<QueryRecord>
    var filter: string
    var hasPaginator: bool
    var pageIndex: nat

    constructor (data: seq<QueryRecord>)
      ensures this.data == data && filter == [] && !hasPaginator && pageIndex == 0
    {
      this.data := data;
      filter := [];
      hasPaginator := false;
      pageIndex := 0;
    }
  }

  class QueryRecordsComponent {
    var queryRecords: seq<QueryRecord>
    var queryResult: string
    var errorMessage: string
    var newQuery: string
    var isLoading: bool
    var statusFilter: StatusFilter
    const dataSource: TableDataSource
    /** `JSON.parse`, as the extractor sees it. */
    const jsonParse: string -> Option<Json>

    /** The table always shows the working set, and every record in it is normalized. */
    ghost predicate Valid()
      reads this, dataSource
    {
      && dataSource.data == queryRecords
      && forall r :: r in queryRecords ==> IsNormalized(r)
    }

    /** The rows the table presents, before sorting and paging. */
    function Visible(): seq<QueryRecord>
      reads this, dataSource
    {
      Search(dataSource.data, dataSource.filter)
    }

    constructor (jsonParse: string -> Option<Json>)
      ensures Valid() && fresh(dataSource)
      ensures queryRecords == [] && queryResult == [] && errorMessage == [] && newQuery == []
      ensures !isLoading && statusFilter == Only(Active)
      ensures dataSource.filter == [] && !dataSource.hasPaginator && dataSource.pageIndex == 0
      ensures this.jsonParse == jsonParse
    {
      queryRecords := [];
      queryResult := [];
      errorMessage := [];
      newQuery := [];
      isLoading := false;
      statusFilter := Only(Active);
      dataSource := new TableDataSource([]);
      this.jsonParse := jsonParse;
    }

    /**
     * The state a load leaves behind, given the records and error message before it:
     * on success the loaded records and `isLoading` cleared by `complete`; on
     * failure the old records, the prefixed error, and `isLoading` still set.
     */
    ghost predicate LoadSettled(filter: StatusFilter, reply: HttpOutcome<seq<QueryRecord>>,
                                recordsBefore: seq<QueryRecord>, errorBefore: string)
      reads this
    {
      match Loaded(filter, jsonParse, reply)
      case Success(records) => queryRecords == records && !isLoading && errorMessage == errorBefore
      case Failure(e) => queryRecords == recordsBefore && isLoading && errorMessage == LoadErrorPrefix + e.message
    }

    /** `ngAfterViewInit`: attaches the paginator, if the view has one. */
    method NgAfterViewInit(paginatorFound: bool)
      modifies dataSource`hasPaginator
      ensures dataSource.hasPaginator == paginatorFound
    {
      dataSource.hasPaginator := paginatorFound;
    }

    /** `loadRecords`: fetches according to the status filter and replaces the working set on success. */
    method LoadRecords(reply: HttpOutcome<seq<QueryRecord>>) returns (sent: Request)
      requires Valid()
      modifies this`isLoading, this`errorMessage, this`queryRecords, dataSource`data
      ensures Valid()
      ensures sent == Fetch(statusFilter, reply).request
      ensures LoadSettled(statusFilter, reply, old(queryRecords), old(errorMessage))
    {
      isLoading := true;
      var call := if statusFilter == All
        then GetAllQueryRecordsIncludingInactive(reply)
        else GetAllQueryRecords(reply);
      sent := call.request;
      match call.result {
        case Success(data) =>
          // next
          var records := ExtractAll(jsonParse, data);
          if statusFilter != All {
            records := WithStatus(records, statusFilter.code.Code());
          }
          queryRecords := records;
          dataSource.data := queryRecords;
          // complete
          isLoading := false;
        case Failure(error) =>
          errorMessage := LoadErrorPrefix + error.message;
      }
    }

    /**
     * `executeQueryAndClear`: a blank query is refused without a call; otherwise
     * the query is sent and, on success, the extracted answer shown and the input cleared.
     */
    method ExecuteQueryAndClear(reply: HttpOutcome<string>) returns (sent: seq<Request>)
      requires Valid()
      modifies this`isLoading, this`errorMessage, this`queryResult, this`newQuery
      ensures Valid()
      ensures IsBlank(old(newQuery)) ==> sent == [] && unchanged(this)
      ensures !IsBlank(old(newQuery)) ==>
        (var call := ExecuteQuery(old(newQuery), reply);
         && sent == [call.request]
         && (call.result.Success? ==>
               queryResult == ExtractContent(jsonParse, call.result.value)
               && newQuery == [] && !isLoading && errorMessage == [])
         && (call.result.Failure? ==>
               queryResult == old(queryResult) && newQuery == old(newQuery)
               && isLoading && errorMessage == QueryErrorPrefix + call.result.error.message))
    {
      if IsBlank(newQuery) {
        sent := [];
        return;
      }
      isLoading := true;
      errorMessage := [];
      var call := ExecuteQuery(newQuery, reply);
      sent := [call.request];
      match call.result {
        case Success(response) =>
          // next
          var content := ExtractContent(jsonParse, response);
          queryResult := content;
          newQuery := [];
          // complete
          isLoading := false;
        case Failure(error) =>
          errorMessage := QueryErrorPrefix + error.message;
      }
    }

    /**
     * `executeQueryAndStoreAndClear`: a blank query is refused without a call;
     * otherwise the stored record is put in front of the working set on success.
     */
    method ExecuteQueryAndStoreAndClear(reply: HttpOutcome<QueryRecord>) returns (sent: seq<Request>)
      requires Valid()
      modifies this`isLoading, this`errorMessage, this`queryRecords, this`newQuery, dataSource`data
      ensures Valid()
      ensures IsBlank(old(newQuery)) ==> sent == [] && unchanged(this) && unchanged(dataSource)
      ensures !IsBlank(old(newQuery)) ==>
        (var call := ExecuteQueryAndStore(old(newQuery), reply);
         && sent == [call.request]
         && (call.result.Success? ==>
               queryRecords == [ForDisplay(jsonParse, call.result.value)] + old(queryRecords)
               && newQuery == [] && !isLoading && errorMessage == [])
         && (call.result.Failure? ==>
               queryRecords == old(queryRecords) && newQuery == old(newQuery)
               && isLoading && errorMessage == StoreErrorPrefix + call.result.error.message))
    {
      if IsBlank(newQuery) {
        sent := [];
        return;
      }
      isLoading := true;
      errorMessage := [];
      var call := ExecuteQueryAndStore(newQuery, reply);
      sent := [call.request];
      match call.result {
        case Success(record) =>
          // next
          var processed := ForDisplay(jsonParse, record);
          queryRecords := [processed] + queryRecords;
          dataSource.data := queryRecords;
          newQuery := [];
          // complete
          isLoading := false;
        case Failure(error) =>
          errorMessage := StoreErrorPrefix + error.message;
      }
    }

    /**
     * `toggleStatus`: soft-deletes an active record and restores any other; a
     * successful update reloads the table, a failed one changes no field.
     */
    method ToggleStatus(record: QueryRecord, patchReply: HttpOutcome<QueryRecord>,
                        reloadReply: HttpOutcome<seq<QueryRecord>>) returns (sent: seq<Request>)
      requires Valid()
      modifies this`isLoading, this`errorMessage, this`queryRecords, dataSource`data
      ensures Valid()
      ensures
        var update := if HasStatus(record, "A")
          then SoftDeleteQueryRecord(record.id, patchReply)
          else RestoreQueryRecord(record.id, patchReply);
        && |sent| >= 1 && sent[0] == update.request
        && (update.result.Success? ==>
              sent == [update.request, Fetch(statusFilter, reloadReply).request]
              && LoadSettled(statusFilter, reloadReply, old(queryRecords), old(errorMessage)))
        && (update.result.Failure? ==> sent == [update.request] && unchanged(this) && unchanged(dataSource))
    {
      var update := if HasStatus(record, "A")
        then SoftDeleteQueryRecord(record.id, patchReply)
        else RestoreQueryRecord(record.id, patchReply);
      sent := [update.request];
      if update.result.Success? {
        var reload := LoadRecords(reloadReply);
        sent := sent + [reload];
      }
    }

    /** `applyFilter`: installs the trimmed, lower-cased text and returns to the first page. */
    method ApplyFilter(value: string)
      requires Valid()
      modifies dataSource`filter, dataSource`pageIndex
      ensures Valid()
      ensures dataSource.filter == SearchKey(value)
      ensures dataSource.pageIndex == if dataSource.hasPaginator then 0 else old(dataSource.pageIndex)
      ensures IsBlank(value) ==> Visible() == queryRecords
    {
      dataSource.filter := ToLower(Trim(value));
      if dataSource.hasPaginator {
        dataSource.pageIndex := 0;
      }
      if IsBlank(value) {
        SearchEmptyShowsAll(queryRecords);
      }
    }
  }
}
