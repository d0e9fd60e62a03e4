/** The `/predict` request handler (app.py:184-200) without its web plumbing.

  The handler reads the JSON body, rejects a missing or empty query with a
  400 answer before any prediction runs, and otherwise predicts, writes the
  report to its one fixed path and answers with the record. Exceptions the
  handler does not catch become a 500 answer.
 */
module Service {
  import opened Wrappers
  import opened TextNormalizer
  import opened LawTable
  import opened Classifier
  import opened Procedure
  import opened Orchestrator
  import opened Report

  /** A decoded JSON value; numbers are integers in this model */
  datatype JsonValue =
    | JNull
    | JBool(b: bool)
    | JNumber(n: int)
    | JString(s: string)
    | JArray(items: seq<JsonValue>)
    | JObject(fields: map<string, JsonValue>)

  /** Python truthiness of a decoded JSON value */
  predicate Truthy(v: JsonValue) {
    match v
    case JNull => false
    case JBool(b) => b
    case JNumber(n) => n != 0
    case JString(s) => |s| > 0
    case JArray(items) => |items| > 0
    case JObject(fields) => |fields| > 0
  }

  /** Why the handler ended in an uncaught exception */
  datatype Fault =
    | BodyHasNoGet              // a truthy body that is not an object has no `.get`
    | QueryHasNoLower           // a truthy query that is not a string has no `.lower`
    | RowMissing(e: LookupError)
    | ReportFailed               // `generate_pdf` raised: a block is not Latin-1

  datatype Response =
    | Ok(message: string, data: Record, pdfUrl: string)
    | BadRequest(error: string)
    | ServerError(fault: Fault)

  function Status(r: Response): nat {
    match r
    case Ok(_, _, _) => 200
    case BadRequest(_) => 400
    case ServerError(_) => 500
  }

  /** The loaded pipeline, the table and the procedure provider the handler works with */
  datatype App = App(model: Classifier, table: Table, provider: Provider)

  /** The report file at the fixed path: absent until the first successful prediction */
  type ReportFile = Option<seq<string>>

  /** `data.get("query") if data else None` (app.py:188). A body of `None` is a request that
      carries no JSON data; bodies `get_json()` itself refuses are not modelled. */
  function QueryOf(body: Option<JsonValue>): (r: Result<Option<JsonValue>, Fault>)
    ensures r.Failure? <==> body.Some? && Truthy(body.value) && !body.value.JObject?
    ensures body.Some? && body.value.JObject? && "query" in body.value.fields ==>
      r == Success(Some(body.value.fields["query"]))
    ensures r.Success? && r.value.Some? ==>
      body.Some? && body.value.JObject? && "query" in body.value.fields
      && r.value.value == body.value.fields["query"]
  {
    match body
    case None => Success(None)
    case Some(data) =>
      if !Truthy(data) then Success(None)
      else if data.JObject? then
        Success(if "query" in data.fields then Some(data.fields["query"]) else None)
      else Failure(BodyHasNoGet)
  }

  /** The query reaches the normaliser only as ASCII text */
  predicate QueryIsAscii(body: Option<JsonValue>) {
    var q := QueryOf(body);
    q.Success? && q.value.Some? && q.value.value.JString? ==> IsAscii(q.value.value.s)
  }

  /** A query the guard turns away: missing, null, or any other falsy value */
  predicate QueryMissing(body: Option<JsonValue>) {
    QueryOf(body).Success? && (QueryOf(body).value.None? || !Truthy(QueryOf(body).value.value))
  }

  /** The guard lets the query through and it is non-empty text */
  predicate HasTextQuery(body: Option<JsonValue>) {
    var q := QueryOf(body);
    q.Success? && q.value.Some? && q.value.value.JString? && |q.value.value.s| > 0
  }

  /** The `/predict` handler (app.py:186-200): the answer and the report file afterwards */
  function HandlePredict(app: App, file: ReportFile, body: Option<JsonValue>): (r: (Response, ReportFile))
    requires app.model.Valid()
    requires QueryIsAscii(body)
    ensures r.0.BadRequest? <==> QueryMissing(body)
    ensures r.0.BadRequest? ==> r.0.error == "No query provided"
    ensures !r.0.Ok? ==> r.1 == file
    ensures r.0.Ok? ==>
      && r.0.message == "Prediction successful"
      && r.0.pdfUrl == ReportPath
      && Keys(r.0.data) == RecordKeys
      && r.1 == Some(ReportLines(r.0.data))
    ensures r.0.Ok? ==>
      && HasTextQuery(body)
      && PredictLaw(QueryOf(body).value.value.s, app.model, app.table, app.provider) == Success(r.0.data)
      && Encodable(r.0.data)
    ensures HasTextQuery(body) ==>
      var p := PredictLaw(QueryOf(body).value.value.s, app.model, app.table, app.provider);
      && (p.Failure? ==> r.0 == ServerError(RowMissing(p.error)))
      && (p.Success? && !Encodable(p.value) ==> r.0 == ServerError(ReportFailed))
      && (p.Success? && Encodable(p.value) ==> r.0.Ok?)
  {
    match QueryOf(body)
    case Failure(fault) => (ServerError(fault), file)
    case Success(query) =>
      if query.None? || !Truthy(query.value) then (BadRequest("No query provided"), file)
      else if !query.value.JString? then (ServerError(QueryHasNoLower), file)
      else
        match PredictLaw(query.value.s, app.model, app.table, app.provider)
        case Failure(e) => (ServerError(RowMissing(e)), file)
        case Success(record) =>
          if !Encodable(record) then (ServerError(ReportFailed), file)
          else (Ok("Prediction successful", record, ReportPath), Some(ReportLines(record)))
  }

  /** A missing or empty query is answered with 400 whatever the pipeline is: the
      prediction never runs for it, and the report file is left as it was */
  lemma RejectionIgnoresPipeline(app1: App, app2: App, file: ReportFile, body: Option<JsonValue>)
    requires app1.model.Valid() && app2.model.Valid()
    requires QueryIsAscii(body)
    requires QueryMissing(body)
    ensures HandlePredict(app1, file, body) == HandlePredict(app2, file, body)
    ensures Status(HandlePredict(app1, file, body).0) == 400
  {
  }

  /** An empty string query is rejected */
  lemma EmptyQueryIsRejected(app: App, file: ReportFile)
    requires app.model.Valid()
    ensures HandlePredict(app, file, Some(JObject(map["query" := JString("")])))
         == (BadRequest("No query provided"), file)
  {
  }

  /** A non-empty query whose predicted Section is in the table is answered with exactly the
      record `predict_law` computes when that record can be rendered, and the report file then
      reads back to it; otherwise rendering raises, the answer is 500 and the file is kept */
  lemma SuccessCarriesPrediction(app: App, file: ReportFile, query: string)
    requires app.model.Valid()
    requires IsAscii(query) && |query| > 0
    requires Predict(app.model, CleanText(query)) in Sections(app.table)
    ensures PredictLaw(query, app.model, app.table, app.provider).Success?
    ensures var body := Some(JObject(map["query" := JString(query)]));
      && QueryIsAscii(body)
      && var record := PredictLaw(query, app.model, app.table, app.provider).value;
      && var (resp, file') := HandlePredict(app, file, body);
      && (Encodable(record) ==>
            && resp == Ok("Prediction successful", record, ReportPath)
            && file'.Some? && ParseReport(file'.value) == Some(record))
      && (!Encodable(record) ==> resp == ServerError(ReportFailed) && file' == file)
  {
    var body := Some(JObject(map["query" := JString(query)]));
    assert QueryOf(body) == Success(Some(JString(query)));
    PredictedRecordRoundTrips(PredictLaw(query, app.model, app.table, app.provider).value);
  }

  /** The report path is one shared file that each success overwrites: neither the answer nor
      the file written depends on an earlier report, so after two successful requests only the
      second one's report remains */
  lemma LastReportWins(app: App, f1: ReportFile, f2: ReportFile, body: Option<JsonValue>)
    requires app.model.Valid()
    requires QueryIsAscii(body)
    ensures HandlePredict(app, f1, body).0 == HandlePredict(app, f2, body).0
    ensures HandlePredict(app, f1, body).0.Ok? ==> HandlePredict(app, f1, body).1 == HandlePredict(app, f2, body).1
  {
  }
}
