/**
 * The decision rules of the backend endpoints (backend/api/views.py): how a submitted
 * transaction becomes a stored document and a response, how the status endpoint answers,
 * and how the health probe rates the service.
 *
 * The database is a `Store` object: a connection flag and, when the transactions collection
 * can be reached, its documents in insertion order. Ids, clocks, the analyser's verdict and
 * the failures of single database calls are parameters.
 */
module Views {
  import opened Basics

  /** A JSON/BSON value as far as the endpoints build or inspect one. */
  datatype Value =
    | Str(s: string)
    | Num(x: real)
    | Bool(b: bool)
    | Strs(items: seq<string>)
    | ObjectId(oid: nat)
    | Obj(fields: map<string, Value>)

  type Document = map<string, Value>

  /** The request body after validation: the errors, or the validated fields. */
  datatype ValidatedRequest =
    | Invalid(errors: map<string, Value>)
    | Valid(sender: string, receiver: string, amount: real, description: Option<string>)

  /** What the analyser returns; the explanation and risk factors may be missing from it. */
  datatype AnalysisDict = AnalysisDict(score: real, explanation: Option<string>, riskFactors: Option<seq<string>>)

  datatype Response = Response(code: nat, body: Document)

  /** The verdict label of a score: the thresholds 0.5 and 0.8, each belonging to the upper band. */
  function DeriveStatus(score: real): (status: string)
    ensures status == "Clear" <==> score < 0.5
    ensures status == "Suspicious" <==> 0.5 <= score < 0.8
    ensures status == "Fraudulent" <==> score >= 0.8
  {
    if score < 0.5 then "Clear" else if score < 0.8 then "Suspicious" else "Fraudulent"
  }

  const DocumentKeys: set<string> :=
    {"id", "sender", "receiver", "amount", "description", "status", "score", "explanation",
     "risk_factors", "timestamp"}

  /** The fields echoed to the client: the document's, without the description. */
  const ResponseKeys: set<string> := DocumentKeys - {"description"}

  /**
   * The stored document: the validated fields (a missing description is ""), the derived
   * status, and the analyser's explanation and risk factors with "" and [] as their defaults.
   */
  function BuildDocument(id: string, req: ValidatedRequest, analysis: AnalysisDict, now: string): (doc: Document)
    requires req.Valid?
    ensures doc.Keys == DocumentKeys
    ensures doc["status"] == Str(DeriveStatus(analysis.score)) && doc["score"] == Num(analysis.score)
    ensures doc["explanation"] == Str(analysis.explanation.GetOr(""))
    ensures analysis.explanation.None? ==> doc["explanation"] == Str("")
    ensures doc["risk_factors"] == Strs(analysis.riskFactors.GetOr([]))
    ensures analysis.riskFactors.None? ==> doc["risk_factors"] == Strs([])
    ensures doc["description"] == Str(req.description.GetOr(""))
    ensures doc["id"] == Str(id) && doc["sender"] == Str(req.sender) && doc["receiver"] == Str(req.receiver)
    ensures doc["amount"] == Num(req.amount) && doc["timestamp"] == Str(now)
  {
    map["id" := Str(id),
        "sender" := Str(req.sender),
        "receiver" := Str(req.receiver),
        "amount" := Num(req.amount),
        "description" := Str(req.description.GetOr("")),
        "status" := Str(DeriveStatus(analysis.score)),
        "score" := Num(analysis.score),
        "explanation" := Str(analysis.explanation.GetOr("")),
        "risk_factors" := Strs(analysis.riskFactors.GetOr([])),
        "timestamp" := Str(now)]
  }

  /** The clean response body: exactly the nine echoed fields, copied from the document. */
  function CleanResponse(doc: Document): (body: Document)
    requires doc.Keys == DocumentKeys
    ensures body.Keys == ResponseKeys && "_id" !in body && "description" !in body
    ensures forall k | k in body :: body[k] == doc[k]
  {
    map k | k in ResponseKeys :: doc[k]
  }

  function ErrorBody(error: string): Document {
    map["error" := Str(error)]
  }

  function ErrorWithDetail(error: string, detail: Value): Document {
    map["error" := Str(error), "detail" := detail]
  }

  /**
   * The answer to a submission. It depends on the request, the id, the analyser's outcome and
   * the clock only: whatever happens to the insert, the client gets the same response.
   */
  function ProcessResponse(req: ValidatedRequest, id: string, analysis: Result<AnalysisDict>, now: string): (r: Response)
    ensures req.Invalid? <==> r.code == 400
    ensures req.Invalid? ==> r.body == ErrorWithDetail("Validation error", Obj(req.errors))
    ensures req.Valid? && analysis.Err? <==> r.code == 500
    ensures req.Valid? && analysis.Err? ==> r.body == ErrorWithDetail("Analysis error", Str(analysis.message))
    ensures req.Valid? && analysis.Ok? <==> r.code == 200
    ensures r.code == 200 ==>
      r.body.Keys == ResponseKeys &&
      forall k | k in r.body :: r.body[k] == BuildDocument(id, req, analysis.value, now)[k]
  {
    if req.Invalid? then Response(400, ErrorWithDetail("Validation error", Obj(req.errors)))
    else if analysis.Err? then Response(500, ErrorWithDetail("Analysis error", Str(analysis.message)))
    else Response(200, CleanResponse(BuildDocument(id, req, analysis.value, now)))
  }

  /** The status in a successful response is the one the score's band calls for. */
  lemma ResponseStatusFollowsScore(req: ValidatedRequest, id: string, a: AnalysisDict, now: string)
    requires req.Valid?
    ensures var body := ProcessResponse(req, id, Ok(a), now).body;
      body["status"] == Str(DeriveStatus(a.score)) && body["score"] == Num(a.score) && body["id"] == Str(id)
  {
  }

  /** The database as the endpoints see it. */
  class Store {
    var connected: bool
    /** The transactions collection in insertion order, or None when it cannot be reached. */
    var transactions: Option<seq<Document>>

    constructor (connected: bool, transactions: Option<seq<Document>>)
      ensures this.connected == connected && this.transactions == transactions
    {
      this.connected := connected;
      this.transactions := transactions;
    }

    /** `get_collection`: the collection, only while connected. */
    function Collection(): Option<seq<Document>>
      reads this
    {
      if connected then transactions else None
    }
  }

  /**
   * `process_transaction`. A valid, analysed submission is inserted when the collection is
   * reachable and the insert does not fail; the insert gives the stored copy an `_id`.
   */
  method ProcessTransaction(store: Store, req: ValidatedRequest, id: string, analysis: Result<AnalysisDict>,
                            now: string, oid: nat, insertFails: bool)
      returns (resp: Response)
    modifies store
    ensures resp == ProcessResponse(req, id, analysis, now)
    ensures store.connected == old(store.connected)
    ensures if req.Valid? && analysis.Ok? && old(store.Collection()).Some? && !insertFails
            then store.transactions ==
              Some(old(store.transactions).value + [BuildDocument(id, req, analysis.value, now)["_id" := ObjectId(oid)]])
            else store.transactions == old(store.transactions)
  {
    if req.Invalid? {
      return Response(400, ErrorWithDetail("Validation error", Obj(req.errors)));
    }
    if analysis.Err? {
      return Response(500, ErrorWithDetail("Analysis error", Str(analysis.message)));
    }
    var transaction := BuildDocument(id, req, analysis.value, now);
    var collection := store.Collection();
    if collection.Some? && !insertFails {
      // insert_one adds the generated _id to the dict it is given
      transaction := transaction["_id" := ObjectId(oid)];
      store.transactions := Some(collection.value + [transaction]);
    }
    var responseData := map k | k in ResponseKeys :: transaction[k];
    resp := Response(200, responseData);
  }

  /** `find_one({"id": id})`: the first document, in insertion order, whose id is `id`. */
  function FindOne(docs: seq<Document>, id: string): (found: Option<Document>)
    ensures found.None? <==> forall i | 0 <= i < |docs| :: "id" !in docs[i] || docs[i]["id"] != Str(id)
    ensures found.Some? ==> exists i | 0 <= i < |docs| ::
      docs[i] == found.value && "id" in docs[i] && docs[i]["id"] == Str(id) &&
      forall j | 0 <= j < i :: "id" !in docs[j] || docs[j]["id"] != Str(id)
  {
    if docs == [] then None
    else if "id" in docs[0] && docs[0]["id"] == Str(id) then Some(docs[0])
    else
      var rest := FindOne(docs[1..], id);
      if rest.Some? then
        ghost var i :| 1 <= i + 1 < |docs| + 1 && 0 <= i < |docs[1..]| && docs[1..][i] == rest.value &&
          "id" in docs[1..][i] && docs[1..][i]["id"] == Str(id) &&
          forall j | 0 <= j < i :: "id" !in docs[1..][j] || docs[1..][j]["id"] != Str(id);
        assert docs[i + 1] == rest.value;
        rest
      else rest
  }

  /**
   * The status endpoint's answer. A query that raises gives 500 whatever the collection holds;
   * a found record is returned with `_id` removed and every other field as stored.
   */
  function StatusResponse(connected: bool, collection: Option<seq<Document>>, id: string, queryError: Option<string>)
      : (r: Response)
    ensures !connected <==> r.code == 503 && r.body == ErrorBody("Database connection not available")
    ensures connected && collection.None? <==> r.code == 503 && r.body == ErrorBody("Collection not available")
    ensures connected && collection.Some? && queryError.Some? <==> r.code == 500
    ensures r.code == 500 ==> r.body == ErrorWithDetail("Database query failed", Str(queryError.value))
    ensures connected && collection.Some? && queryError.None? && FindOne(collection.value, id).None?
      <==> r.code == 404
    ensures r.code == 404 ==> r.body == ErrorBody("Transaction not found")
    ensures r.code == 200 <==> connected && collection.Some? && queryError.None? && FindOne(collection.value, id).Some?
    ensures r.code == 200 ==>
      var stored := FindOne(collection.value, id).value;
      "_id" !in r.body && r.body.Keys == stored.Keys - {"_id"} && forall k | k in r.body :: r.body[k] == stored[k]
  {
    assert ErrorBody("Database connection not available")["error"] != ErrorBody("Collection not available")["error"];
    if !connected then Response(503, ErrorBody("Database connection not available"))
    else if collection.None? then Response(503, ErrorBody("Collection not available"))
    else if queryError.Some? then Response(500, ErrorWithDetail("Database query failed", Str(queryError.value)))
    else
      var found := FindOne(collection.value, id);
      if found.None? then Response(404, ErrorBody("Transaction not found"))
      else Response(200, found.value - {"_id"})
  }

  /**
   * `get_transaction_status`. The store is only read: the record `find_one` returns is a copy,
   * and `_id` is removed from that copy.
   */
  method GetTransactionStatus(store: Store, id: string, queryError: Option<string>) returns (resp: Response)
    ensures resp == StatusResponse(store.connected, store.Collection(), id, queryError)
  {
    if !store.connected {
      return Response(503, ErrorBody("Database connection not available"));
    }
    var collection := store.Collection();
    if collection.None? {
      return Response(503, ErrorBody("Collection not available"));
    }
    if queryError.Some? {
      return Response(500, ErrorWithDetail("Database query failed", Str(queryError.value)));
    }
    var transaction := FindOne(collection.value, id);
    if transaction.None? {
      return Response(404, ErrorBody("Transaction not found"));
    }
    var record := transaction.value;
    if "_id" in record {
      record := record - {"_id"};
    }
    resp := Response(200, record);
  }

  /** No stored document carries the id. */
  predicate Fresh(docs: seq<Document>, id: string) {
    forall i | 0 <= i < |docs| :: "id" !in docs[i] || docs[i]["id"] != Str(id)
  }

  /**
   * A stored submission is found again: for a fresh id, the status endpoint returns the stored
   * document without its `_id`.
   */
  lemma StoredTransactionIsFound(docs: seq<Document>, req: ValidatedRequest, id: string, a: AnalysisDict,
                                 now: string, oid: nat)
    requires req.Valid? && Fresh(docs, id)
    ensures var doc := BuildDocument(id, req, a, now);
      var fetched := StatusResponse(true, Some(docs + [doc["_id" := ObjectId(oid)]]), id, None);
      fetched.code == 200 && fetched.body == doc
  {
    var doc := BuildDocument(id, req, a, now);
    var stored := doc["_id" := ObjectId(oid)];
    assert FindOne(docs + [stored], id) == Some(stored) by {
      FindOneAfterFresh(docs, stored, id);
    }
    assert stored - {"_id"} == doc;
  }

  /**
   * The submission's answer agrees with the stored document on every field it echoes; the
   * stored document adds the description.
   */
  lemma ResponseEchoesDocument(req: ValidatedRequest, id: string, a: AnalysisDict, now: string)
    requires req.Valid?
    ensures var doc := BuildDocument(id, req, a, now);
      var submitted := ProcessResponse(req, id, Ok(a), now);
      submitted.body.Keys + {"description"} == doc.Keys &&
      forall k | k in submitted.body :: submitted.body[k] == doc[k]
  {
  }

  lemma {:induction false} FindOneAfterFresh(docs: seq<Document>, doc: Document, id: string)
    requires Fresh(docs, id) && "id" in doc && doc["id"] == Str(id)
    ensures FindOne(docs + [doc], id) == Some(doc)
    decreases |docs|
  {
    if docs == [] {
      assert docs + [doc] == [doc];
    } else {
      assert (docs + [doc])[1..] == docs[1..] + [doc];
      assert (docs + [doc])[0] == docs[0];
      FindOneAfterFresh(docs[1..], doc, id);
    }
  }

  /**
   * The health report: "healthy" exactly when the database answers and a non-empty Gemini key
   * is configured; otherwise "degraded". The collection check is reported but does not count.
   */
  function HealthReport(connected: bool, collectionAvailable: bool, geminiKey: string, now: string): (r: Document)
    ensures r.Keys == {"status", "mongodb", "gemini", "timestamp"}
    ensures r["status"] == Str("healthy") <==> connected && geminiKey != ""
    ensures r["status"] == Str("degraded") <==> !(connected && geminiKey != "")
    ensures r["gemini"] == Str("configured") <==> geminiKey != ""
    ensures r["mongodb"] == Obj(map["connected" := Bool(connected), "collection_available" := Bool(collectionAvailable)])
  {
    var configured := geminiKey != "";
    map["status" := Str(if connected && configured then "healthy" else "degraded"),
        "mongodb" := Obj(map["connected" := Bool(connected), "collection_available" := Bool(collectionAvailable)]),
        "gemini" := Str(if configured then "configured" else "not configured"),
        "timestamp" := Str(now)]
  }
}
