/**
 * What `get_news` and `get_stocks` make of one HTTP exchange. The request
 * itself is left out: the exchange is given as the outcome of the request,
 * the status code and the result of decoding the body.
 */
module Fetch {
  import opened Wrappers
  import opened Json

  /** `response.json()`: a document, or a decoding error (`ValueError`). */
  datatype Decoded = Decoded(doc: Json) | Undecodable

  /** One call to `requests.get`. */
  datatype Exchange =
    | RequestFailed                               // requests raised RequestException
    | Received(status: int, body: Decoded)

  /** What the fetch function reported (it prints it and returns `None`). */
  datatype Report =
    | RequestError                                // "Request Exception Occured"
    | InvalidJson                                 // "Received invalid JSON ..."
    | ApiError(message: Json)                     // the API's own error message
    | BadStatus(status: int)                      // "... invalid status code ..."

  datatype FetchResult =
    | Fetched(payload: Json)                      // the decoded document, returned
    | Failed(report: Report)                      // `None` returned
    | Raised                                      // an exception escapes the function

  /** What the caller gets back: the payload, or `None` (or nothing at all). */
  function Payload(r: FetchResult): Option<Json>
  {
    if r.Fetched? then Some(r.payload) else None
  }

  /** Exactly a successful status with a decodable body yields the payload, unchanged. */
  predicate Succeeds(x: Exchange)
  {
    x.Received? && x.status == 200 && x.body.Decoded?
  }

  /**
   * `get_news`: the body is decoded first, then the status is checked; on a
   * bad status the message is read from `body["error"]["message"]`.
   */
  function ClassifyNews(x: Exchange): (r: FetchResult)
    ensures r.Fetched? <==> Succeeds(x)
    ensures r.Fetched? ==> r.payload == x.body.doc
    ensures x.Received? && x.body.Undecodable? ==> r == Failed(InvalidJson)
    ensures x.Received? && x.body.Decoded? && x.status != 200 && x.body.doc.Obj? ==>
      r.Failed? || r.Raised?
    ensures r.Failed? && r.report.ApiError? ==>
      && x.Received? && x.status != 200 && x.body.Decoded? && x.body.doc.Obj?
      && "error" in x.body.doc.fields && x.body.doc.fields["error"].Obj?
      && "message" in x.body.doc.fields["error"].fields
      && r.report.message == x.body.doc.fields["error"].fields["message"]
    ensures r.Failed? && r.report.BadStatus? ==> x.Received? && r.report.status == x.status != 200
    ensures x.RequestFailed? ==> r == Failed(RequestError)
    ensures r.Raised? <==>
      && x.Received? && x.body.Decoded? && x.status != 200
      && (|| !x.body.doc.Obj?
          || (&& Truthy(Get(x.body.doc.fields, "error"))
              && !(Get(x.body.doc.fields, "error").Obj? && "message" in Get(x.body.doc.fields, "error").fields)))
    ensures (&& x.Received? && x.body.Decoded? && x.status != 200 && x.body.doc.Obj?
             && !Truthy(Get(x.body.doc.fields, "error"))) ==> r == Failed(BadStatus(x.status))
    ensures (&& x.Received? && x.body.Decoded? && x.status != 200 && x.body.doc.Obj?
             && Truthy(Get(x.body.doc.fields, "error"))
             && Get(x.body.doc.fields, "error").Obj?
             && "message" in Get(x.body.doc.fields, "error").fields) ==>
      r == Failed(ApiError(Get(x.body.doc.fields, "error").fields["message"]))
  {
    match x
    case RequestFailed => Failed(RequestError)
    case Received(status, Undecodable) => Failed(InvalidJson)
    case Received(status, Decoded(doc)) =>
      if status != 200 then
        if !doc.Obj? then Raised                      // `.get` on a non-dict
        else
          var err := Get(doc.fields, "error");
          if !Truthy(err) then Failed(BadStatus(status))
          else if err.Obj? && "message" in err.fields then Failed(ApiError(err.fields["message"]))
          else Raised                                 // KeyError / TypeError
      else Fetched(doc)
  }

  /**
   * `get_stocks`: the same checks in the same order; on a bad status the
   * message is read from `body["message"]`.
   */
  function ClassifyStocks(x: Exchange): (r: FetchResult)
    ensures r.Fetched? <==> Succeeds(x)
    ensures r.Fetched? ==> r.payload == x.body.doc
    ensures x.Received? && x.body.Undecodable? ==> r == Failed(InvalidJson)
    ensures r.Raised? <==> x.Received? && x.body.Decoded? && x.status != 200 && !x.body.doc.Obj?
    ensures r.Failed? && r.report.ApiError? ==>
      && x.Received? && x.status != 200 && x.body.Decoded? && x.body.doc.Obj?
      && "message" in x.body.doc.fields && r.report.message == x.body.doc.fields["message"]
    ensures r.Failed? && r.report.BadStatus? ==> x.Received? && r.report.status == x.status != 200
    ensures x.RequestFailed? ==> r == Failed(RequestError)
    ensures (&& x.Received? && x.body.Decoded? && x.status != 200 && x.body.doc.Obj?
             && Truthy(Get(x.body.doc.fields, "message"))) ==>
      r == Failed(ApiError(Get(x.body.doc.fields, "message")))
    ensures (&& x.Received? && x.body.Decoded? && x.status != 200 && x.body.doc.Obj?
             && !Truthy(Get(x.body.doc.fields, "message"))) ==> r == Failed(BadStatus(x.status))
  {
    match x
    case RequestFailed => Failed(RequestError)
    case Received(status, Undecodable) => Failed(InvalidJson)
    case Received(status, Decoded(doc)) =>
      if status != 200 then
        if !doc.Obj? then Raised                      // `.get` on a non-dict
        else
          var msg := Get(doc.fields, "message");
          if Truthy(msg) then Failed(ApiError(msg)) else Failed(BadStatus(status))
      else Fetched(doc)
  }

  /**
   * The two fetch functions agree on every exchange about what they return;
   * they differ only in the message they report, and in `get_news` raising
   * on an error entry it cannot index.
   */
  lemma ClassifiersAgree(x: Exchange)
    ensures Payload(ClassifyNews(x)) == Payload(ClassifyStocks(x))
    ensures ClassifyStocks(x).Raised? ==> ClassifyNews(x).Raised?
    ensures ClassifyNews(x).Failed? ==> ClassifyStocks(x).Failed?
  {
  }

  /** An undecodable body is refused whatever the status, by both. */
  lemma UndecodableRefused(status: int)
    ensures Payload(ClassifyNews(Received(status, Undecodable))) == None
    ensures Payload(ClassifyStocks(Received(status, Undecodable))) == None
  {
  }

  /** A server error whose body carries a non-empty message reports that
      message, and nothing is returned. */
  lemma ServerErrorReported(message: string)
    requires message != ""
    ensures ClassifyNews(Received(500, Decoded(Obj(map["error" := Obj(map["message" := Str(message)])]))))
      == Failed(ApiError(Str(message)))
    ensures ClassifyStocks(Received(500, Decoded(Obj(map["message" := Str(message)]))))
      == Failed(ApiError(Str(message)))
  {
    var err := map["message" := Str(message)];
    assert "message" in err;
  }

  /** `get_news` on a bad status whose body has no `error` entry, or a falsy
      one, reports the status code. */
  lemma NewsErrorWithoutMessage(status: int, fields: map<string, Json>)
    requires status != 200
    requires "error" !in fields || !Truthy(fields["error"])
    ensures ClassifyNews(Received(status, Decoded(Obj(fields)))) == Failed(BadStatus(status))
  {
  }

  /** `get_stocks` on a bad status whose body has no `message` entry, or a
      falsy one, reports the status code. */
  lemma StocksErrorWithoutMessage(status: int, fields: map<string, Json>)
    requires status != 200
    requires "message" !in fields || !Truthy(fields["message"])
    ensures ClassifyStocks(Received(status, Decoded(Obj(fields)))) == Failed(BadStatus(status))
  {
  }
}
