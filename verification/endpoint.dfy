/**
 The HTTP handler `responder_endpoint` (main.py): it reads `query` from
 the JSON body, rejects the request with status 400 when that value is
 missing or falsy, and otherwise wraps the responder's answer in a
 one-field object. Exceptions from the responder are not caught here;
 they leave the handler unchanged.
 */
module Endpoint {
  import opened JsonValues
  import opened Retrieval
  import Prompt

  /** The body key the question is read from. */
  const QueryKey: string := "query"

  /** The only key of a successful reply's body. */
  const ResponseKey: string := "response"

  /** Status code of the rejection. */
  const BadRequest: nat := 400

  /** Detail message of the rejection. */
  const MissingQueryDetail: string := "Debes enviar 'query' en el body"

  /** What the handler produces for one request. */
  datatype Reply =
    | Rejected(status: nat, detail: string)   // the `HTTPException` it raises itself
    | Answered(body: map<string, string>)     // the object it returns
    | Propagated(fault: Fault)                // an exception from the responder, passed through

  /**
   `responder_endpoint(payload)` with the responder as a parameter. A
   missing or falsy `query` gives the fixed 400 rejection; a truthy one is
   handed to the responder, whose answer becomes the single `response`
   field of the reply and whose exception passes through unchanged.
   */
  function Respond(payload: map<string, Value>, responder: Value -> Result<string>): (r: Reply)
    ensures r.Rejected? <==> !Truthy(Get(payload, QueryKey))
    ensures r.Rejected? ==> r.status == BadRequest && r.detail == MissingQueryDetail
    ensures r.Answered? ==>
      r.body.Keys == {ResponseKey} && responder(Get(payload, QueryKey)) == Ok(r.body[ResponseKey])
    ensures r.Propagated? ==> responder(Get(payload, QueryKey)) == Raised(r.fault)
  {
    var query := Get(payload, QueryKey);
    if !Truthy(query) then Rejected(BadRequest, MissingQueryDetail)
    else
      match responder(query)
      case Ok(answer) => Answered(map[ResponseKey := answer])
      case Raised(f) => Propagated(f)
  }

  /**
   A rejected request never reaches the responder: the reply is the same
   whatever responder the handler is given.
   */
  lemma RejectionIgnoresResponder(payload: map<string, Value>,
                                  r1: Value -> Result<string>, r2: Value -> Result<string>)
    requires !Truthy(Get(payload, QueryKey))
    ensures Respond(payload, r1) == Respond(payload, r2) == Rejected(BadRequest, MissingQueryDetail)
  {
  }

  /**
   The handler rejects exactly the bodies whose `query` key is absent or
   holds one of Python's falsy values: `null`, `false`, `0`, `0.0`, `""`,
   `[]` or `{}`.
   */
  lemma RejectedExactlyWhenFalsy(payload: map<string, Value>, responder: Value -> Result<string>)
    ensures Respond(payload, responder).Rejected?
            <==> QueryKey !in payload || payload[QueryKey] in FalsyValues
  {
    FalsyExactly(Get(payload, QueryKey));
  }

  /**
   A truthy query reaches the responder, and the request is answered
   exactly when the responder answers.
   */
  lemma TruthyQueryReachesResponder(payload: map<string, Value>, responder: Value -> Result<string>)
    requires Truthy(Get(payload, QueryKey))
    ensures Respond(payload, responder).Answered? <==> responder(Get(payload, QueryKey)).Ok?
    ensures responder(Get(payload, QueryKey)).Ok? ==>
      Respond(payload, responder) == Answered(map[ResponseKey := responder(Get(payload, QueryKey)).value])
  {
  }

  /**
   A non-empty string query whose six nearest objects all carry string
   texts is answered with the completion of the persona prompt composed
   from those texts and the query.
   */
  lemma AnsweredWithComposedPrompt(payload: map<string, Value>, responder: Value -> Result<string>,
                                   nearest: Search, complete: Completion, query: string,
                                   hits: seq<Hit>, chunks: seq<string>, answer: string)
    requires QueryKey in payload && payload[QueryKey] == JString(query) && |query| > 0
    requires responder(JString(query)) == RespondAsSamuel(nearest, complete, query)
    requires nearest(query, ResponderTopK) == Ok(hits)
    requires |chunks| == |hits|
    requires forall i :: 0 <= i < |hits| ==>
      TextProperty in hits[i].properties && hits[i].properties[TextProperty] == JString(chunks[i])
    requires complete(Prompt.Compose(query, chunks)) == Ok(answer)
    ensures Respond(payload, responder) == Answered(map[ResponseKey := answer])
  {
    RespondComposesNearestSix(nearest, complete, query, hits, chunks);
  }
}
