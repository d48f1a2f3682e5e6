/**
 The retrieval half of the pipeline (main.py, `search_similar_chunks` and
 `responder_como_samuel`): the query is turned into result objects by a
 nearest-neighbour search, the `text` property of each object is taken in
 order, and the responder asks for the six nearest chunks, composes the
 persona prompt from them and hands it to the completion service.

 The embedding call, the vector database and the completion call are not
 modelled: the search and the completion are function parameters, and any
 failure inside them is the opaque fault `Upstream`.
 */
module Retrieval {
  import opened JsonValues
  import Prompt

  /** Limit used by `search_similar_chunks` when the caller gives none. */
  const DefaultTopK: nat := 5

  /** Limit the responder passes to the search. */
  const ResponderTopK: nat := 6

  /** The one property requested from each stored chunk. */
  const TextProperty: string := "text"

  /** Why a request's pipeline stops: an exception raised by the code or let through it. */
  datatype Fault =
    | Upstream(reason: string)  // failure inside the embedding, search or completion service
    | MissingText(index: nat)   // `KeyError`: the result object at `index` has no "text"
    | NotText(index: nat)       // `TypeError` in the join: the chunk at `index` is not a string

  /** A computed value, or the exception that stopped the computation. */
  datatype Result<T> = Ok(value: T) | Raised(fault: Fault) {
    predicate IsFailure() {
      Raised?
    }

    function PropagateFailure<U>(): Result<U>
      requires Raised?
    {
      Raised(fault)
    }

    function Extract(): T
      requires Ok?
    {
      value
    }
  }

  /** One object returned by the nearest-neighbour query, with its requested properties. */
  datatype Hit = Hit(properties: map<string, Value>)

  /** The embedding plus nearest-neighbour query: from the query text and a limit to result objects. */
  type Search = (string, nat) -> Result<seq<Hit>>

  /** The chat completion: from a prompt to the model's answer text. */
  type Completion = string -> Result<string>

  /**
   `[obj["text"] for obj in objects]`: the `text` property of every result
   object, one per object and in the same order. The first object without
   a `text` property raises a `KeyError`, and nothing is returned.
   */
  function ExtractTexts(hits: seq<Hit>): (r: Result<seq<Value>>)
    ensures r.Ok? ==> |r.value| == |hits|
    ensures r.Ok? ==> forall i :: 0 <= i < |hits| ==>
      TextProperty in hits[i].properties && r.value[i] == hits[i].properties[TextProperty]
    ensures r.Raised? ==> r.fault.MissingText? && r.fault.index < |hits|
    ensures r.Raised? ==> TextProperty !in hits[r.fault.index].properties
    ensures r.Raised? ==> forall j :: 0 <= j < r.fault.index ==> TextProperty in hits[j].properties
  {
    if |hits| == 0 then Ok([])
    else if TextProperty !in hits[0].properties then Raised(MissingText(0))
    else
      match ExtractTexts(hits[1..])
      case Ok(rest) => Ok([hits[0].properties[TextProperty]] + rest)
      case Raised(f) => Raised(MissingText(f.index + 1))
  }

  /**
   The type check `str.join` makes before joining: every chunk must be a
   string, and the first one that is not raises a `TypeError`.
   */
  function AsStrings(vals: seq<Value>): (r: Result<seq<string>>)
    ensures r.Ok? ==> |r.value| == |vals|
    ensures r.Ok? ==> forall i :: 0 <= i < |vals| ==> vals[i] == JString(r.value[i])
    ensures r.Raised? ==> r.fault.NotText? && r.fault.index < |vals|
    ensures r.Raised? ==> !vals[r.fault.index].JString?
    ensures r.Raised? ==> forall j :: 0 <= j < r.fault.index ==> vals[j].JString?
  {
    if |vals| == 0 then Ok([])
    else if !vals[0].JString? then Raised(NotText(0))
    else
      match AsStrings(vals[1..])
      case Ok(rest) => Ok([vals[0].s] + rest)
      case Raised(f) => Raised(NotText(f.index + 1))
  }

  /** Every result object carries a `text` property whose value is a string. */
  predicate StringTexts(hits: seq<Hit>) {
    forall i :: 0 <= i < |hits| ==>
      TextProperty in hits[i].properties && hits[i].properties[TextProperty].JString?
  }

  /** The string texts of result objects that all carry one, in order. */
  function TextsOf(hits: seq<Hit>): seq<string>
    requires StringTexts(hits)
  {
    seq(|hits|, i requires 0 <= i < |hits| && StringTexts(hits) => hits[i].properties[TextProperty].s)
  }

  /**
   `search_similar_chunks(query, top_k)`: the `text` properties of the
   objects the search returns for `query` with limit `topK` (five when the
   caller gives none), in the order the search returned them.
   */
  function SearchSimilarChunks(nearest: Search, query: string, topK: nat := DefaultTopK)
    : (r: Result<seq<Value>>)
    ensures nearest(query, topK).Raised? ==> r == Raised(nearest(query, topK).fault)
    ensures r.Ok? ==> nearest(query, topK).Ok? && |r.value| == |nearest(query, topK).value|
    ensures r.Ok? ==> forall i :: 0 <= i < |r.value| ==>
      && TextProperty in nearest(query, topK).value[i].properties
      && r.value[i] == nearest(query, topK).value[i].properties[TextProperty]
    ensures nearest(query, topK).Ok?
            && (forall i :: 0 <= i < |nearest(query, topK).value| ==>
                  TextProperty in nearest(query, topK).value[i].properties)
            ==> r.Ok?
    ensures nearest(query, topK).Ok? && r.Raised? ==>
      && r.fault.MissingText?
      && r.fault.index < |nearest(query, topK).value|
      && TextProperty !in nearest(query, topK).value[r.fault.index].properties
      && forall j :: 0 <= j < r.fault.index ==> TextProperty in nearest(query, topK).value[j].properties
  {
    var hits :- nearest(query, topK);
    ExtractTexts(hits)
  }

  /**
   `responder_como_samuel(query)`: search with limit six, compose the
   persona prompt from the chunks found and the query, and return the
   completion of that prompt. A failure at any step ends the request.
   */
  function RespondAsSamuel(nearest: Search, complete: Completion, query: string): (r: Result<string>)
    ensures nearest(query, ResponderTopK).Raised? ==> r == Raised(nearest(query, ResponderTopK).fault)
    ensures nearest(query, ResponderTopK).Ok? && StringTexts(nearest(query, ResponderTopK).value) ==>
      r == complete(Prompt.Compose(query, TextsOf(nearest(query, ResponderTopK).value)))
  {
    var texts :- SearchSimilarChunks(nearest, query, ResponderTopK);
    var chunks :- AsStrings(texts);
    assert StringTexts(nearest(query, ResponderTopK).value) ==>
      chunks == TextsOf(nearest(query, ResponderTopK).value);
    complete(Prompt.Compose(query, chunks))
  }

  /**
   When the six nearest objects all carry string texts, the responder's
   answer is the completion of the prompt composed from exactly those
   texts, in the order the search returned them.
   */
  lemma RespondComposesNearestSix(nearest: Search, complete: Completion, query: string,
                                  hits: seq<Hit>, chunks: seq<string>)
    requires nearest(query, ResponderTopK) == Ok(hits)
    requires |chunks| == |hits|
    requires forall i :: 0 <= i < |hits| ==>
      TextProperty in hits[i].properties && hits[i].properties[TextProperty] == JString(chunks[i])
    ensures RespondAsSamuel(nearest, complete, query) == complete(Prompt.Compose(query, chunks))
  {
    var texts := ExtractTexts(hits);
    assert texts.Ok?;
    var strs := AsStrings(texts.value);
    assert strs.Ok?;
    assert strs.value == chunks;
  }

  /**
   The responder stops with the search's own fault when the search fails,
   with the `KeyError` naming the first object that lacks its text, and
   with the `TypeError` naming the first text that is not a string; in each of these cases the answer does not
   depend on the completion service, which is never reached.
   */
  lemma RespondStopsBeforeCompletion(nearest: Search, c1: Completion, c2: Completion, query: string)
    ensures nearest(query, ResponderTopK).Raised? ==>
      RespondAsSamuel(nearest, c1, query) == Raised(nearest(query, ResponderTopK).fault)
    ensures nearest(query, ResponderTopK).Ok? && SearchSimilarChunks(nearest, query, ResponderTopK).Raised? ==>
      RespondAsSamuel(nearest, c1, query) == Raised(SearchSimilarChunks(nearest, query, ResponderTopK).fault)
    ensures SearchSimilarChunks(nearest, query, ResponderTopK).Ok?
            && AsStrings(SearchSimilarChunks(nearest, query, ResponderTopK).value).Raised? ==>
      RespondAsSamuel(nearest, c1, query) == Raised(AsStrings(SearchSimilarChunks(nearest, query, ResponderTopK).value).fault)
    ensures (|| SearchSimilarChunks(nearest, query, ResponderTopK).Raised?
             || AsStrings(SearchSimilarChunks(nearest, query, ResponderTopK).value).Raised?) ==>
      RespondAsSamuel(nearest, c1, query) == RespondAsSamuel(nearest, c2, query)
  {
  }

  /**
   The responder consults the search only with limit six: two searches
   that agree on that one call give the same answer.
   */
  lemma RespondUsesOnlyTopSix(n1: Search, n2: Search, complete: Completion, query: string)
    requires n1(query, ResponderTopK) == n2(query, ResponderTopK)
    ensures RespondAsSamuel(n1, complete, query) == RespondAsSamuel(n2, complete, query)
  {
  }

  /**
   With a search that never returns more objects than its limit, the
   default search yields at most five chunks and the responder's context
   at most six.
   */
  lemma ContextWithinTopK(nearest: Search, query: string)
    requires forall k: nat :: nearest(query, k).Ok? ==> |nearest(query, k).value| <= k
    ensures SearchSimilarChunks(nearest, query).Ok? ==>
      |SearchSimilarChunks(nearest, query).value| <= DefaultTopK
    ensures SearchSimilarChunks(nearest, query, ResponderTopK).Ok? ==>
      |SearchSimilarChunks(nearest, query, ResponderTopK).value| <= ResponderTopK
  {
    assert nearest(query, DefaultTopK).Ok? ==> |nearest(query, DefaultTopK).value| <= DefaultTopK;
    assert nearest(query, ResponderTopK).Ok? ==> |nearest(query, ResponderTopK).value| <= ResponderTopK;
  }
}
