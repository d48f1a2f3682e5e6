# Samuel Doria Medina persona responder — Dafny model

`main.py` answers questions "as Samuel Doria Medina". One POST route,
`/api/responder`, takes a JSON body with a `query` field. It fetches the
six stored text chunks nearest to the query from a vector database and
splices them, with the query, into a fixed persona prompt. It sends that
prompt to a chat-completion model and returns the answer as
`{"response": ...}`.

Almost everything in that file is a call into OpenAI, Weaviate or FastAPI.
This project models the part that is the program's own logic:

- **Text** (`text.dfy`): Python's `sep.join(xs)` as `Join`. It comes with an
  independent positional description, `IsJoin`: each string sits at a
  computed start, a separator follows every string but the last, and the
  length leaves no room for anything else. The lemmas prove that `Join`
  meets that description and that nothing else does.
- **Prompt** (`prompt.dfy`): `construir_prompt_maestro` as `Compose`. The
  persona's part of the template sits in a `Persona` record: the style
  block, the "¡Viva Bolivia!" closing instruction and the closing line
  naming the persona. The constant `Samuel` holds main.py's text word for
  word, and `Compose` is `ComposeFor(Samuel, ...)`. The context and
  question headings are fixed constants. The lemmas are stated for any
  persona record, so they hold for `Samuel` in particular. They locate
  every part in the composed prompt and show the parts appear in template
  order. They show that the chunks keep their order and that an empty
  context leaves the section empty with no placeholder. They also show
  the query and the joined context can be read back out of the prompt.
- **JsonValues** (`json.dfy`): the parsed request body and Python
  truthiness. The falsy values are listed and proved to be exactly the
  values `Truthy` rejects.
- **Retrieval** (`retrieval.dfy`): the list comprehension taking each
  result object's `text` property, which raises `KeyError` when the
  property is missing. It also models the string check `str.join` makes,
  which raises `TypeError`. `search_similar_chunks` defaults to a limit of
  five, and `responder_como_samuel` wires in a limit of six.
- **Endpoint** (`endpoint.dfy`): the request gate of `responder_endpoint`.
  A missing or falsy `query` gets the fixed 400 rejection and never reaches
  the responder. Any other value gets a one-field reply holding the
  responder's answer.

The embedding call and the nearest-neighbour query together become one
function parameter, `Search`, from the query and a limit to result
objects. The chat completion becomes a parameter `Completion`, from the
prompt to the answer. A failure inside either is meant to be the opaque
fault `Upstream`; `MissingText` and `NotText` stand for the exceptions the
code itself raises. The parameter types do not forbid a parameter from
returning those two, and no lemma relies on it not doing so. Exceptions
are `Result` values, and the handler's reply `Propagated(fault)` stands
for an exception that leaves the handler uncaught.

Four behaviours of the code worth knowing, which the model keeps:

- The code accepts any truthy JSON value as `query`, such as `5`, `true`
  or `[1]`, not only non-empty strings. `Endpoint.Respond` passes the
  value to the responder unchanged.
- The code catches no exceptions. Upstream failures are not mapped to a
  generic 500 in this file; they leave the handler as they are.
- The code keeps whatever the completion returns after `.strip()`, so a
  non-empty `response` is not guaranteed.
- Only one persona exists in the code, and it has no persona
  configuration. The `Persona` record only gathers that persona's text.

## Model

| member | source | states |
|---|---|---|
| Text.Join | main.py:49 | For one or more chunks, the joined context is exactly as long as all chunks plus one separator between each neighbouring pair. |
| Text.JoinOfFew | main.py:49 | Joining no chunks gives the empty string; joining one chunk gives that chunk unchanged. |
| Text.JoinIsJoin | main.py:49 | The join meets the positional description: chunk i sits at its start, a separator follows every chunk but the last, and the length allows exactly n-1 separators. |
| Text.IsJoinUnique | main.py:49 | Any string meeting the positional description equals the join, so the description and the join define the same text. |
| Text.JoinKeepsOrder | main.py:49 | For i < j, chunk i and then a separator end before chunk j begins, so the join keeps the order received. |
| Prompt.ComposeFor | main.py:48-66 | The prompt is as long as the template, the query, every chunk and one blank-line separator between neighbouring chunks, and it opens and closes with a newline. `Prompt.Compose` is this with the Samuel persona; the readers `QuestionOf`/`ContextOf` below are its inverses. |
| Prompt.Locate | main.py:50-66 | The prompt opens with a newline and the style block starts right after it. Its "¡Viva Bolivia!" instruction, the joined context, the query and the closing persona line follow in that order, and the prompt's one remaining character after the closing line is a newline. |
| Prompt.SamuelPromptOrder | main.py:57-65 | In Samuel's prompt, "¡Viva Bolivia!" comes before the context, the context before the query, and the query before the closing "Respuesta como Samuel Doria Medina:" line. |
| Prompt.ChunkInPrompt | main.py:49-63 | Each chunk, including the only one of a one-chunk list, occurs in the prompt at its place in the context section, before the query. |
| Prompt.ChunksInPromptOrder | main.py:49-63 | For any two chunks i < j, both occur at their places in the context section, chunk i and a blank line end before chunk j begins, and both come before the query. |
| Prompt.EmptyContextShape | main.py:49-66 | With no chunks the prompt is the prefix, the question heading, the query and the closing trailer, with nothing in the context section. |
| Prompt.EmptyContextPrompt | main.py:49-63 | With no chunks the style block and the literal query are still present, and the context heading is followed directly by the question heading with no placeholder. |
| Prompt.QuestionRoundTrip | main.py:48-66 | The query can be read back from any composed prompt once the joined context is known. |
| Prompt.ContextRoundTrip | main.py:48-66 | The joined context can be read back from any composed prompt once the query is known. |
| Prompt.QuestionOfOnlyTemplate | main.py:50-66 | A prompt the question reader accepts is exactly prefix, context, question heading, query and trailer, in that order. |
| Prompt.ContextOfOnlyTemplate | main.py:50-66 | A prompt the context reader accepts is exactly prefix, context, question heading, query and trailer, in that order. |
| Prompt.ComposeSeparatesQueries | main.py:48-66 | For the same chunks, two prompts are equal exactly when the queries are equal. |
| Prompt.ComposeSeparatesContexts | main.py:48-66 | For the same query, two prompts are equal exactly when the joined contexts are equal. |
| JsonValues.Truthy | main.py:82 | Python's truth test on a parsed JSON value: each of the seven listed falsy values fails it, and `FalsyExactly` proves no other value does. |
| JsonValues.Get | main.py:81 | `payload.get("query")`: a present key gives its stored value, a missing key gives `None`, which is falsy, so a truthy result is always the stored value. |
| JsonValues.FalsyExactly | main.py:82 | A body value fails `if not query` exactly when it is null, false, 0, 0.0, "", [] or {}. |
| Retrieval.ExtractTexts | main.py:46 | On success, one text per result object, in the same order, each that object's `text` property. Otherwise a KeyError naming the first object without one, with every earlier object having one. |
| Retrieval.AsStrings | main.py:49 | On success, the chunks are exactly the string values, in order. Otherwise a TypeError naming the first non-string, with every earlier value a string. |
| Retrieval.SearchSimilarChunks | main.py:37-46 | A search failure is passed through unchanged. After a successful search for the query and limit (five by default), the result is one chunk per object, in order, each that object's text, exactly when every object has a text. Otherwise it is a KeyError naming the first object without one. |
| Retrieval.RespondAsSamuel | main.py:68-76 | A failed search at limit six is the responder's failure. When every object of a successful search carries a string text, the responder's result is the completion of the Samuel prompt composed from those texts, in order, and the query. |
| Retrieval.RespondComposesNearestSix | main.py:68-70 | When the objects the search returns for limit six all carry string texts, the responder's result is the completion of the prompt composed from exactly those texts and the query. |
| Retrieval.RespondStopsBeforeCompletion | main.py:68-70 | A search failure stops the responder with the search's own fault. A missing text stops it with the KeyError naming the first object without one, and a non-string text with the TypeError naming the first non-string. In each case the completion service cannot affect the result. |
| Retrieval.RespondUsesOnlyTopSix | main.py:69 | Two searches that agree on the call with limit six give the responder the same result, so the responder consults the search with limit six only. |
| Retrieval.ContextWithinTopK | main.py:37-43 | If the search honours its limit, the default search yields at most five chunks, and the search at the responder's limit of six (main.py:69) at most six. |
| Endpoint.Respond | main.py:80-84 | The request is rejected with 400 and the fixed detail exactly when `query` is missing or falsy. Otherwise the reply's only key is `response`, holding the responder's answer, or the responder's exception passes through. |
| Endpoint.RejectionIgnoresResponder | main.py:81-83 | A rejected request gets the same reply whatever the responder, so the responder is never invoked. |
| Endpoint.RejectedExactlyWhenFalsy | main.py:81-83 | A request is rejected exactly when the body has no `query` key or its value is one of the seven falsy JSON values. |
| Endpoint.TruthyQueryReachesResponder | main.py:84 | With a truthy query, the request is answered exactly when the responder succeeds, with `{"response": answer}`. |
| Endpoint.AnsweredWithComposedPrompt | main.py:68-84 | A non-empty string query whose six nearest objects carry string texts is answered with the completion of the prompt composed from those texts and the query. |

## Left out

- Environment loading and the startup credential check (main.py:10-22): process configuration read from the operating system.
- The Weaviate connection and query builder (main.py:25-29, 39-45): foreign SDK code and a network search. The model sees only the list of result objects the search returns, as the `Search` parameter. How the SDK finds that list in its response, and whether this v4 connection helper supports the v3-style `.query.get(...).do()` chain, is not modelled.
- `get_embedding` and the chat-completion call (main.py:33-35, 71-76): external services with float vectors and non-deterministic output. They are the `Search` and `Completion` parameters.
- `.strip()` on the completion text (main.py:77): it applies to external output and depends on Python's Unicode whitespace rules. `Completion` returns the final answer text.
- FastAPI routing, `async` handling, HTTP serialisation, and the framework's conversion of an uncaught exception into a 500 reply (main.py:31, 79-80). A body that is not a JSON object is refused by the framework before the handler runs, so the payload is modelled as an object.
- What the responder does with a truthy query that is not a string (main.py:84): it is passed unchanged to the embedding call (main.py:34) and appears in the prompt as Python's text form of the value (main.py:63), so JSON `true` becomes `True` and `{"a": 1}` becomes `{'a': 1}`. `Endpoint.Respond` takes the responder as a parameter over any JSON value, and the pipeline model `RespondAsSamuel` covers string queries.
- JSON's non-standard `NaN` and `Infinity` numbers, which Python's parser accepts and treats as truthy: `JReal` holds only finite values.
