# Restaurant RAG retrieval core, in Dafny

This project models the retrieval core of a restaurant-recommendation service
built on retrieval-augmented generation (RAG). A user's query, with an optional
location and budget, becomes a filter dictionary. A search mode is then chosen:
vector (k-NN on an embedding), keyword (boosted multi-match) or hybrid. The
hits are parsed into `{id, score, data}` records. In hybrid mode, vector and
keyword hits are fused into one list ranked by a weighted score. The service
then builds a grounding context from the hits and asks a text-generation model
for the answer. A catch-all turns any failure into an error response.

Modules:

- `Common`: filter values, hits, `Option` and `Result`.
- `OpenSearchFilters`: `_build_filters`, which turns a filter dictionary into
  geo-distance, price-range and category clauses.
- `OpenSearchQueries`: request bodies, with the bool/filter wrapping used only
  when filters are present; hit parsing; and the two adapters. The search
  backend is a function parameter that either answers with hits or raises.
- `HybridFusion`: `hybrid_search` as imperative code. The insertion-ordered
  dictionary is an id order plus a map. Two loops update it in place, then
  the entries are stably sorted by descending score and sliced as Python's
  `[:k]` does.
- `FusionProperties`: an independent description of the fused list. It holds
  the distinct ids in first-appearance order, each scored by where the id
  occurs. It also holds the lemmas that tie the dictionary, the sort and the
  cut to that description.
- `Rag`: the RAG service.
  - The filter dictionary and its budget band.
  - The embedding and generation models, as classes with call counters whose
    calls may fail.
  - The context structure.
  - Dispatch on the search type, `generate_answer` and `chat`.

Three behaviours of the code are easy to misread; the model follows the code:

- The budget band is `int(budget * 0.7)` and `int(budget * 1.3)`, which is
  truncation toward zero, not floor. The two differ only for a negative
  budget (`Rag.Truncate`).
- A vector hit whose id was already seen overwrites that entry's score and
  data, so the last one wins. It neither accumulates nor keeps the first data.
  The id keeps its first position in the dictionary.
- Ties in the sort keep the dictionary's insertion order, because Python's
  `sorted` is stable. This order is vector ids first, then keyword-only ids.

## Model

| member | source | states |
|---|---|---|
| OpenSearchFilters.FilterClauses | ai-server/app/services/opensearch_client.py:173-203 | at most three clauses, always in the order geo, price, category |
| OpenSearchFilters.GeoClauseIff | ai-server/app/services/opensearch_client.py:176-186 | a geo clause is emitted iff both `lat` and `lng` are keys; it carries them and `radius`, defaulting to 5 |
| OpenSearchFilters.PriceClauseIff | ai-server/app/services/opensearch_client.py:189-195 | a price range is emitted iff `budget_min` or `budget_max` is a key; `gte` and `lte` are set only for the keys present |
| OpenSearchFilters.CategoryClauseIff | ai-server/app/services/opensearch_client.py:198-201 | a term clause is emitted iff `category` is a key, and it carries that value |
| OpenSearchFilters.BuildFilters | ai-server/app/services/opensearch_client.py:160-203 | the appending builder, which fills the range bounds key by key, returns exactly `FilterClauses` |
| OpenSearchQueries.QueryBody | ai-server/app/services/opensearch_client.py:47-75 | `size` is k; the body is the plain base query iff filters are None or empty; otherwise it is a bool query whose single `must` is the base query and whose `filter` is the built clauses |
| OpenSearchQueries.QueryBodyRoundTrip | ai-server/app/services/opensearch_client.py:129-136 | the base query can always be recovered from the body; the filter list is the built clauses, and empty when there is no dictionary |
| OpenSearchQueries.Parsed | ai-server/app/services/opensearch_client.py:84-97 | a raised call gives []; when every hit has `_id`, `_score` and `_source`, the result is one hit per backend hit, in order; a hit missing a key gives [] |
| OpenSearchQueries.ParseHits | ai-server/app/services/opensearch_client.py:84-91 | the appending loop returns exactly `Parsed`, stopping at a missing key |
| OpenSearchQueries.Execute | ai-server/app/services/opensearch_client.py:77-97 | sends the body to the `restaurants` index; an exception becomes [] |
| OpenSearchQueries.SearchByVector | ai-server/app/services/opensearch_client.py:45-97 | the result is the parse of the backend's answer to the k-NN body built by `QueryBody` |
| OpenSearchQueries.SearchByText | ai-server/app/services/opensearch_client.py:116-158 | the result is the parse of the backend's answer to the boosted best-fields multi-match body built by `QueryBody` |
| HybridFusion.SetVectorWellFormed | ai-server/app/services/opensearch_client.py:233-238 | one vector assignment keeps the dictionary well-formed: keys listed once, in insertion order |
| HybridFusion.AddTextWellFormed | ai-server/app/services/opensearch_client.py:240-248 | one keyword update keeps the dictionary well-formed |
| HybridFusion.VectorPhaseWellFormed | ai-server/app/services/opensearch_client.py:231-238 | the vector loop, started from `{}`, leaves every key listed once, in insertion order |
| HybridFusion.TextPhaseWellFormed | ai-server/app/services/opensearch_client.py:240-248 | the keyword loop keeps a well-formed dictionary well-formed |
| HybridFusion.CombineWellFormed | ai-server/app/services/opensearch_client.py:231-248 | the dictionary after both loops is well-formed, so its items can be listed |
| HybridFusion.CombineVector | ai-server/app/services/opensearch_client.py:231-238 | the vector loop, which assigns entries in place, builds exactly the dictionary `VectorPhase` describes |
| HybridFusion.CombineText | ai-server/app/services/opensearch_client.py:240-248 | the keyword loop, which adds to entries in place or creates them, builds exactly the dictionary `TextPhase` describes |
| HybridFusion.SortByScore | ai-server/app/services/opensearch_client.py:251-255 | the sort is a permutation of its input |
| HybridFusion.SortSorted | ai-server/app/services/opensearch_client.py:251-255 | the sorted scores are non-increasing |
| HybridFusion.SortStable | ai-server/app/services/opensearch_client.py:251-255 | for every score, the items carrying it keep their input order |
| HybridFusion.SliceTo | ai-server/app/services/opensearch_client.py:260 | `[:k]` is a prefix of length min(k, n) for k >= 0, and max(0, n + k) for negative k |
| HybridFusion.HybridSearch | ai-server/app/services/opensearch_client.py:205-261 | asks both adapters for `k * 2` hits with the same filters, then returns the stable sort of the dictionary its two loops build, cut to k |
| FusionProperties.VectorPhaseKeys | ai-server/app/services/opensearch_client.py:233-238 | after the vector loop, the keys are the distinct vector ids in first-appearance order |
| FusionProperties.VectorPhaseEntry | ai-server/app/services/opensearch_client.py:233-238 | after the vector loop, each id holds its last vector hit's score × alpha and that hit's data |
| FusionProperties.CombineKeys | ai-server/app/services/opensearch_client.py:231-248 | the final keys are the ids of either list, in first-appearance order |
| FusionProperties.CombineEntry | ai-server/app/services/opensearch_client.py:231-248 | each id holds the reference entry: last vector hit × alpha plus all its keyword scores × (1 − alpha), with vector data; a keyword-only id keeps the data of its first keyword hit |
| FusionProperties.FuseCharacterized | ai-server/app/services/opensearch_client.py:231-261 | the dictionary's items are the reference list of fused entries, so the result is the stable sort of that list, cut to k |
| FusionProperties.FirstAppearanceOrder | ai-server/app/services/opensearch_client.py:231-248 | the insertion order is the distinct vector ids followed by the keyword-only ids |
| FusionProperties.FuseLength | ai-server/app/services/opensearch_client.py:257-261 | the result has min(k, number of distinct ids across both lists) entries |
| FusionProperties.FuseOrdered | ai-server/app/services/opensearch_client.py:250-255 | returned scores are non-increasing |
| FusionProperties.FuseEntries | ai-server/app/services/opensearch_client.py:231-261 | ids are distinct; every returned id occurs in an input list and carries its fused score and data |
| FusionProperties.FuseKeepsTop | ai-server/app/services/opensearch_client.py:250-261 | no input id left out of the result scores above a kept entry |
| FusionProperties.FusedAlphaOne | ai-server/app/services/opensearch_client.py:233-248 | with alpha 1.0 a vector id scores its last vector hit's score, with the same entry as without keyword hits, and a keyword-only id scores 0 |
| FusionProperties.FuseAlphaOne | ai-server/app/services/opensearch_client.py:205-261 | with alpha 1.0 the vector ids of the result, with their entries, are a prefix of what fusing the vector list alone returns (for k >= 0), so they keep the vector ranking's relative order |
| FusionProperties.RankedAlphaOne | ai-server/app/services/opensearch_client.py:231-248 | with alpha 1.0, keeping only the vector ids of the reference list gives the reference list of the vector hits alone |
| FusionProperties.KeepSort | ai-server/app/services/opensearch_client.py:250-255 | keeping the hits with given ids commutes with the stable sort |
| FusionProperties.FuseTies | ai-server/app/services/opensearch_client.py:250-255 | among entries with equal score, the result keeps the earliest in first-appearance order, in that order |
| FusionProperties.FusedInBoth | ai-server/app/services/opensearch_client.py:233-248 | an id once in each list scores vector × alpha + keyword × (1 − alpha) and keeps the vector data |
| FusionProperties.FusedVectorOnly | ai-server/app/services/opensearch_client.py:233-238 | an id in the vector list only scores vector × alpha |
| FusionProperties.FusedTextOnly | ai-server/app/services/opensearch_client.py:240-248 | an id in the keyword list only scores keyword × (1 − alpha) and keeps that hit's data |
| FusionProperties.CombineExample | ai-server/app/services/opensearch_client.py:231-248 | vector 0.8 and keyword 0.4 with alpha 0.6 give 0.64 and the vector data; keyword-only 0.5 gives 0.2 |
| FusionProperties.FuseExample | ai-server/app/services/opensearch_client.py:250-261 | the same example is returned in descending order |
| Rag.Truncate | ai-server/app/services/rag_service.py:92-93 | `int()` on a number: the integer next to it toward zero |
| Rag.SearchFilters | ai-server/app/services/rag_service.py:84-93 | `lat`, `lng` and `radius = 5` appear iff both coordinates are not None; the band appears iff a budget is given; no other key, never `category` |
| Rag.BuildSearchFilters | ai-server/app/services/rag_service.py:84-93 | the key-by-key assignments build exactly `SearchFilters` |
| Rag.BudgetBandDivision | ai-server/app/services/rag_service.py:90-93 | for a non-negative budget the band is `7b / 10` and `13b / 10`, rounded down |
| Rag.BudgetBandExamples | ai-server/app/services/rag_service.py:90-93 | 10000 gives 7000 and 13000; 30000 gives 21000 and 39000 |
| Rag.BudgetBandContainsBudget | ai-server/app/services/rag_service.py:90-93 | the band contains the budget, and is non-empty, iff the budget is not negative |
| Rag.SearchFilterClauses | ai-server/app/services/rag_service.py:84-93 | the built clauses are a radius-5 geo clause when both coordinates are given, then a two-sided price range when a budget is; never a category term |
| Rag.EmbeddingClient.GetEmbedding | ai-server/app/services/rag_service.py:22-49 | one model call, counted; a failure is passed on to the caller |
| Rag.GenerationClient.GenerateWithContext | ai-server/app/services/rag_service.py:166-170 | one model call on (question, context, instruction), counted |
| Rag.Context | ai-server/app/services/rag_service.py:193-219 | the user lines, then the heading, then exactly one block per result, numbered from 1 in input order |
| Rag.ContextUserLines | ai-server/app/services/rag_service.py:195-199 | a location line iff both coordinates are truthy, so 0.0 drops it; a budget line iff the budget is truthy |
| Rag.BuildContext | ai-server/app/services/rag_service.py:193-219 | the enumerate loop builds exactly `Context` |
| Rag.Summaries | ai-server/app/services/rag_service.py:265-275 | one summary per hit, in order, with null for a missing attribute |
| Rag.RagService.SearchRestaurants | ai-server/app/services/rag_service.py:60-124 | "text" never embeds and searches by text; "vector" embeds once and searches by vector with the same k; any other type embeds once and runs hybrid search with alpha 0.6; an embedding failure propagates |
| Rag.RagService.GenerateAnswer | ai-server/app/services/rag_service.py:126-172 | no results gives the fixed apology and no generation call; otherwise one call with the built context and the system instruction |
| Rag.RagService.Chat | ai-server/app/services/rag_service.py:221-291 | always hybrid; embeds once; calls the generator only when there are hits; never raises, and returns `ChatReply` |
| Rag.ChatReplyShape | ai-server/app/services/rag_service.py:242-291 | an error response carries the error text and no results; a success comes from a successful embedding and lists exactly the summaries of the hybrid hits, in retrieval order, with `num_results` their count (at most k), the apology when there are none and the model's answer otherwise |
| Rag.ChatReplyCases | ai-server/app/services/rag_service.py:242-291 | the reply is either the error response of a failure or the answer with the summaries and metadata of the retrieved hits |
| Rag.ChatEmbeddingFailure | ai-server/app/services/rag_service.py:285-291 | an embedding failure yields the error answer, empty `search_results` and `{error}` metadata |
| Rag.ChatNoResults | ai-server/app/services/rag_service.py:147-149 | with no hits, chat answers with the apology, no results and `num_results = 0` |

## Left out

- The network clients are not part of this model: the OpenSearch client construction, `client.search`, boto3 and `invoke_model`. `client.search` is a function parameter that answers or raises. The two models are classes whose calls are function fields returning a value or an error.
- Floating point: scores, `alpha` and budgets are exact reals. IEEE rounding, for example of `0.7 * budget` near an integer, can differ from the model.
- Rag.Truncate: does not model the `OverflowError` Python raises when a budget is beyond the float range (`budget * 0.7` itself raises, before any infinite float appears), which makes `search_restaurants` raise and `chat` return its error response; budgets are unbounded integers here.
- Rendering of the context is not modelled: the Korean labels, the `{:.4f}` score format, the `{budget:,}` thousands separator and the newline join. The generator receives the structured parts.
- An embedding response without an `embedding` key, which yields `None`, is not modelled. An embedding is either a vector or a failure.
- The prompt template and request body of the generation client are not part of this model, and neither is anything else in its wrapper module.
- The HTTP routes, application start-up, settings loading, the live test script and the module-level singletons are not part of this model. `RagService` takes its collaborators in its constructor.
- Logging of errors with `print` is left out. It does not change any result.
- FusionProperties.FuseAlphaOne: with alpha 1.0 the fused list is not literally the vector ranking, because keyword-only ids still appear, at score 0, and interleave with vector scores of 0 or below; the lemma states the order of the vector ids only.
- Rag.RagService.SearchRestaurants: in vector and text mode, the result length is whatever the backend returns. The code does not cut it to k, so no bound is stated.
