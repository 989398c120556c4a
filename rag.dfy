/** The RAG service: turns a restaurant query with optional location and
    budget into a filter dictionary, runs vector, keyword or hybrid retrieval,
    builds a grounding context from the hits and asks a text-generation model
    for the answer. The embedding and generation models are collaborators whose
    calls are counted; the search backend is the adapters' `Backend`. */
module Rag {
  import opened Common
  import opened OpenSearchFilters
  import opened OpenSearchQueries
  import opened HybridFusion
  import FusionProperties

  // ---------------------------------------------------------------------------
  // Constants
  // ---------------------------------------------------------------------------

  /** Radius put into the filter dictionary when a location is given, in km. */
  const SearchRadiusKm: int := 5

  /** The budget band is [budget * 0.7, budget * 1.3], each end truncated. */
  const BudgetLowFactor: real := 0.7
  const BudgetHighFactor: real := 1.3

  /** Weight of the vector score in hybrid mode. */
  const HybridAlpha: real := 0.6

  /** The fixed answer when retrieval found nothing. */
  const NoResultsAnswer: string :=
    "죄송합니다. 조건에 맞는 맛집을 찾을 수 없습니다. 다른 조건으로 다시 검색해보시겠어요?"

  /** What precedes the exception text in the answer of a failed chat. */
  const ErrorAnswerPrefix: string := "처리 중 오류가 발생했습니다: "

  /** The system instruction handed to the generation model with every context. */
  const SystemInstruction: string :=
    "당신은 친절하고 전문적인 맛집 추천 AI 어시스턴트입니다.\n\n"
    + "다음 규칙을 따라주세요:\n"
    + "1. 주어진 맛집 정보만을 바탕으로 추천해주세요\n"
    + "2. 각 맛집의 특징, 메뉴, 가격대를 간단히 설명해주세요\n"
    + "3. 사용자의 위치와 예산을 고려해주세요\n"
    + "4. 친근하고 자연스러운 톤으로 답변해주세요\n"
    + "5. 추천 맛집은 최대 3-5개 정도로 제한해주세요\n"
    + "6. 각 맛집에 대해 간단한 추천 이유를 함께 제공해주세요"

  // ---------------------------------------------------------------------------
  // The filter dictionary
  // ---------------------------------------------------------------------------

  /** Python's `int(x)` on a float: truncation toward zero. */
  function Truncate(x: real): (n: int)
    ensures 0.0 <= x ==> n as real <= x < n as real + 1.0
    ensures x < 0.0 ==> n as real - 1.0 < x <= n as real
  {
    if x >= 0.0 then x.Floor else -((-x).Floor)
  }

  /** `int(budget * 0.7)`. */
  function BudgetMin(budget: int): int
  {
    Truncate(budget as real * BudgetLowFactor)
  }

  /** `int(budget * 1.3)`. */
  function BudgetMax(budget: int): int
  {
    Truncate(budget as real * BudgetHighFactor)
  }

  /** The keys `search_restaurants` may put into the dictionary. */
  predicate SearchKey(key: string)
  {
    key == "lat" || key == "lng" || key == "radius" || key == "budget_min" || key == "budget_max"
  }

  /** The filter dictionary of `search_restaurants`. */
  function SearchFilters(lat: Option<real>, lng: Option<real>, budget: Option<int>): (f: FilterMap)
    // location keys exactly when both coordinates are given (`is not None`), with radius 5
    ensures ("lat" in f) == ("lng" in f) == ("radius" in f) == (lat.Some? && lng.Some?)
    ensures lat.Some? && lng.Some? ==>
              f["lat"] == Num(lat.value) && f["lng"] == Num(lng.value) && f["radius"] == Int(SearchRadiusKm)
    // the budget band exactly when a budget is given
    ensures ("budget_min" in f) == ("budget_max" in f) == budget.Some?
    ensures budget.Some? ==>
              f["budget_min"] == Int(BudgetMin(budget.value)) && f["budget_max"] == Int(BudgetMax(budget.value))
    // nothing else, in particular never a category
    ensures forall key :: key in f ==> SearchKey(key)
    ensures "category" !in f
  {
    var location :=
      if lat.Some? && lng.Some?
      then map["lat" := Num(lat.value), "lng" := Num(lng.value), "radius" := Int(SearchRadiusKm)]
      else map[];
    var band :=
      if budget.Some?
      then map["budget_min" := Int(BudgetMin(budget.value)), "budget_max" := Int(BudgetMax(budget.value))]
      else map[];
    location + band
  }

  /** The dictionary built key by key, as `search_restaurants` does. */
  method BuildSearchFilters(lat: Option<real>, lng: Option<real>, budget: Option<int>)
    returns (filters: FilterMap)
    ensures filters == SearchFilters(lat, lng, budget)
  {
    filters := map[];
    if lat.Some? && lng.Some? {
      filters := filters["lat" := Num(lat.value)];
      filters := filters["lng" := Num(lng.value)];
      filters := filters["radius" := Int(SearchRadiusKm)];
    }
    if budget.Some? {
      filters := filters["budget_min" := Int(Truncate(budget.value as real * BudgetLowFactor))];
      filters := filters["budget_max" := Int(Truncate(budget.value as real * BudgetHighFactor))];
    }
  }

  /** For a non-negative budget the band ends are `7 * budget / 10` and
      `13 * budget / 10` rounded down. */
  lemma BudgetBandDivision(budget: int)
    requires budget >= 0
    ensures BudgetMin(budget) == 7 * budget / 10
    ensures BudgetMax(budget) == 13 * budget / 10
  {
    TruncateOfQuotient(7 * budget);
    TruncateOfQuotient(13 * budget);
    assert budget as real * BudgetLowFactor == (7 * budget) as real / 10.0;
    assert budget as real * BudgetHighFactor == (13 * budget) as real / 10.0;
  }

  lemma TruncateOfQuotient(m: int)
    requires m >= 0
    ensures Truncate(m as real / 10.0) == m / 10
  {
    var q := m / 10;
    assert q as real <= m as real / 10.0 < q as real + 1.0;
  }

  /** Two worked examples: 10000 gives [7000, 13000], 30000 gives [21000, 39000]. */
  lemma BudgetBandExamples()
    ensures BudgetMin(10000) == 7000 && BudgetMax(10000) == 13000
    ensures BudgetMin(30000) == 21000 && BudgetMax(30000) == 39000
  {
    BudgetBandDivision(10000);
    BudgetBandDivision(30000);
  }

  /** The band contains the budget, and is non-empty, exactly when the budget
      is not negative; a negative budget gives a band that matches no price. */
  lemma BudgetBandContainsBudget(budget: int)
    ensures BudgetMin(budget) <= budget <= BudgetMax(budget) <==> budget >= 0
    ensures BudgetMin(budget) <= BudgetMax(budget) <==> budget >= 0
  {
    var lo, hi := budget as real * BudgetLowFactor, budget as real * BudgetHighFactor;
    if budget >= 0 {
      assert lo <= budget as real <= hi;
      assert BudgetMin(budget) as real <= lo;
      assert budget as real < BudgetMax(budget) as real + 1.0;
    } else {
      assert budget as real < lo;
      assert BudgetMin(budget) as real >= lo;
      if budget == -1 {
        assert BudgetMin(budget) == 0 && BudgetMax(budget) == -1;
      } else {
        assert hi + 1.0 <= lo;
        assert BudgetMax(budget) as real < hi + 1.0;
      }
    }
  }

  /** The clauses the adapters build from this dictionary: a geo clause with
      radius 5 when both coordinates are given, a two-sided price range when a
      budget is, and never a category term. */
  lemma SearchFilterClauses(lat: Option<real>, lng: Option<real>, budget: Option<int>)
    ensures FilterClauses(SearchFilters(lat, lng, budget))
            == (if lat.Some? && lng.Some? then [GeoDistance(Int(SearchRadiusKm), Num(lat.value), Num(lng.value))] else [])
               + (if budget.Some?
                  then [PriceRange(Some(Int(BudgetMin(budget.value))), Some(Int(BudgetMax(budget.value))))]
                  else [])
  {
  }

  // ---------------------------------------------------------------------------
  // Collaborators
  // ---------------------------------------------------------------------------

  /** The embedding model: a call that returns a vector or raises, and the
      number of calls made. */
  class EmbeddingClient {
    const embed: string -> Result<seq<real>>
    var calls: nat

    constructor (embed: string -> Result<seq<real>>)
      ensures this.embed == embed && calls == 0
    {
      this.embed := embed;
      calls := 0;
    }

    /** `get_embedding`: any failure is re-raised to the caller. */
    method GetEmbedding(text: string) returns (r: Result<seq<real>>)
      modifies this
      ensures calls == old(calls) + 1
      ensures r == embed(text)
    {
      calls := calls + 1;
      r := embed(text);
    }
  }

  /** The text-generation model: a call on (question, context, instruction)
      that returns an answer or raises, and the number of calls made. */
  class GenerationClient {
    const generate: (string, seq<ContextPart>, string) -> Result<string>
    var calls: nat

    constructor (generate: (string, seq<ContextPart>, string) -> Result<string>)
      ensures this.generate == generate && calls == 0
    {
      this.generate := generate;
      calls := 0;
    }

    /** `generate_with_context`. */
    method GenerateWithContext(userQuery: string, context: seq<ContextPart>, systemInstruction: string)
      returns (r: Result<string>)
      modifies this
      ensures calls == old(calls) + 1
      ensures r == generate(userQuery, context, systemInstruction)
    {
      calls := calls + 1;
      r := generate(userQuery, context, systemInstruction);
    }
  }

  // ---------------------------------------------------------------------------
  // The grounding context
  // ---------------------------------------------------------------------------

  /** One part of the context, before it is rendered and joined with newlines.
      An absent restaurant attribute (`None`) is printed as a placeholder. */
  datatype ContextPart =
    | LocationLine(lat: real, lng: real)
    | BudgetLine(budget: int)
    | ResultsHeading
    | RestaurantBlock(index: nat, name: Option<Value>, category: Option<Value>, location: Option<Value>,
                      price: Option<Value>, description: Option<Value>, menu: Option<Value>,
                      rating: Option<Value>, score: real)

  /** The block of the `index`-th result. */
  function Block(index: nat, hit: Hit): ContextPart
  {
    RestaurantBlock(index, Lookup(hit.data, "name"), Lookup(hit.data, "category"),
                    Lookup(hit.data, "location"), Lookup(hit.data, "price"),
                    Lookup(hit.data, "description"), Lookup(hit.data, "menu"),
                    Lookup(hit.data, "rating"), hit.score)
  }

  /** Python truthiness of an optional number: given and not zero. */
  predicate Truthy(x: Option<real>)
  {
    x.Some? && x.value != 0.0
  }

  predicate TruthyBudget(x: Option<int>)
  {
    x.Some? && x.value != 0
  }

  /** The lines about the user that precede the results. */
  function UserLines(lat: Option<real>, lng: Option<real>, budget: Option<int>): seq<ContextPart>
  {
    (if Truthy(lat) && Truthy(lng) then [LocationLine(lat.value, lng.value)] else [])
    + (if TruthyBudget(budget) then [BudgetLine(budget.value)] else [])
  }

  /** One block per result, numbered from 1, in input order. */
  function Blocks(results: seq<Hit>): (r: seq<ContextPart>)
    ensures |r| == |results|
    ensures forall i :: 0 <= i < |r| ==> r[i] == Block(i + 1, results[i])
    decreases |results|
  {
    if results == [] then []
    else Blocks(results[..|results| - 1]) + [Block(|results|, results[|results| - 1])]
  }

  /** The context of `_build_context`. */
  function Context(results: seq<Hit>, lat: Option<real>, lng: Option<real>, budget: Option<int>)
    : (parts: seq<ContextPart>)
    // user lines, one heading, then exactly one block per result, numbered from 1 in input order
    ensures |parts| == |UserLines(lat, lng, budget)| + 1 + |results|
    ensures parts[|parts| - |results| - 1] == ResultsHeading
    ensures forall i :: 0 <= i < |results| ==> parts[|parts| - |results| + i] == Block(i + 1, results[i])
    ensures forall i :: 0 <= i < |parts| - |results| ==> !parts[i].RestaurantBlock?
  {
    UserLines(lat, lng, budget) + [ResultsHeading] + Blocks(results)
  }

  /** A location line exactly when both coordinates are truthy (so a 0.0
      coordinate drops it, unlike the `is not None` test of the filters), and a
      budget line exactly when the budget is truthy. */
  lemma ContextUserLines(results: seq<Hit>, lat: Option<real>, lng: Option<real>, budget: Option<int>)
    ensures (exists p :: p in Context(results, lat, lng, budget) && p.LocationLine?) <==> Truthy(lat) && Truthy(lng)
    ensures (exists p :: p in Context(results, lat, lng, budget) && p.BudgetLine?) <==> TruthyBudget(budget)
  {
    var parts := Context(results, lat, lng, budget);
    var user, blocks := UserLines(lat, lng, budget), Blocks(results);
    assert parts == user + [ResultsHeading] + blocks;
    forall p | p in parts && (p.LocationLine? || p.BudgetLine?) ensures p in user {
      var i :| 0 <= i < |parts| && parts[i] == p;
    }
    if Truthy(lat) && Truthy(lng) {
      assert parts[0] == user[0];
    }
    if TruthyBudget(budget) {
      assert parts[|user| - 1] == user[|user| - 1];
    }
  }

  /** `_build_context`: appends the user lines, the heading and one block per
      result in an enumerate loop. */
  method BuildContext(results: seq<Hit>, lat: Option<real>, lng: Option<real>, budget: Option<int>)
    returns (parts: seq<ContextPart>)
    ensures parts == Context(results, lat, lng, budget)
  {
    parts := [];
    if lat.Some? && lat.value != 0.0 && lng.Some? && lng.value != 0.0 {
      parts := parts + [LocationLine(lat.value, lng.value)];
    }
    if budget.Some? && budget.value != 0 {
      parts := parts + [BudgetLine(budget.value)];
    }
    parts := parts + [ResultsHeading];
    ghost var head := parts;
    assert head == UserLines(lat, lng, budget) + [ResultsHeading];
    for idx := 0 to |results|
      invariant parts == head + Blocks(results[..idx])
    {
      assert results[..idx + 1][..idx] == results[..idx];
      parts := parts + [Block(idx + 1, results[idx])];
    }
    assert results[..|results|] == results;
  }

  // ---------------------------------------------------------------------------
  // Responses
  // ---------------------------------------------------------------------------

  /** One entry of `search_results`: `r['data'].get(...)` is null when absent. */
  datatype ResultSummary = ResultSummary(name: Value, category: Value, location: Value,
                                         price: Value, rating: Value, score: real)

  datatype Metadata =
    | RequestMetadata(query: string, lat: Option<real>, lng: Option<real>, budget: Option<int>, numResults: nat)
    | ErrorMetadata(error: string)

  datatype ChatResponse = ChatResponse(answer: string, searchResults: seq<ResultSummary>, metadata: Metadata)

  function GetOrNull(d: Data, key: string): Value
  {
    if key in d then d[key] else Null
  }

  function Summarize(hit: Hit): ResultSummary
  {
    ResultSummary(GetOrNull(hit.data, "name"), GetOrNull(hit.data, "category"), GetOrNull(hit.data, "location"),
                  GetOrNull(hit.data, "price"), GetOrNull(hit.data, "rating"), hit.score)
  }

  /** The `search_results` list comprehension: one summary per hit, in order. */
  function Summaries(results: seq<Hit>): (r: seq<ResultSummary>)
    ensures |r| == |results|
    ensures forall i :: 0 <= i < |r| ==> r[i] == Summarize(results[i])
  {
    seq(|results|, i requires 0 <= i < |results| => Summarize(results[i]))
  }

  /** The response of the catch-all handler. */
  function ErrorResponse(error: string): ChatResponse
  {
    ChatResponse(ErrorAnswerPrefix + error, [], ErrorMetadata(error))
  }

  /** What `chat` returns, given the collaborators' behaviour. */
  function ChatReply(embed: string -> Result<seq<real>>, generate: (string, seq<ContextPart>, string) -> Result<string>,
                     backend: Backend, query: string, lat: Option<real>, lng: Option<real>, budget: Option<int>, k: int)
    : ChatResponse
  {
    match embed(query)
    case Failure(e) => ErrorResponse(e)
    case Success(v) =>
      var hits := HybridResults(backend, query, v, k, Some(SearchFilters(lat, lng, budget)), HybridAlpha);
      var answer :=
        if hits == [] then Success(NoResultsAnswer)
        else generate(query, Context(hits, lat, lng, budget), SystemInstruction);
      match answer
      case Failure(e) => ErrorResponse(e)
      case Success(a) => ChatResponse(a, Summaries(hits), RequestMetadata(query, lat, lng, budget, |hits|))
  }

  // ---------------------------------------------------------------------------
  // The service
  // ---------------------------------------------------------------------------

  class RagService {
    const embedder: EmbeddingClient
    const backend: Backend
    const generator: GenerationClient

    constructor (embedder: EmbeddingClient, backend: Backend, generator: GenerationClient)
      ensures this.embedder == embedder && this.backend == backend && this.generator == generator
    {
      this.embedder := embedder;
      this.backend := backend;
      this.generator := generator;
    }

    /** `search_restaurants`: fills the filter dictionary key by key, then
        dispatches on the search type; any type other than "vector" and "text"
        is hybrid. Only the embedding call can raise. */
    method SearchRestaurants(query: string, lat: Option<real>, lng: Option<real>, budget: Option<int>,
                             k: int, searchType: string)
      returns (r: Result<seq<Hit>>)
      modifies embedder
      ensures searchType == "text" ==> embedder.calls == old(embedder.calls)
      ensures searchType != "text" ==> embedder.calls == old(embedder.calls) + 1
      ensures var filters := Some(SearchFilters(lat, lng, budget));
              if searchType == "text" then r == Success(TextSearch(backend, query, k, filters))
              else match embedder.embed(query)
                case Failure(e) => r == Failure(e)
                case Success(v) =>
                  if searchType == "vector" then r == Success(VectorSearch(backend, v, k, filters))
                  else r == Success(HybridResults(backend, query, v, k, filters, HybridAlpha))
    {
      var filters := BuildSearchFilters(lat, lng, budget);

      if searchType == "vector" {
        var queryVector := embedder.GetEmbedding(query);
        if queryVector.Failure? {
          return Failure(queryVector.error);
        }
        var results := SearchByVector(backend, queryVector.value, k, Some(filters));
        r := Success(results);
      } else if searchType == "text" {
        var results := SearchByText(backend, query, k, Some(filters));
        r := Success(results);
      } else {
        var queryVector := embedder.GetEmbedding(query);
        if queryVector.Failure? {
          return Failure(queryVector.error);
        }
        var results := HybridSearch(backend, query, queryVector.value, k, Some(filters), HybridAlpha);
        r := Success(results);
      }
    }

    /** `generate_answer`: the fixed answer, without calling the model, when
        there are no results; otherwise the model's answer on the context. */
    method GenerateAnswer(userQuery: string, results: seq<Hit>, lat: Option<real>, lng: Option<real>,
                          budget: Option<int>)
      returns (answer: Result<string>)
      modifies generator
      ensures results == [] ==> answer == Success(NoResultsAnswer) && generator.calls == old(generator.calls)
      ensures results != [] ==>
                generator.calls == old(generator.calls) + 1
                && answer == generator.generate(userQuery, Context(results, lat, lng, budget), SystemInstruction)
    {
      if results == [] {
        return Success(NoResultsAnswer);
      }
      var context := BuildContext(results, lat, lng, budget);
      answer := generator.GenerateWithContext(userQuery, context, SystemInstruction);
    }

    /** `chat`: hybrid retrieval, then the answer; any exception becomes an
        error response, so the call itself never raises. */
    method Chat(query: string, lat: Option<real>, lng: Option<real>, budget: Option<int>, k: int)
      returns (response: ChatResponse)
      requires embedder != generator as object
      modifies embedder, generator
      ensures embedder.calls == old(embedder.calls) + 1
      ensures generator.calls == old(generator.calls) +
                (match embedder.embed(query)
                 case Failure(_) => 0
                 case Success(v) =>
                   if HybridResults(backend, query, v, k, Some(SearchFilters(lat, lng, budget)), HybridAlpha) == []
                   then 0 else 1)
      ensures response == ChatReply(embedder.embed, generator.generate, backend, query, lat, lng, budget, k)
    {
      var searchResults := SearchRestaurants(query, lat, lng, budget, k, "hybrid");
      if searchResults.Failure? {
        return ErrorResponse(searchResults.error);
      }
      var hits := searchResults.value;
      var answer := GenerateAnswer(query, hits, lat, lng, budget);
      if answer.Failure? {
        return ErrorResponse(answer.error);
      }
      response := ChatResponse(answer.value, Summaries(hits), RequestMetadata(query, lat, lng, budget, |hits|));
    }
  }

  // ---------------------------------------------------------------------------
  // Properties of chat
  // ---------------------------------------------------------------------------

  /** A failed chat carries the error text in its answer and metadata and no
      results; a successful one lists one summary per retrieved hit, in
      retrieval order, as many as `num_results` says and never more than `k`,
      with the fixed apology when there is none and the model's answer
      otherwise. */
  lemma ChatReplyShape(embed: string -> Result<seq<real>>, generate: (string, seq<ContextPart>, string) -> Result<string>,
                       backend: Backend, query: string, lat: Option<real>, lng: Option<real>, budget: Option<int>, k: int)
    ensures var r := ChatReply(embed, generate, backend, query, lat, lng, budget, k);
            && (r.metadata.ErrorMetadata? ==>
                  r.answer == ErrorAnswerPrefix + r.metadata.error && r.searchResults == [])
            && (r.metadata.RequestMetadata? ==>
                  |r.searchResults| == r.metadata.numResults
                  && r.metadata.query == query
                  && (k >= 0 ==> r.metadata.numResults <= k))
            && (r.metadata.RequestMetadata? ==>
                  embed(query).Success?
                  && var hits := HybridResults(backend, query, embed(query).value, k,
                                               Some(SearchFilters(lat, lng, budget)), HybridAlpha);
                     r.searchResults == Summaries(hits) && r.metadata.numResults == |hits|
                     && (hits == [] ==> r.answer == NoResultsAnswer)
                     && (hits != [] ==> generate(query, Context(hits, lat, lng, budget), SystemInstruction)
                                          == Success(r.answer)))
  {
    ChatReplyCases(embed, generate, backend, query, lat, lng, budget, k);
    if embed(query).Success? {
      var filters := Some(SearchFilters(lat, lng, budget));
      var v := embed(query).value;
      FusionProperties.FuseLength(VectorSearch(backend, v, k * 2, filters), TextSearch(backend, query, k * 2, filters),
                                  HybridAlpha, k);
    }
  }

  /** The reply is the error response of the first failure, or the answer
      with the summaries of the retrieved hits. */
  lemma ChatReplyCases(embed: string -> Result<seq<real>>, generate: (string, seq<ContextPart>, string) -> Result<string>,
                       backend: Backend, query: string, lat: Option<real>, lng: Option<real>, budget: Option<int>, k: int)
    ensures var r := ChatReply(embed, generate, backend, query, lat, lng, budget, k);
            || (r.metadata.ErrorMetadata? && r == ErrorResponse(r.metadata.error))
            || (embed(query).Success?
                && var hits := HybridResults(backend, query, embed(query).value, k,
                                             Some(SearchFilters(lat, lng, budget)), HybridAlpha);
                   r == ChatResponse(r.answer, Summaries(hits), RequestMetadata(query, lat, lng, budget, |hits|))
                   && (hits == [] ==> r.answer == NoResultsAnswer)
                   && (hits != [] ==> generate(query, Context(hits, lat, lng, budget), SystemInstruction)
                                        == Success(r.answer)))
  {
    var r := ChatReply(embed, generate, backend, query, lat, lng, budget, k);
    match embed(query)
    case Failure(e) =>
      assert r == ErrorResponse(e);
    case Success(v) =>
      var hits := HybridResults(backend, query, v, k, Some(SearchFilters(lat, lng, budget)), HybridAlpha);
      var answer := if hits == [] then Success(NoResultsAnswer)
                    else generate(query, Context(hits, lat, lng, budget), SystemInstruction);
      match answer
      case Failure(e) =>
        assert r == ErrorResponse(e);
      case Success(a) =>
        assert r == ChatResponse(a, Summaries(hits), RequestMetadata(query, lat, lng, budget, |hits|));
  }

  /** An embedding failure ends the chat before retrieval, with that error. */
  lemma ChatEmbeddingFailure(embed: string -> Result<seq<real>>, generate: (string, seq<ContextPart>, string) -> Result<string>,
                             backend: Backend, query: string, lat: Option<real>, lng: Option<real>, budget: Option<int>, k: int)
    requires embed(query).Failure?
    ensures ChatReply(embed, generate, backend, query, lat, lng, budget, k) == ErrorResponse(embed(query).error)
  {
  }

  /** No hits: the fixed answer, no results, zero in the metadata. */
  lemma ChatNoResults(embed: string -> Result<seq<real>>, generate: (string, seq<ContextPart>, string) -> Result<string>,
                      backend: Backend, query: string, lat: Option<real>, lng: Option<real>, budget: Option<int>, k: int)
    requires embed(query).Success?
    requires HybridResults(backend, query, embed(query).value, k, Some(SearchFilters(lat, lng, budget)), HybridAlpha) == []
    ensures ChatReply(embed, generate, backend, query, lat, lng, budget, k)
            == ChatResponse(NoResultsAnswer, [], RequestMetadata(query, lat, lng, budget, 0))
  {
  }
}
