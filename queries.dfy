/** The two search adapters of the OpenSearch client: each builds a request
    body (wrapped in a bool/filter query only when there are filters), sends it
    to the backend, and turns the backend's hits into `{id, score, data}`. Any
    exception inside an adapter is swallowed and yields an empty list. */
module OpenSearchQueries {
  import opened Common
  import opened OpenSearchFilters

  /** The index every request goes to. */
  const IndexName: string := "restaurants"

  /** Fields of the keyword query, with their boosts. */
  const TextFields: seq<string> := ["name^3", "description^2", "category", "location"]

  /** The unfiltered query an adapter starts from. */
  datatype BaseQuery =
    | Knn(vector: seq<real>, k: int)                                      // on field `embedding`
    | MultiMatch(text: string, fields: seq<string>, matchType: string)

  /** The `query` member of a request body. */
  datatype Query =
    | Plain(base: BaseQuery)
    | BoolQuery(must: seq<BaseQuery>, filter: seq<Clause>)

  /** A request body: `{size, query}`. */
  datatype Body = Body(size: int, query: Query)

  /** A backend hit; a missing `_id`, `_score` or `_source` is `None`. */
  datatype RawHit = RawHit(id: Option<string>, score: Option<real>, source: Option<Data>)

  /** What `client.search` does: raises, or answers with its `hits.hits` list. */
  datatype SearchResponse = Raised(message: string) | Response(hits: seq<RawHit>)

  /** `client.search(index=..., body=...)`, an external service that may fail. */
  type Backend = (string, Body) -> SearchResponse

  /** Python truthiness of the optional filter dictionary (`if filters:`). */
  predicate HasFilters(filters: Option<FilterMap>)
  {
    filters.Some? && filters.value != map[]
  }

  /** The body sent for a base query: the base query alone when there are no
      filters, otherwise a bool query with the base query as its single `must`. */
  function QueryBody(base: BaseQuery, k: int, filters: Option<FilterMap>): (b: Body)
    ensures b.size == k
    ensures !HasFilters(filters) <==> b.query == Plain(base)
    ensures HasFilters(filters) ==> b.query == BoolQuery([base], FilterClauses(filters.value))
  {
    if HasFilters(filters) then Body(k, BoolQuery([base], FilterClauses(filters.value))) else Body(k, Plain(base))
  }

  /** The base query inside a body: recovers the base query that `QueryBody` wrapped. */
  function BaseOf(b: Body): Option<BaseQuery>
  {
    match b.query
    case Plain(q) => Some(q)
    case BoolQuery(must, _) => if |must| == 1 then Some(must[0]) else None
  }

  /** The filter clauses inside a body; none for a plain query. */
  function FiltersOf(b: Body): seq<Clause>
  {
    match b.query
    case Plain(_) => []
    case BoolQuery(_, filter) => filter
  }

  /** Wrapping never loses the base query, and the filter list is exactly the
      clauses built from the dictionary (empty when there is none). */
  lemma QueryBodyRoundTrip(base: BaseQuery, k: int, filters: Option<FilterMap>)
    ensures BaseOf(QueryBody(base, k, filters)) == Some(base)
    ensures FiltersOf(QueryBody(base, k, filters)) == if filters.Some? then FilterClauses(filters.value) else []
  {
    if filters.Some? && filters.value == map[] {
      GeoClauseIff(filters.value);
      PriceClauseIff(filters.value);
      CategoryClauseIff(filters.value);
      assert FilterClauses(filters.value) == [];
    }
  }

  /** The k-NN query of the vector adapter. */
  function VectorBody(vector: seq<real>, k: int, filters: Option<FilterMap>): Body
  {
    QueryBody(Knn(vector, k), k, filters)
  }

  /** The best-fields multi-match query of the keyword adapter. */
  function TextBody(text: string, k: int, filters: Option<FilterMap>): Body
  {
    QueryBody(MultiMatch(text, TextFields, "best_fields"), k, filters)
  }

  /** A backend hit that has all three keys parses without raising. */
  predicate Complete(h: RawHit)
  {
    h.id.Some? && h.score.Some? && h.source.Some?
  }

  function ToHit(h: RawHit): Hit
    requires Complete(h)
  {
    Hit(h.id.value, h.score.value, h.source.value)
  }

  /** What an adapter returns for a backend answer: one hit per backend hit,
      in order, or nothing at all when the call raised or a hit lacks a key. */
  function Parsed(resp: SearchResponse): (r: seq<Hit>)
    ensures resp.Raised? ==> r == []
    ensures resp.Response? && (forall i :: 0 <= i < |resp.hits| ==> Complete(resp.hits[i])) ==>
              |r| == |resp.hits| && forall i :: 0 <= i < |r| ==> r[i] == ToHit(resp.hits[i])
    ensures resp.Response? && (exists i :: 0 <= i < |resp.hits| && !Complete(resp.hits[i])) ==> r == []
  {
    match resp
    case Raised(_) => []
    case Response(raw) =>
      if forall i :: 0 <= i < |raw| ==> Complete(raw[i])
      then seq(|raw|, i requires 0 <= i < |raw| => ToHit(raw[i]))
      else []
  }

  /** The result of `search_by_vector`. */
  function VectorSearch(backend: Backend, vector: seq<real>, k: int, filters: Option<FilterMap>): seq<Hit>
  {
    Parsed(backend(IndexName, VectorBody(vector, k, filters)))
  }

  /** The result of `search_by_text`. */
  function TextSearch(backend: Backend, text: string, k: int, filters: Option<FilterMap>): seq<Hit>
  {
    Parsed(backend(IndexName, TextBody(text, k, filters)))
  }

  /** Parses the backend's hit list one hit at a time; a missing key raises,
      which the adapter turns into an empty result. */
  method ParseHits(raw: seq<RawHit>) returns (results: seq<Hit>)
    ensures results == Parsed(Response(raw))
  {
    results := [];
    var i := 0;
    while i < |raw|
      invariant 0 <= i <= |raw|
      invariant forall j :: 0 <= j < i ==> Complete(raw[j])
      invariant |results| == i
      invariant forall j :: 0 <= j < i ==> results[j] == ToHit(raw[j])
    {
      var hit := raw[i];
      if !Complete(hit) {
        return [];   // KeyError inside the try block
      }
      results := results + [ToHit(hit)];
      i := i + 1;
    }
  }

  /** Sends the body; a raised call becomes an empty result. */
  method Execute(backend: Backend, body: Body) returns (results: seq<Hit>)
    ensures results == Parsed(backend(IndexName, body))
  {
    var response := backend(IndexName, body);
    match response
    case Raised(_) =>
      results := [];
    case Response(raw) =>
      results := ParseHits(raw);
  }

  /** `search_by_vector`: a k-NN query on the embedding, filtered when filters are given. */
  method SearchByVector(backend: Backend, queryVector: seq<real>, k: int, filters: Option<FilterMap>)
    returns (results: seq<Hit>)
    ensures results == VectorSearch(backend, queryVector, k, filters)
  {
    var query := Body(k, Plain(Knn(queryVector, k)));
    if HasFilters(filters) {
      var clauses := BuildFilters(filters.value);
      query := query.(query := BoolQuery([Knn(queryVector, k)], clauses));
    }
    results := Execute(backend, query);
  }

  /** `search_by_text`: a boosted multi-field keyword query, filtered when filters are given. */
  method SearchByText(backend: Backend, queryText: string, k: int, filters: Option<FilterMap>)
    returns (results: seq<Hit>)
    ensures results == TextSearch(backend, queryText, k, filters)
  {
    var query := Body(k, Plain(MultiMatch(queryText, TextFields, "best_fields")));
    if HasFilters(filters) {
      var clauses := BuildFilters(filters.value);
      query := query.(query := BoolQuery([query.query.base], clauses));
    }
    results := Execute(backend, query);
  }
}
