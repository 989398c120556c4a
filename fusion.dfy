/** Hybrid search of the OpenSearch client: oversample both adapters, fold
    their hits into an insertion-ordered dictionary of weighted scores, sort it
    stably by descending score and keep the first `k` entries. */
module HybridFusion {
  import opened Common
  import opened OpenSearchFilters
  import opened OpenSearchQueries

  // ---------------------------------------------------------------------------
  // The combining dictionary
  // ---------------------------------------------------------------------------

  /** What the dictionary holds per id: the accumulated score and the kept data. */
  datatype Entry = Entry(score: real, data: Data)

  /** An insertion-ordered dictionary id -> entry: its keys in insertion order
      beside the table itself. */
  datatype Combined = Combined(order: seq<string>, entries: map<string, Entry>)

  /** The keys listed in `order` are exactly the keys of the table, each once. */
  ghost predicate WellFormed(c: Combined)
  {
    Distinct(c.order) && forall id :: id in c.entries <==> id in c.order
  }

  /** `combined_scores[id] = {score * alpha, data}` for a vector hit: an id seen
      before keeps its position and gets the new score and data. */
  function SetVector(c: Combined, h: Hit, alpha: real): Combined
  {
    Combined(if h.id in c.entries then c.order else c.order + [h.id],
             c.entries[h.id := Entry(h.score * alpha, h.data)])
  }

  /** A keyword hit: `+= score * (1 - alpha)` on a known id, whose data stays;
      a new entry with this hit's data otherwise. */
  function AddText(c: Combined, h: Hit, alpha: real): Combined
  {
    if h.id in c.entries then
      var e := c.entries[h.id];
      Combined(c.order, c.entries[h.id := Entry(e.score + h.score * (1.0 - alpha), e.data)])
    else
      Combined(c.order + [h.id], c.entries[h.id := Entry(h.score * (1.0 - alpha), h.data)])
  }

  /** The dictionary after the vector loop, starting from `{}`. */
  function VectorPhase(hits: seq<Hit>, alpha: real): Combined
    decreases |hits|
  {
    if hits == [] then Combined([], map[])
    else SetVector(VectorPhase(hits[..|hits| - 1], alpha), hits[|hits| - 1], alpha)
  }

  /** The dictionary after the keyword loop, starting from `c0`. */
  function TextPhase(c0: Combined, hits: seq<Hit>, alpha: real): Combined
    decreases |hits|
  {
    if hits == [] then c0
    else AddText(TextPhase(c0, hits[..|hits| - 1], alpha), hits[|hits| - 1], alpha)
  }

  /** The dictionary after both loops. */
  function Combine(vectorHits: seq<Hit>, textHits: seq<Hit>, alpha: real): Combined
  {
    TextPhase(VectorPhase(vectorHits, alpha), textHits, alpha)
  }

  /** A vector assignment keeps every key listed once, in insertion order. */
  lemma SetVectorWellFormed(c: Combined, h: Hit, alpha: real)
    requires WellFormed(c)
    ensures WellFormed(SetVector(c, h, alpha))
  {
  }

  /** A keyword update keeps every key listed once, in insertion order. */
  lemma AddTextWellFormed(c: Combined, h: Hit, alpha: real)
    requires WellFormed(c)
    ensures WellFormed(AddText(c, h, alpha))
  {
  }

  /** The vector loop keeps the dictionary well-formed from `{}` on. */
  lemma {:induction false} VectorPhaseWellFormed(hits: seq<Hit>, alpha: real)
    ensures WellFormed(VectorPhase(hits, alpha))
    decreases |hits|
  {
    if hits != [] {
      VectorPhaseWellFormed(hits[..|hits| - 1], alpha);
      SetVectorWellFormed(VectorPhase(hits[..|hits| - 1], alpha), hits[|hits| - 1], alpha);
    }
  }

  /** The keyword loop keeps a well-formed dictionary well-formed. */
  lemma {:induction false} TextPhaseWellFormed(c0: Combined, hits: seq<Hit>, alpha: real)
    requires WellFormed(c0)
    ensures WellFormed(TextPhase(c0, hits, alpha))
    decreases |hits|
  {
    if hits != [] {
      TextPhaseWellFormed(c0, hits[..|hits| - 1], alpha);
      AddTextWellFormed(TextPhase(c0, hits[..|hits| - 1], alpha), hits[|hits| - 1], alpha);
    }
  }

  /** Both loops together keep the dictionary well-formed. */
  lemma CombineWellFormed(vectorHits: seq<Hit>, textHits: seq<Hit>, alpha: real)
    ensures WellFormed(Combine(vectorHits, textHits, alpha))
  {
    VectorPhaseWellFormed(vectorHits, alpha);
    TextPhaseWellFormed(VectorPhase(vectorHits, alpha), textHits, alpha);
  }

  /** `combined_scores.items()` as `{id, score, data}`, in insertion order. */
  function Items(c: Combined): (r: seq<Hit>)
    requires WellFormed(c)
    ensures |r| == |c.order|
    ensures forall i :: 0 <= i < |r| ==>
              r[i] == Hit(c.order[i], c.entries[c.order[i]].score, c.entries[c.order[i]].data)
  {
    seq(|c.order|, i requires 0 <= i < |c.order| =>
      Hit(c.order[i], c.entries[c.order[i]].score, c.entries[c.order[i]].data))
  }

  // ---------------------------------------------------------------------------
  // Stable sort by descending score, and Python's `[:k]`
  // ---------------------------------------------------------------------------

  predicate NonIncreasing(s: seq<Hit>)
  {
    forall i, j :: 0 <= i < j < |s| ==> s[i].score >= s[j].score
  }

  /** Inserts `h` before the first element whose score is not above its own. */
  function Insert(h: Hit, s: seq<Hit>): (r: seq<Hit>)
    ensures multiset(r) == multiset(s) + multiset{h}
  {
    if s == [] || s[0].score <= h.score then [h] + s
    else
      assert s == [s[0]] + s[1..];
      [s[0]] + Insert(h, s[1..])
  }

  lemma {:induction false} InsertSorted(h: Hit, s: seq<Hit>)
    requires NonIncreasing(s)
    ensures NonIncreasing(Insert(h, s))
  {
    if s != [] && s[0].score > h.score {
      var rest := Insert(h, s[1..]);
      InsertSorted(h, s[1..]);
      assert rest[0] == h || rest[0] == s[1];
      var r := [s[0]] + rest;
      forall i, j | 0 <= i < j < |r| ensures r[i].score >= r[j].score {
        if i == 0 && j > 1 {
          assert r[j] == rest[j - 1];
        }
      }
    }
  }

  /** `sorted(items, key=score, reverse=True)`: an insertion sort, which like
      Python's sort keeps equal-score items in their input order. */
  function SortByScore(s: seq<Hit>): (r: seq<Hit>)
    ensures multiset(r) == multiset(s)
  {
    if s == [] then []
    else
      assert s == [s[0]] + s[1..];
      Insert(s[0], SortByScore(s[1..]))
  }

  /** The sort's output is ordered by descending score. */
  lemma {:induction false} SortSorted(s: seq<Hit>)
    ensures NonIncreasing(SortByScore(s))
  {
    if s != [] {
      SortSorted(s[1..]);
      InsertSorted(s[0], SortByScore(s[1..]));
    }
  }

  /** The items carrying score `v`, in order. */
  function WithScore(s: seq<Hit>, v: real): seq<Hit>
  {
    if s == [] then [] else (if s[0].score == v then [s[0]] else []) + WithScore(s[1..], v)
  }

  lemma {:induction false} InsertStable(h: Hit, s: seq<Hit>, v: real)
    ensures WithScore(Insert(h, s), v) == (if h.score == v then [h] else []) + WithScore(s, v)
  {
    if s == [] || s[0].score <= h.score {
      assert ([h] + s)[1..] == s;
    } else {
      InsertStable(h, s[1..], v);
      assert ([s[0]] + Insert(h, s[1..]))[1..] == Insert(h, s[1..]);
    }
  }

  /** Stability: for every score, the items carrying it come out of the sort
      in the order they went in. */
  lemma {:induction false} SortStable(s: seq<Hit>, v: real)
    ensures WithScore(SortByScore(s), v) == WithScore(s, v)
  {
    if s != [] {
      SortStable(s[1..], v);
      InsertStable(s[0], SortByScore(s[1..]), v);
    }
  }

  /** The items of a prefix carrying score `v` are a prefix of those of the whole. */
  lemma {:induction false} WithScorePrefix(s: seq<Hit>, n: nat, v: real)
    requires n <= |s|
    ensures IsPrefix(WithScore(s[..n], v), WithScore(s, v))
  {
    if n > 0 {
      WithScorePrefix(s[1..], n - 1, v);
      assert s[..n][1..] == s[1..][..n - 1];
    }
  }

  predicate IsPrefix<T(==)>(p: seq<T>, s: seq<T>)
  {
    |p| <= |s| && p == s[..|p|]
  }

  function Min(a: int, b: int): int { if a <= b then a else b }
  function Max(a: int, b: int): int { if a >= b then a else b }

  /** Python's `s[:k]`: the first `k` items, or all but the last `-k` when `k` is negative. */
  function SliceTo<T>(s: seq<T>, k: int): (r: seq<T>)
    ensures |r| == if k >= 0 then Min(k, |s|) else Max(0, |s| + k)
    ensures IsPrefix(r, s)
  {
    if k >= 0 then (if k <= |s| then s[..k] else s)
    else if |s| + k >= 0 then s[..|s| + k]
    else []
  }

  // ---------------------------------------------------------------------------
  // hybrid_search and its specification
  // ---------------------------------------------------------------------------

  /** The fused list for given adapter results. */
  function Fuse(vectorHits: seq<Hit>, textHits: seq<Hit>, alpha: real, k: int): seq<Hit>
  {
    CombineWellFormed(vectorHits, textHits, alpha);
    SliceTo(SortByScore(Items(Combine(vectorHits, textHits, alpha))), k)
  }

  /** What `hybrid_search` returns: both adapters asked for `k * 2` hits with the
      same filters, then fused and cut to `k`. */
  function HybridResults(backend: Backend, queryText: string, queryVector: seq<real>, k: int,
                         filters: Option<FilterMap>, alpha: real): seq<Hit>
  {
    Fuse(VectorSearch(backend, queryVector, k * 2, filters),
         TextSearch(backend, queryText, k * 2, filters), alpha, k)
  }

  /** The first loop of `hybrid_search`: every vector hit sets its id's entry
      to `score * alpha` with its own data. */
  method CombineVector(vectorResults: seq<Hit>, alpha: real)
    returns (order: seq<string>, scores: map<string, Entry>)
    ensures Combined(order, scores) == VectorPhase(vectorResults, alpha)
  {
    order, scores := [], map[];
    for i := 0 to |vectorResults|
      invariant Combined(order, scores) == VectorPhase(vectorResults[..i], alpha)
    {
      assert vectorResults[..i + 1][..i] == vectorResults[..i];
      var result := vectorResults[i];
      ghost var next := SetVector(Combined(order, scores), result, alpha);
      if result.id !in scores {
        order := order + [result.id];
      }
      scores := scores[result.id := Entry(result.score * alpha, result.data)];
      assert next.entries[result.id] == scores[result.id];
    }
    assert vectorResults[..|vectorResults|] == vectorResults;
  }

  /** The second loop of `hybrid_search`: every keyword hit adds
      `score * (1 - alpha)` to its id's entry, or creates it. */
  method CombineText(order0: seq<string>, scores0: map<string, Entry>, textResults: seq<Hit>, alpha: real)
    returns (order: seq<string>, scores: map<string, Entry>)
    ensures Combined(order, scores) == TextPhase(Combined(order0, scores0), textResults, alpha)
  {
    order, scores := order0, scores0;
    for i := 0 to |textResults|
      invariant Combined(order, scores) == TextPhase(Combined(order0, scores0), textResults[..i], alpha)
    {
      assert textResults[..i + 1][..i] == textResults[..i];
      var result := textResults[i];
      ghost var next := AddText(Combined(order, scores), result, alpha);
      if result.id in scores {
        var e := scores[result.id];
        scores := scores[result.id := Entry(e.score + result.score * (1.0 - alpha), e.data)];
      } else {
        order := order + [result.id];
        scores := scores[result.id := Entry(result.score * (1.0 - alpha), result.data)];
      }
      assert next.entries[result.id] == scores[result.id];
    }
    assert textResults[..|textResults|] == textResults;
  }

  /** `hybrid_search`: both adapters, the two loops over one dictionary, then a
      stable sort and a slice. */
  method HybridSearch(backend: Backend, queryText: string, queryVector: seq<real>, k: int,
                      filters: Option<FilterMap>, alpha: real)
    returns (results: seq<Hit>)
    ensures results == HybridResults(backend, queryText, queryVector, k, filters, alpha)
  {
    var vectorResults := SearchByVector(backend, queryVector, k * 2, filters);
    var textResults := SearchByText(backend, queryText, k * 2, filters);

    var order, scores := CombineVector(vectorResults, alpha);
    order, scores := CombineText(order, scores, textResults, alpha);

    CombineWellFormed(vectorResults, textResults, alpha);
    var sortedResults := SortByScore(Items(Combined(order, scores)));
    results := SliceTo(sortedResults, k);
  }
}
