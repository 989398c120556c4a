/** What hybrid search promises, stated against an independent description of
    the fused list: one entry per distinct id in first-appearance order (vector
    ids first), each scored by where the id occurs, then sorted stably and cut. */
module FusionProperties {
  import opened Common
  import opened HybridFusion

  // ---------------------------------------------------------------------------
  // Reference definitions
  // ---------------------------------------------------------------------------

  /** The elements of `s` at their first occurrence, in order. */
  function Dedup(s: seq<string>): seq<string>
    decreases |s|
  {
    if s == [] then []
    else
      var p := Dedup(s[..|s| - 1]);
      if s[|s| - 1] in p then p else p + [s[|s| - 1]]
  }

  /** `Dedup` lists every element of `s`, each once. */
  lemma {:induction false} DedupFacts(s: seq<string>)
    ensures Distinct(Dedup(s))
    ensures forall x :: x in Dedup(s) <==> x in s
    decreases |s|
  {
    if s != [] {
      var init := s[..|s| - 1];
      DedupFacts(init);
      assert s == init + [s[|s| - 1]];
    }
  }

  /** The elements of `s` that are not in `a`, in order. */
  function Without(s: seq<string>, a: seq<string>): (r: seq<string>)
    decreases |s|
  {
    if s == [] then []
    else Without(s[..|s| - 1], a) + (if s[|s| - 1] in a then [] else [s[|s| - 1]])
  }

  /** The last hit with the given id. */
  function LastWith(hits: seq<Hit>, id: string): (h: Hit)
    requires id in Ids(hits)
    ensures h in hits && h.id == id
    decreases |hits|
  {
    var init := hits[..|hits| - 1];
    IdsSnoc(hits);
    if hits[|hits| - 1].id == id then hits[|hits| - 1] else LastWith(init, id)
  }

  /** The first hit with the given id. */
  function FirstWith(hits: seq<Hit>, id: string): (h: Hit)
    requires id in Ids(hits)
    ensures h in hits && h.id == id
    decreases |hits|
  {
    var init := hits[..|hits| - 1];
    IdsSnoc(hits);
    if id in Ids(init) then FirstWith(init, id) else hits[|hits| - 1]
  }

  /** The sum of `score * w` over the hits with the given id. */
  function WeightedSum(hits: seq<Hit>, id: string, w: real): real
    decreases |hits|
  {
    if hits == [] then 0.0
    else
      var h := hits[|hits| - 1];
      WeightedSum(hits[..|hits| - 1], id, w) + (if h.id == id then h.score * w else 0.0)
  }

  /** The fused entry of an id: an id the vector list holds keeps the score
      and data of its last vector hit, weighted by `alpha`, plus every keyword
      score weighted by `1 - alpha`; a keyword-only id gets the weighted keyword
      scores and the data of its first keyword hit. */
  function Expected(vectorHits: seq<Hit>, textHits: seq<Hit>, alpha: real, id: string): Entry
    requires id in Ids(vectorHits) || id in Ids(textHits)
  {
    if id in Ids(vectorHits) then
      var v := LastWith(vectorHits, id);
      Entry(v.score * alpha + WeightedSum(textHits, id, 1.0 - alpha), v.data)
    else
      Entry(WeightedSum(textHits, id, 1.0 - alpha), FirstWith(textHits, id).data)
  }

  function FusedHit(vectorHits: seq<Hit>, textHits: seq<Hit>, alpha: real, id: string): Hit
    requires id in Ids(vectorHits) || id in Ids(textHits)
  {
    var e := Expected(vectorHits, textHits, alpha, id);
    Hit(id, e.score, e.data)
  }

  /** The distinct ids of both lists, in first-appearance order (vector list first). */
  function FirstAppearance(vectorHits: seq<Hit>, textHits: seq<Hit>): (r: seq<string>)
    ensures Distinct(r)
    ensures forall id :: id in r <==> id in Ids(vectorHits) || id in Ids(textHits)
  {
    DedupFacts(Ids(vectorHits) + Ids(textHits));
    Dedup(Ids(vectorHits) + Ids(textHits))
  }

  /** The fused entries before sorting, in first-appearance order. */
  function Ranked(vectorHits: seq<Hit>, textHits: seq<Hit>, alpha: real): (r: seq<Hit>)
    ensures |r| == |FirstAppearance(vectorHits, textHits)|
  {
    var ids := FirstAppearance(vectorHits, textHits);
    seq(|ids|, i requires 0 <= i < |ids| =>
      assert ids[i] in ids;
      FusedHit(vectorHits, textHits, alpha, ids[i]))
  }

  // ---------------------------------------------------------------------------
  // Small facts
  // ---------------------------------------------------------------------------

  lemma IdsSnoc(hits: seq<Hit>)
    requires hits != []
    ensures Ids(hits) == Ids(hits[..|hits| - 1]) + [hits[|hits| - 1].id]
  {
  }

  lemma {:induction false} WeightedSumAbsent(hits: seq<Hit>, id: string, w: real)
    requires id !in Ids(hits)
    ensures WeightedSum(hits, id, w) == 0.0
  {
    if hits != [] {
      IdsSnoc(hits);
      WeightedSumAbsent(hits[..|hits| - 1], id, w);
    }
  }

  /** The number of first occurrences is the number of distinct elements. */
  lemma {:induction false} DedupCount(s: seq<string>)
    ensures |Dedup(s)| == |set x | x in s|
  {
    if s != [] {
      var init, last := s[..|s| - 1], s[|s| - 1];
      DedupCount(init);
      DedupFacts(init);
      assert s == init + [last];
      assert (set x | x in s) == (set x | x in init) + {last};
      if last in init {
        assert last in Dedup(init);
        assert (set x | x in s) == (set x | x in init);
      } else {
        assert last !in Dedup(init);
        assert last !in (set x | x in init);
      }
    }
  }

  /** Distinct ids of a concatenation: those of the first list, then the new
      ones of the second. */
  lemma {:induction false} DedupAppend(a: seq<string>, b: seq<string>)
    ensures Dedup(a + b) == Dedup(a) + Without(Dedup(b), a)
    decreases |b|
  {
    if b == [] {
      assert a + b == a;
    } else {
      var init, last := b[..|b| - 1], b[|b| - 1];
      DedupAppend(a, init);
      DedupStep(a, b);
      DedupHas(init, last);
      DedupHas(a + init, last);
      if last !in Dedup(init) {
        WithoutSnoc(Dedup(init), last, a);
        if last !in a {
          var x, y := Dedup(a), Without(Dedup(init), a);
          assert (x + y) + [last] == x + (y + [last]);
        }
      }
    }
  }

  /** `Dedup` of `a + b` and of `b`, one element of `b` at a time. */
  lemma DedupStep(a: seq<string>, b: seq<string>)
    requires b != []
    ensures var init, last := b[..|b| - 1], b[|b| - 1];
            && Dedup(a + b) == (if last in Dedup(a + init) then Dedup(a + init) else Dedup(a + init) + [last])
            && Dedup(b) == (if last in Dedup(init) then Dedup(init) else Dedup(init) + [last])
            && (last in a + init <==> last in a || last in init)
  {
    assert (a + b)[..|a + b| - 1] == a + b[..|b| - 1];
  }

  lemma DedupHas(s: seq<string>, x: string)
    ensures x in Dedup(s) <==> x in s
  {
    DedupFacts(s);
  }

  lemma WithoutSnoc(s: seq<string>, x: string, a: seq<string>)
    ensures Without(s + [x], a) == Without(s, a) + (if x in a then [] else [x])
  {
    assert (s + [x])[..|s + [x]| - 1] == s;
  }

  // ---------------------------------------------------------------------------
  // The two loops against the reference
  // ---------------------------------------------------------------------------

  /** After the vector loop the dictionary holds each vector id once, in
      first-appearance order. */
  lemma {:induction false} VectorPhaseKeys(vectorHits: seq<Hit>, alpha: real)
    ensures VectorPhase(vectorHits, alpha).order == Dedup(Ids(vectorHits))
    ensures forall id :: id in VectorPhase(vectorHits, alpha).entries <==> id in Ids(vectorHits)
    decreases |vectorHits|
  {
    if vectorHits != [] {
      var init, h := vectorHits[..|vectorHits| - 1], vectorHits[|vectorHits| - 1];
      VectorPhaseKeys(init, alpha);
      DedupFacts(Ids(init));
      IdsSnoc(vectorHits);
      var ids := Ids(vectorHits);
      assert ids[..|ids| - 1] == Ids(init);
    }
  }

  /** One vector assignment, seen from one id: the id of the new hit gets its
      score and data, every other id keeps its entry. */
  lemma SetVectorAt(before: Combined, h: Hit, alpha: real, id: string)
    requires id in before.entries || id == h.id
    ensures id in SetVector(before, h, alpha).entries
    ensures SetVector(before, h, alpha).entries[id]
            == if id == h.id then Entry(h.score * alpha, h.data) else before.entries[id]
  {
  }

  /** After the vector loop a vector id has the score and data of its last hit. */
  lemma {:induction false} VectorPhaseEntry(vectorHits: seq<Hit>, alpha: real, id: string)
    requires id in Ids(vectorHits)
    ensures id in VectorPhase(vectorHits, alpha).entries
    ensures VectorPhase(vectorHits, alpha).entries[id]
            == Entry(LastWith(vectorHits, id).score * alpha, LastWith(vectorHits, id).data)
    decreases |vectorHits|
  {
    var n := |vectorHits| - 1;
    var init, h := vectorHits[..n], vectorHits[n];
    var before := VectorPhase(init, alpha);
    IdsSnoc(vectorHits);
    if id != h.id {
      VectorPhaseEntry(init, alpha, id);
    }
    SetVectorAt(before, h, alpha, id);
  }

  /** After the keyword loop the keys are the ids of either list, in
      first-appearance order. */
  lemma {:induction false} CombineKeys(vectorHits: seq<Hit>, textHits: seq<Hit>, alpha: real)
    ensures Combine(vectorHits, textHits, alpha).order == FirstAppearance(vectorHits, textHits)
    ensures forall id :: id in Combine(vectorHits, textHits, alpha).entries <==>
              id in Ids(vectorHits) || id in Ids(textHits)
    decreases |textHits|
  {
    if textHits == [] {
      VectorPhaseKeys(vectorHits, alpha);
      assert Ids(vectorHits) + Ids(textHits) == Ids(vectorHits);
    } else {
      var init, h := textHits[..|textHits| - 1], textHits[|textHits| - 1];
      CombineKeys(vectorHits, init, alpha);
      IdsSnoc(textHits);
      DedupFacts(Ids(vectorHits) + Ids(init));
      assert Combine(vectorHits, textHits, alpha) == AddText(Combine(vectorHits, init, alpha), h, alpha);
      var all := Ids(vectorHits) + Ids(textHits);
      assert all == (Ids(vectorHits) + Ids(init)) + [h.id];
      assert all[..|all| - 1] == Ids(vectorHits) + Ids(init);
    }
  }

  /** The entry of `id` after one keyword hit `h` with weight `w`. */
  lemma AddTextAt(before: Combined, h: Hit, alpha: real, id: string)
    requires id in before.entries || id == h.id
    ensures id in AddText(before, h, alpha).entries
    ensures AddText(before, h, alpha).entries[id]
            == if id !in before.entries then Entry(h.score * (1.0 - alpha), h.data)
               else if id == h.id then Entry(before.entries[id].score + h.score * (1.0 - alpha), before.entries[id].data)
               else before.entries[id]
  {
  }

  /** The reference entry of `id` when a keyword hit is appended. */
  lemma ExpectedSnoc(vectorHits: seq<Hit>, textHits: seq<Hit>, alpha: real, id: string)
    requires textHits != []
    requires id in Ids(vectorHits) || id in Ids(textHits)
    ensures var init, h := textHits[..|textHits| - 1], textHits[|textHits| - 1];
            var add := if h.id == id then h.score * (1.0 - alpha) else 0.0;
            if id in Ids(vectorHits) || id in Ids(init) then
              var e := Expected(vectorHits, init, alpha, id);
              Expected(vectorHits, textHits, alpha, id) == Entry(e.score + add, e.data)
            else
              Expected(vectorHits, textHits, alpha, id) == Entry(h.score * (1.0 - alpha), h.data)
  {
    var w := 1.0 - alpha;
    var init, h := textHits[..|textHits| - 1], textHits[|textHits| - 1];
    IdsSnoc(textHits);
    assert WeightedSum(textHits, id, w) == WeightedSum(init, id, w) + (if h.id == id then h.score * w else 0.0);
    if id in Ids(vectorHits) {
    } else if id in Ids(init) {
      assert FirstWith(textHits, id) == FirstWith(init, id);
    } else {
      WeightedSumAbsent(init, id, w);
      assert FirstWith(textHits, id) == h;
    }
  }

  /** One keyword hit moves one id's entry from its reference value for the
      keyword list without that hit to its reference value for the list with it. */
  lemma AddTextEntry(vectorHits: seq<Hit>, textHits: seq<Hit>, alpha: real, id: string, before: Combined)
    requires textHits != []
    requires id in Ids(vectorHits) || id in Ids(textHits)
    requires id in before.entries <==> id in Ids(vectorHits) || id in Ids(textHits[..|textHits| - 1])
    requires id in before.entries ==>
               before.entries[id] == Expected(vectorHits, textHits[..|textHits| - 1], alpha, id)
    ensures id in AddText(before, textHits[|textHits| - 1], alpha).entries
    ensures AddText(before, textHits[|textHits| - 1], alpha).entries[id] == Expected(vectorHits, textHits, alpha, id)
  {
    IdsSnoc(textHits);
    AddTextAt(before, textHits[|textHits| - 1], alpha, id);
    ExpectedSnoc(vectorHits, textHits, alpha, id);
  }

  /** After the keyword loop an id of either list has its reference entry. */
  lemma {:induction false} CombineEntry(vectorHits: seq<Hit>, textHits: seq<Hit>, alpha: real, id: string)
    requires id in Ids(vectorHits) || id in Ids(textHits)
    ensures id in Combine(vectorHits, textHits, alpha).entries
    ensures Combine(vectorHits, textHits, alpha).entries[id] == Expected(vectorHits, textHits, alpha, id)
    decreases |textHits|
  {
    if textHits == [] {
      VectorPhaseEntry(vectorHits, alpha, id);
    } else {
      var init := textHits[..|textHits| - 1];
      IdsSnoc(textHits);
      if id in Ids(vectorHits) || id in Ids(init) {
        CombineEntry(vectorHits, init, alpha, id);
      }
      CombineKeys(vectorHits, init, alpha);
      AddTextEntry(vectorHits, textHits, alpha, id, Combine(vectorHits, init, alpha));
    }
  }

  /** Fusion is: the reference entries, sorted stably by descending score, cut to `k`. */
  lemma FuseCharacterized(vectorHits: seq<Hit>, textHits: seq<Hit>, alpha: real, k: int)
    ensures Fuse(vectorHits, textHits, alpha, k) == SliceTo(SortByScore(Ranked(vectorHits, textHits, alpha)), k)
  {
    CombineWellFormed(vectorHits, textHits, alpha);
    CombineKeys(vectorHits, textHits, alpha);
    var ids := FirstAppearance(vectorHits, textHits);
    var items, ranked := Items(Combine(vectorHits, textHits, alpha)), Ranked(vectorHits, textHits, alpha);
    forall i | 0 <= i < |ids| ensures items[i] == ranked[i] {
      assert ids[i] in Ids(vectorHits) + Ids(textHits);
      CombineEntry(vectorHits, textHits, alpha, ids[i]);
    }
    assert items == ranked;
  }

  /** Vector ids come first, then the keyword-only ids, each in list order. */
  lemma FirstAppearanceOrder(vectorHits: seq<Hit>, textHits: seq<Hit>)
    ensures FirstAppearance(vectorHits, textHits)
            == Dedup(Ids(vectorHits)) + Without(Dedup(Ids(textHits)), Ids(vectorHits))
  {
    DedupAppend(Ids(vectorHits), Ids(textHits));
  }

  // ---------------------------------------------------------------------------
  // Properties of the fused list
  // ---------------------------------------------------------------------------

  lemma RankedUniqueIds(vectorHits: seq<Hit>, textHits: seq<Hit>, alpha: real)
    ensures Distinct(Ids(Ranked(vectorHits, textHits, alpha)))
    ensures Ids(Ranked(vectorHits, textHits, alpha)) == FirstAppearance(vectorHits, textHits)
  {
  }

  /** A permutation of a list whose ids are distinct has distinct ids. */
  lemma UniqueIdsPermutation(s: seq<Hit>, t: seq<Hit>)
    requires Distinct(Ids(s)) && multiset(s) == multiset(t)
    ensures Distinct(Ids(t))
  {
    assert Distinct(s) by {
      forall i, j | 0 <= i < j < |s| ensures s[i] != s[j] {
        assert Ids(s)[i] != Ids(s)[j];
      }
    }
    SortDistinctOf(s, t);
    forall i, j | 0 <= i < j < |t| ensures t[i].id != t[j].id {
      assert t[i] in multiset(s) && t[j] in multiset(s);
      var p :| 0 <= p < |s| && s[p] == t[i];
      var q :| 0 <= q < |s| && s[q] == t[j];
      if p != q {
        assert Ids(s)[p] != Ids(s)[q];
      }
    }
  }

  /** A permutation of a list without repetitions has none. */
  lemma SortDistinctOf(s: seq<Hit>, t: seq<Hit>)
    requires Distinct(s) && multiset(s) == multiset(t)
    ensures Distinct(t)
  {
    forall i, j | 0 <= i < j < |t| ensures t[i] != t[j] {
      if t[i] == t[j] {
        assert t == t[..i] + [t[i]] + t[i + 1..j] + [t[j]] + t[j + 1..];
        assert multiset(t)[t[i]] >= 2;
        DistinctMultiplicity(s, t[i]);
      }
    }
  }

  lemma {:induction false} DistinctMultiplicity(s: seq<Hit>, x: Hit)
    requires Distinct(s)
    ensures multiset(s)[x] <= 1
  {
    if s != [] {
      assert s == [s[0]] + s[1..];
      DistinctMultiplicity(s[1..], x);
      assert s[0] !in s[1..];
    }
  }

  /** The result has min(k, number of distinct ids) entries (for `k >= 0`;
      a negative `k` drops that many from the end, as Python's slice does). */
  lemma FuseLength(vectorHits: seq<Hit>, textHits: seq<Hit>, alpha: real, k: int)
    ensures var n := |set id | id in Ids(vectorHits) + Ids(textHits)|;
            |Fuse(vectorHits, textHits, alpha, k)| == if k >= 0 then Min(k, n) else Max(0, n + k)
  {
    FuseCharacterized(vectorHits, textHits, alpha, k);
    DedupCount(Ids(vectorHits) + Ids(textHits));
    var l := Ranked(vectorHits, textHits, alpha);
    assert |multiset(SortByScore(l))| == |multiset(l)|;
  }

  /** Scores never increase along the result. */
  lemma FuseOrdered(vectorHits: seq<Hit>, textHits: seq<Hit>, alpha: real, k: int)
    ensures NonIncreasing(Fuse(vectorHits, textHits, alpha, k))
  {
    FuseCharacterized(vectorHits, textHits, alpha, k);
    SortSorted(Ranked(vectorHits, textHits, alpha));
  }

  /** Each reference entry is the fused entry of an id from one of the lists. */
  lemma RankedMember(vectorHits: seq<Hit>, textHits: seq<Hit>, alpha: real, x: Hit)
    requires x in Ranked(vectorHits, textHits, alpha)
    ensures x.id in Ids(vectorHits) || x.id in Ids(textHits)
    ensures x == FusedHit(vectorHits, textHits, alpha, x.id)
  {
    var ids := FirstAppearance(vectorHits, textHits);
    var l := Ranked(vectorHits, textHits, alpha);
    var p :| 0 <= p < |l| && l[p] == x;
    assert ids[p] in Ids(vectorHits) + Ids(textHits);
  }

  /** Every reference entry of an input id is in the reference list. */
  lemma RankedHas(vectorHits: seq<Hit>, textHits: seq<Hit>, alpha: real, id: string)
    requires id in Ids(vectorHits) + Ids(textHits)
    ensures FusedHit(vectorHits, textHits, alpha, id) in Ranked(vectorHits, textHits, alpha)
  {
    var ids := FirstAppearance(vectorHits, textHits);
    var p :| 0 <= p < |ids| && ids[p] == id;
    assert Ranked(vectorHits, textHits, alpha)[p] == FusedHit(vectorHits, textHits, alpha, id);
  }

  /** Sorting and cutting a list keeps only its members, and keeps ids distinct. */
  lemma SortSliceMembers(l: seq<Hit>, k: int)
    ensures forall x :: x in SliceTo(SortByScore(l), k) ==> x in l
    ensures Distinct(Ids(l)) ==> Distinct(Ids(SliceTo(SortByScore(l), k)))
  {
    var s := SortByScore(l);
    var r := SliceTo(s, k);
    assert r == s[..|r|];
    forall x | x in r ensures x in l {
      assert x in multiset(s);
    }
    if Distinct(Ids(l)) {
      UniqueIdsPermutation(l, s);
      assert Ids(r) == Ids(s)[..|r|];
    }
  }

  /** Every result is the fused entry of an id from one of the two lists, and
      no id is returned twice. */
  lemma FuseEntries(vectorHits: seq<Hit>, textHits: seq<Hit>, alpha: real, k: int)
    ensures var r := Fuse(vectorHits, textHits, alpha, k);
            && Distinct(Ids(r))
            && forall i :: 0 <= i < |r| ==>
                 (r[i].id in Ids(vectorHits) || r[i].id in Ids(textHits))
                 && r[i] == FusedHit(vectorHits, textHits, alpha, r[i].id)
  {
    FuseCharacterized(vectorHits, textHits, alpha, k);
    var l := Ranked(vectorHits, textHits, alpha);
    var r := SliceTo(SortByScore(l), k);
    RankedUniqueIds(vectorHits, textHits, alpha);
    SortSliceMembers(l, k);
    forall i | 0 <= i < |r|
      ensures (r[i].id in Ids(vectorHits) || r[i].id in Ids(textHits))
              && r[i] == FusedHit(vectorHits, textHits, alpha, r[i].id)
    {
      RankedMember(vectorHits, textHits, alpha, r[i]);
    }
  }

  /** In a list sorted by descending score, an item outside the first `n`
      scores no higher than any of them. */
  lemma SortedPrefixTop(s: seq<Hit>, n: nat, x: Hit)
    requires NonIncreasing(s) && n <= |s|
    requires x in s && x.id !in Ids(s[..n])
    ensures forall i :: 0 <= i < n ==> x.score <= s[i].score
  {
    forall j | 0 <= j < n ensures s[j].id != x.id {
      assert Ids(s[..n])[j] == s[j].id;
    }
    var q :| 0 <= q < |s| && s[q] == x;
  }

  /** After sorting and cutting, a member of the list whose id was cut scores
      no higher than any kept item. */
  lemma SortSliceTop(l: seq<Hit>, k: int, x: Hit)
    requires x in l && x.id !in Ids(SliceTo(SortByScore(l), k))
    ensures forall i :: 0 <= i < |SliceTo(SortByScore(l), k)| ==> x.score <= SliceTo(SortByScore(l), k)[i].score
  {
    var s := SortByScore(l);
    var r := SliceTo(s, k);
    SortSorted(l);
    assert r == s[..|r|];
    assert x in multiset(s);
    SortedPrefixTop(s, |r|, x);
  }

  /** No id left out of the result scores above any kept entry. */
  lemma FuseKeepsTop(vectorHits: seq<Hit>, textHits: seq<Hit>, alpha: real, k: int)
    ensures var r := Fuse(vectorHits, textHits, alpha, k);
            forall id :: id in Ids(vectorHits) + Ids(textHits) && id !in Ids(r) ==>
              forall i :: 0 <= i < |r| ==> FusedHit(vectorHits, textHits, alpha, id).score <= r[i].score
  {
    FuseCharacterized(vectorHits, textHits, alpha, k);
    var l := Ranked(vectorHits, textHits, alpha);
    var r := SliceTo(SortByScore(l), k);
    forall id | id in Ids(vectorHits) + Ids(textHits) && id !in Ids(r)
      ensures forall i :: 0 <= i < |r| ==> FusedHit(vectorHits, textHits, alpha, id).score <= r[i].score
    {
      RankedHas(vectorHits, textHits, alpha, id);
      SortSliceTop(l, k, FusedHit(vectorHits, textHits, alpha, id));
    }
  }

  /** Ties: among the entries sharing a score, the result keeps the earliest
      ones in first-appearance order, in that order. */
  lemma FuseTies(vectorHits: seq<Hit>, textHits: seq<Hit>, alpha: real, k: int, v: real)
    ensures IsPrefix(WithScore(Fuse(vectorHits, textHits, alpha, k), v),
                     WithScore(Ranked(vectorHits, textHits, alpha), v))
  {
    FuseCharacterized(vectorHits, textHits, alpha, k);
    var l := Ranked(vectorHits, textHits, alpha);
    var s := SortByScore(l);
    var r := SliceTo(s, k);
    SortStable(l, v);
    WithScorePrefix(s, |r|, v);
    assert s[..|r|] == r;
  }
  // ---------------------------------------------------------------------------
  // alpha = 1.0: the vector ranking
  // ---------------------------------------------------------------------------

  /** With weight 0 the keyword scores add nothing. */
  lemma {:induction false} WeightedSumZero(hits: seq<Hit>, id: string)
    ensures WeightedSum(hits, id, 0.0) == 0.0
    decreases |hits|
  {
    if hits != [] {
      WeightedSumZero(hits[..|hits| - 1], id);
    }
  }

  /** With alpha 1.0 a vector id scores its last vector hit's score, whatever
      the keyword list holds, and a keyword-only id scores 0. */
  lemma FusedAlphaOne(vectorHits: seq<Hit>, textHits: seq<Hit>, id: string)
    requires id in Ids(vectorHits) || id in Ids(textHits)
    ensures id in Ids(vectorHits) ==>
              FusedHit(vectorHits, textHits, 1.0, id).score == LastWith(vectorHits, id).score
              && FusedHit(vectorHits, textHits, 1.0, id) == FusedHit(vectorHits, [], 1.0, id)
    ensures id !in Ids(vectorHits) ==> FusedHit(vectorHits, textHits, 1.0, id).score == 0.0
  {
    WeightedSumZero(textHits, id);
    WeightedSumZero([], id);
  }

  /** The hits whose id is in `ids`, in order. */
  function KeepIds(s: seq<Hit>, ids: seq<string>): seq<Hit>
  {
    if s == [] then [] else (if s[0].id in ids then [s[0]] else []) + KeepIds(s[1..], ids)
  }

  lemma {:induction false} KeepMembers(s: seq<Hit>, ids: seq<string>)
    ensures forall x :: x in KeepIds(s, ids) ==> x in s
  {
    if s != [] {
      KeepMembers(s[1..], ids);
      assert s == [s[0]] + s[1..];
    }
  }

  lemma {:induction false} KeepAppend(a: seq<Hit>, b: seq<Hit>, ids: seq<string>)
    ensures KeepIds(a + b, ids) == KeepIds(a, ids) + KeepIds(b, ids)
  {
    if a != [] {
      KeepAppend(a[1..], b, ids);
      assert (a + b)[1..] == a[1..] + b;
    } else {
      assert a + b == b;
    }
  }

  lemma {:induction false} KeepAll(s: seq<Hit>, ids: seq<string>)
    requires forall i :: 0 <= i < |s| ==> s[i].id in ids
    ensures KeepIds(s, ids) == s
  {
    if s != [] {
      KeepAll(s[1..], ids);
    }
  }

  lemma {:induction false} KeepNone(s: seq<Hit>, ids: seq<string>)
    requires forall i :: 0 <= i < |s| ==> s[i].id !in ids
    ensures KeepIds(s, ids) == []
  {
    if s != [] {
      KeepNone(s[1..], ids);
    }
  }

  /** The kept hits of a prefix are a prefix of the kept hits, and no longer
      than the prefix. */
  lemma {:induction false} KeepPrefix(s: seq<Hit>, n: nat, ids: seq<string>)
    requires n <= |s|
    ensures IsPrefix(KeepIds(s[..n], ids), KeepIds(s, ids))
    ensures |KeepIds(s[..n], ids)| <= n
  {
    if n > 0 {
      KeepPrefix(s[1..], n - 1, ids);
      assert s[..n][1..] == s[1..][..n - 1];
    }
  }

  lemma KeepCons(x: Hit, s: seq<Hit>, ids: seq<string>)
    ensures KeepIds([x] + s, ids) == (if x.id in ids then [x] else []) + KeepIds(s, ids)
  {
    assert ([x] + s)[0] == x && ([x] + s)[1..] == s;
  }

  /** In a sorted list, the first kept hit scores no higher than the first hit. */
  lemma KeepHead(s: seq<Hit>, ids: seq<string>)
    requires NonIncreasing(s) && KeepIds(s, ids) != []
    ensures KeepIds(s, ids)[0].score <= s[0].score
  {
    KeepMembers(s, ids);
    var x := KeepIds(s, ids)[0];
    assert x in KeepIds(s, ids);
    var m :| 0 <= m < |s| && s[m] == x;
  }

  /** Inserting in front of a sorted list: the kept hits keep `h` in front. */
  lemma KeepInsertFront(h: Hit, s: seq<Hit>, ids: seq<string>)
    requires NonIncreasing(s) && (s == [] || s[0].score <= h.score)
    ensures KeepIds(Insert(h, s), ids) == if h.id in ids then Insert(h, KeepIds(s, ids)) else KeepIds(s, ids)
  {
    var k := KeepIds(s, ids);
    assert Insert(h, s) == [h] + s;
    KeepCons(h, s, ids);
    if h.id in ids {
      if k != [] {
        KeepHead(s, ids);
      }
      assert Insert(h, k) == [h] + k;
    } else {
      assert KeepIds(Insert(h, s), ids) == k;
    }
  }

  /** Keeping some ids commutes with inserting into a sorted list. */
  lemma {:induction false} KeepInsert(h: Hit, s: seq<Hit>, ids: seq<string>)
    requires NonIncreasing(s)
    ensures KeepIds(Insert(h, s), ids) == if h.id in ids then Insert(h, KeepIds(s, ids)) else KeepIds(s, ids)
  {
    var k := KeepIds(s, ids);
    if s == [] || s[0].score <= h.score {
      KeepInsertFront(h, s, ids);
    } else {
      var rest := s[1..];
      var kr := KeepIds(rest, ids);
      assert Insert(h, s) == [s[0]] + Insert(h, rest);
      assert s == [s[0]] + rest;
      KeepCons(s[0], Insert(h, rest), ids);
      KeepCons(s[0], rest, ids);
      KeepInsert(h, rest, ids);
      if s[0].id in ids {
        assert k == [s[0]] + kr;
        if h.id in ids {
          assert Insert(h, [s[0]] + kr) == [s[0]] + Insert(h, kr) by {
            assert ([s[0]] + kr)[0] == s[0] && ([s[0]] + kr)[1..] == kr;
          }
        }
      } else {
        assert k == kr;
        assert KeepIds(Insert(h, s), ids) == KeepIds(Insert(h, rest), ids);
      }
    }
  }

  /** Keeping some ids commutes with the stable sort. */
  lemma {:induction false} KeepSort(l: seq<Hit>, ids: seq<string>)
    ensures KeepIds(SortByScore(l), ids) == SortByScore(KeepIds(l, ids))
  {
    if l != [] {
      var rest := l[1..];
      var kr := KeepIds(rest, ids);
      assert l == [l[0]] + rest;
      assert SortByScore(l) == Insert(l[0], SortByScore(rest));
      KeepSort(rest, ids);
      SortSorted(rest);
      KeepInsert(l[0], SortByScore(rest), ids);
      KeepCons(l[0], rest, ids);
      if l[0].id in ids {
        assert SortByScore([l[0]] + kr) == Insert(l[0], SortByScore(kr)) by {
          assert ([l[0]] + kr)[0] == l[0] && ([l[0]] + kr)[1..] == kr;
        }
      } else {
        assert KeepIds(l, ids) == kr;
      }
    }
  }

  /** The ids of both lists in first-appearance order: those of the vector
      list alone, then ids that are not vector ids. */
  lemma FirstAppearanceSplit(vectorHits: seq<Hit>, textHits: seq<Hit>)
    ensures var w := Without(Dedup(Ids(textHits)), Ids(vectorHits));
            && FirstAppearance(vectorHits, textHits) == FirstAppearance(vectorHits, []) + w
            && forall i :: 0 <= i < |w| ==> w[i] !in Ids(vectorHits)
  {
    FirstAppearanceOrder(vectorHits, textHits);
    FirstAppearanceOrder(vectorHits, []);
    assert Dedup(Ids([])) == [];
    WithoutNotIn(Dedup(Ids(textHits)), Ids(vectorHits));
  }

  /** With alpha 1.0 the reference list of the vector list alone is a prefix of
      the reference list of both lists, and holds only vector ids. */
  lemma RankedAlphaOneHead(vectorHits: seq<Hit>, textHits: seq<Hit>)
    ensures var l, l0 := Ranked(vectorHits, textHits, 1.0), Ranked(vectorHits, [], 1.0);
            && |l0| <= |l| && l[..|l0|] == l0
            && forall i :: 0 <= i < |l0| ==> l0[i].id in Ids(vectorHits)
  {
    var l, l0 := Ranked(vectorHits, textHits, 1.0), Ranked(vectorHits, [], 1.0);
    var ids, ids0 := FirstAppearance(vectorHits, textHits), FirstAppearance(vectorHits, []);
    FirstAppearanceSplit(vectorHits, textHits);
    forall i | 0 <= i < |l0| ensures l[i] == l0[i] && l0[i].id in Ids(vectorHits) {
      assert ids[i] == ids0[i];
      assert ids0[i] in Ids(vectorHits) + Ids([]);
      FusedAlphaOne(vectorHits, textHits, ids0[i]);
    }
  }

  /** The rest of the reference list holds only ids that are not vector ids. */
  lemma RankedAlphaOneTail(vectorHits: seq<Hit>, textHits: seq<Hit>)
    ensures var l, l0 := Ranked(vectorHits, textHits, 1.0), Ranked(vectorHits, [], 1.0);
            && |l0| <= |l|
            && forall i :: |l0| <= i < |l| ==> l[i].id !in Ids(vectorHits)
  {
    var l, l0 := Ranked(vectorHits, textHits, 1.0), Ranked(vectorHits, [], 1.0);
    var ids, ids0 := FirstAppearance(vectorHits, textHits), FirstAppearance(vectorHits, []);
    var w := Without(Dedup(Ids(textHits)), Ids(vectorHits));
    FirstAppearanceSplit(vectorHits, textHits);
    forall i | |l0| <= i < |l| ensures l[i].id !in Ids(vectorHits) {
      assert ids[i] == w[i - |l0|];
    }
  }

  /** Keeping the vector ids of the reference list with alpha 1.0 gives the
      reference list of the vector list alone. */
  lemma RankedAlphaOne(vectorHits: seq<Hit>, textHits: seq<Hit>)
    ensures KeepIds(Ranked(vectorHits, textHits, 1.0), Ids(vectorHits)) == Ranked(vectorHits, [], 1.0)
  {
    var l, l0 := Ranked(vectorHits, textHits, 1.0), Ranked(vectorHits, [], 1.0);
    RankedAlphaOneHead(vectorHits, textHits);
    RankedAlphaOneTail(vectorHits, textHits);
    var tail := l[|l0|..];
    assert l == l0 + tail;
    KeepAppend(l0, tail, Ids(vectorHits));
    KeepAll(l0, Ids(vectorHits));
    KeepNone(tail, Ids(vectorHits));
  }

  lemma {:induction false} WithoutNotIn(s: seq<string>, a: seq<string>)
    ensures forall i :: 0 <= i < |Without(s, a)| ==> Without(s, a)[i] !in a
    decreases |s|
  {
    if s != [] {
      WithoutNotIn(s[..|s| - 1], a);
    }
  }

  /** Two prefixes of one list: the shorter is a prefix of the longer. */
  lemma PrefixesOf<T>(a: seq<T>, b: seq<T>, s: seq<T>)
    requires IsPrefix(a, s) && IsPrefix(b, s) && |a| <= |b|
    ensures IsPrefix(a, b)
  {
    assert a == s[..|a|] == s[..|b|][..|a|];
  }

  /** Sorting and cutting a list, then keeping some ids, gives a prefix of the
      sorted kept list, no longer than the cut. */
  lemma SortSliceKeep(l: seq<Hit>, ids: seq<string>, k: int)
    ensures var f := KeepIds(SliceTo(SortByScore(l), k), ids);
            IsPrefix(f, SortByScore(KeepIds(l, ids))) && (k >= 0 ==> |f| <= k)
  {
    var s := SortByScore(l);
    var r := SliceTo(s, k);
    KeepSort(l, ids);
    assert r == s[..|r|];
    KeepPrefix(s, |r|, ids);
  }

  /** With alpha 1.0 the ranking is the vector ranking: the vector ids of the
      result, with their entries, are a prefix of what fusing the vector list
      alone returns (for `k >= 0`; for any `k` one of the two is a prefix of the
      other), so vector ids keep their relative order. */
  lemma FuseAlphaOne(vectorHits: seq<Hit>, textHits: seq<Hit>, k: int)
    ensures var f, g := KeepIds(Fuse(vectorHits, textHits, 1.0, k), Ids(vectorHits)), Fuse(vectorHits, [], 1.0, k);
            && (IsPrefix(f, g) || IsPrefix(g, f))
            && (k >= 0 ==> IsPrefix(f, g))
  {
    var l, l0 := Ranked(vectorHits, textHits, 1.0), Ranked(vectorHits, [], 1.0);
    var s0 := SortByScore(l0);
    FuseCharacterized(vectorHits, textHits, 1.0, k);
    FuseCharacterized(vectorHits, [], 1.0, k);
    RankedAlphaOne(vectorHits, textHits);
    SortSliceKeep(l, Ids(vectorHits), k);
    var f, g := KeepIds(SliceTo(SortByScore(l), k), Ids(vectorHits)), SliceTo(s0, k);
    assert |s0| == |l0| by {
      assert |multiset(s0)| == |multiset(l0)|;
    }
    if |f| <= |g| {
      PrefixesOf(f, g, s0);
    } else {
      PrefixesOf(g, f, s0);
    }
  }

  // ---------------------------------------------------------------------------
  // The fused score by where an id occurs
  // ---------------------------------------------------------------------------

  /** The id occurs in `hits` at position `i` and nowhere else. */
  predicate OnlyAt(hits: seq<Hit>, id: string, i: int)
  {
    0 <= i < |hits| && hits[i].id == id && forall j :: 0 <= j < |hits| && j != i ==> hits[j].id != id
  }

  lemma {:induction false} SingleOccurrence(hits: seq<Hit>, id: string, i: int, w: real)
    requires OnlyAt(hits, id, i)
    ensures id in Ids(hits)
    ensures LastWith(hits, id) == hits[i] && FirstWith(hits, id) == hits[i]
    ensures WeightedSum(hits, id, w) == hits[i].score * w
    decreases |hits|
  {
    IdsSnoc(hits);
    var n := |hits| - 1;
    var init := hits[..n];
    if i == n {
      forall j | 0 <= j < n ensures Ids(init)[j] != id {
        assert init[j] == hits[j];
      }
      WeightedSumAbsent(init, id, w);
    } else {
      assert OnlyAt(init, id, i);
      SingleOccurrence(init, id, i, w);
    }
  }

  /** An id found once in each list scores `vector * alpha + keyword * (1 - alpha)`
      and keeps the vector hit's data. */
  lemma FusedInBoth(vectorHits: seq<Hit>, textHits: seq<Hit>, alpha: real, id: string, i: int, j: int)
    requires OnlyAt(vectorHits, id, i) && OnlyAt(textHits, id, j)
    ensures id in Ids(vectorHits)
            && Expected(vectorHits, textHits, alpha, id)
               == Entry(vectorHits[i].score * alpha + textHits[j].score * (1.0 - alpha), vectorHits[i].data)
  {
    SingleOccurrence(vectorHits, id, i, alpha);
    SingleOccurrence(textHits, id, j, 1.0 - alpha);
  }

  /** An id found once in the vector list only scores `vector * alpha`. */
  lemma FusedVectorOnly(vectorHits: seq<Hit>, textHits: seq<Hit>, alpha: real, id: string, i: int)
    requires OnlyAt(vectorHits, id, i) && id !in Ids(textHits)
    ensures id in Ids(vectorHits)
            && Expected(vectorHits, textHits, alpha, id) == Entry(vectorHits[i].score * alpha, vectorHits[i].data)
  {
    SingleOccurrence(vectorHits, id, i, alpha);
    WeightedSumAbsent(textHits, id, 1.0 - alpha);
  }

  /** An id found once in the keyword list only scores `keyword * (1 - alpha)`
      and keeps that hit's data. */
  lemma FusedTextOnly(vectorHits: seq<Hit>, textHits: seq<Hit>, alpha: real, id: string, j: int)
    requires id !in Ids(vectorHits) && OnlyAt(textHits, id, j)
    ensures id in Ids(textHits)
            && Expected(vectorHits, textHits, alpha, id) == Entry(textHits[j].score * (1.0 - alpha), textHits[j].data)
  {
    SingleOccurrence(textHits, id, j, 1.0 - alpha);
  }

  /** A worked example: "a" scores 0.8 by vector and 0.4 by keyword,
      "b" 0.5 by keyword only; with alpha 0.6 the dictionary holds "a" at 0.64
      with its vector data, then "b" at 0.2. */
  lemma CombineExample(va: Data, ta: Data, tb: Data)
    ensures Combine([Hit("a", 0.8, va)], [Hit("a", 0.4, ta), Hit("b", 0.5, tb)], 0.6)
            == Combined(["a", "b"], map["a" := Entry(0.64, va), "b" := Entry(0.2, tb)])
  {
    var vh, th := [Hit("a", 0.8, va)], [Hit("a", 0.4, ta), Hit("b", 0.5, tb)];
    var v := Combined(["a"], map["a" := Entry(0.48, va)]);
    ExampleVectorPhase(va);
    var t1 := Combined(["a"], map["a" := Entry(0.64, va)]);
    ExampleFirstKeyword(va, th);
    assert th[..|th| - 1] == th[..1];
    assert TextPhase(v, th, 0.6) == AddText(t1, th[1], 0.6);
    ExampleSecondKeyword(t1, th[1]);
  }

  lemma ExampleVectorPhase(va: Data)
    ensures VectorPhase([Hit("a", 0.8, va)], 0.6) == Combined(["a"], map["a" := Entry(0.48, va)])
  {
    assert [Hit("a", 0.8, va)][..0] == [];
  }

  lemma ExampleFirstKeyword(d: Data, th: seq<Hit>)
    requires |th| == 2 && th[0].id == "a" && th[0].score == 0.4
    ensures TextPhase(Combined(["a"], map["a" := Entry(0.48, d)]), th[..1], 0.6)
            == Combined(["a"], map["a" := Entry(0.64, d)])
  {
    assert th[..1][..0] == [];
  }

  lemma ExampleSecondKeyword(c: Combined, h: Hit)
    requires c.order == ["a"] && c.entries.Keys == {"a"}
    requires h.id == "b" && h.score == 0.5
    ensures AddText(c, h, 0.6) == Combined(["a", "b"], c.entries["b" := Entry(0.2, h.data)])
  {
  }

  /** The same example through the sort and the cut. */
  lemma FuseExample(va: Data, ta: Data, tb: Data)
    ensures Fuse([Hit("a", 0.8, va)], [Hit("a", 0.4, ta), Hit("b", 0.5, tb)], 0.6, 5)
            == [Hit("a", 0.64, va), Hit("b", 0.2, tb)]
  {
    CombineExample(va, ta, tb);
    ExampleItems(va, tb);
    ExampleSorted([Hit("a", 0.64, va), Hit("b", 0.2, tb)]);
  }

  lemma ExampleItems(va: Data, tb: Data)
    ensures Items(Combined(["a", "b"], map["a" := Entry(0.64, va), "b" := Entry(0.2, tb)]))
            == [Hit("a", 0.64, va), Hit("b", 0.2, tb)]
  {
    var c := Combined(["a", "b"], map["a" := Entry(0.64, va), "b" := Entry(0.2, tb)]);
    assert WellFormed(c);
  }

  lemma ExampleSorted(s: seq<Hit>)
    requires |s| == 2 && s[0].score > s[1].score
    ensures SortByScore(s) == s
  {
    assert SortByScore(s[1..]) == [s[1]];
  }
}
