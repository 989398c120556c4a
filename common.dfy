/** Values shared by the search adapters, the fusion engine and the RAG service:
    JSON-like values, the optional and fallible wrappers, and a search hit. */
module Common {

  datatype Option<+T> = None | Some(value: T)

  /** Success or a raised Python exception, carried as its message text. */
  datatype Result<+T> = Success(value: T) | Failure(error: string)

  /** A JSON-like scalar as it sits in a Python dictionary (None is `Null`). */
  datatype Value = Null | Bool(b: bool) | Int(i: int) | Num(r: real) | Str(s: string)

  /** A restaurant document (`_source` of an index hit): attribute name to value. */
  type Data = map<string, Value>

  /** `{id, score, data}`: one adapter hit, and also one fused result. */
  datatype Hit = Hit(id: string, score: real, data: Data)

  /** `dict.get(key)`: the value when the key is present, otherwise nothing. */
  function Lookup(d: map<string, Value>, key: string): (r: Option<Value>)
    ensures r.Some? <==> key in d
    ensures r.Some? ==> r.value == d[key]
  {
    if key in d then Some(d[key]) else None
  }

  /** The ids of a hit list, in list order. */
  function Ids(hits: seq<Hit>): (ids: seq<string>)
    ensures |ids| == |hits|
    ensures forall i :: 0 <= i < |hits| ==> ids[i] == hits[i].id
  {
    seq(|hits|, i requires 0 <= i < |hits| => hits[i].id)
  }

  /** No element occurs twice. */
  predicate Distinct<T(==)>(s: seq<T>)
  {
    forall i, j :: 0 <= i < j < |s| ==> s[i] != s[j]
  }
}
