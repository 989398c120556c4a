/** The filter-clause builder of the OpenSearch client: a filter dictionary
    (keys `lat`, `lng`, `radius`, `budget_min`, `budget_max`, `category`; any
    other key is ignored) becomes an ordered list of AND-ed filter clauses. */
module OpenSearchFilters {
  import opened Common

  /** The filter dictionary handed to the adapters. */
  type FilterMap = map<string, Value>

  /** One clause of the OpenSearch `bool.filter` list. */
  datatype Clause =
    | GeoDistance(radiusKm: Value, lat: Value, lon: Value)   // distance rendered as "<radius>km"
    | PriceRange(gte: Option<Value>, lte: Option<Value>)      // bounds on `price`
    | CategoryTerm(category: Value)                           // exact match on `category`

  /** Radius used when the dictionary has no `radius` key, in kilometres. */
  const DefaultRadiusKm: Value := Int(5)

  /** `filters.get('radius', 5)`. */
  function Radius(f: FilterMap): Value
  {
    if "radius" in f then f["radius"] else DefaultRadiusKm
  }

  /** Position of a clause kind in the emitted list: geo, then price, then category. */
  function Rank(c: Clause): nat
  {
    match c
    case GeoDistance(_, _, _) => 0
    case PriceRange(_, _) => 1
    case CategoryTerm(_) => 2
  }

  /** The geo-distance part: present exactly when both coordinates are. */
  function GeoClauses(f: FilterMap): (r: seq<Clause>)
    ensures |r| <= 1 && forall c :: c in r ==> c.GeoDistance?
  {
    if "lat" in f && "lng" in f then [GeoDistance(Radius(f), f["lat"], f["lng"])] else []
  }

  /** The price-range part: present when at least one budget bound is. */
  function PriceClauses(f: FilterMap): (r: seq<Clause>)
    ensures |r| <= 1 && forall c :: c in r ==> c.PriceRange?
  {
    if "budget_min" in f || "budget_max" in f
    then [PriceRange(Lookup(f, "budget_min"), Lookup(f, "budget_max"))]
    else []
  }

  /** The category part: present when the key is. */
  function CategoryClauses(f: FilterMap): (r: seq<Clause>)
    ensures |r| <= 1 && forall c :: c in r ==> c.CategoryTerm?
  {
    if "category" in f then [CategoryTerm(f["category"])] else []
  }

  /** The clauses emitted for a filter dictionary: at most one of each kind,
      always in the order geo, price, category. */
  function FilterClauses(f: FilterMap): (r: seq<Clause>)
    ensures |r| <= 3
    ensures forall i, j :: 0 <= i < j < |r| ==> Rank(r[i]) < Rank(r[j])
  {
    GeoClauses(f) + PriceClauses(f) + CategoryClauses(f)
  }

  /** A geo clause is emitted exactly when both `lat` and `lng` are present; it
      carries them and the radius, 5 when the dictionary has none. */
  lemma GeoClauseIff(f: FilterMap)
    ensures ("lat" in f && "lng" in f) <==> exists c :: c in FilterClauses(f) && c.GeoDistance?
    ensures forall c :: c in FilterClauses(f) && c.GeoDistance? ==>
              "lat" in f && "lng" in f && c == GeoDistance(Radius(f), f["lat"], f["lng"])
  {
    var g, p, t := GeoClauses(f), PriceClauses(f), CategoryClauses(f);
    assert FilterClauses(f) == g + p + t;
    if "lat" in f && "lng" in f {
      assert g[0] in FilterClauses(f);
    }
  }

  /** A price clause is emitted exactly when `budget_min` or `budget_max` is
      present; it sets `gte` and `lte` only for the keys that are present. */
  lemma PriceClauseIff(f: FilterMap)
    ensures ("budget_min" in f || "budget_max" in f) <==> exists c :: c in FilterClauses(f) && c.PriceRange?
    ensures forall c :: c in FilterClauses(f) && c.PriceRange? ==>
              c.gte == Lookup(f, "budget_min") && c.lte == Lookup(f, "budget_max")
  {
    var g, p, t := GeoClauses(f), PriceClauses(f), CategoryClauses(f);
    assert FilterClauses(f) == g + p + t;
    if "budget_min" in f || "budget_max" in f {
      assert p[0] in FilterClauses(f);
    }
  }

  /** A category clause is emitted exactly when `category` is present. */
  lemma CategoryClauseIff(f: FilterMap)
    ensures ("category" in f) <==> exists c :: c in FilterClauses(f) && c.CategoryTerm?
    ensures forall c :: c in FilterClauses(f) && c.CategoryTerm? ==>
              "category" in f && c == CategoryTerm(f["category"])
  {
    var g, p, t := GeoClauses(f), PriceClauses(f), CategoryClauses(f);
    assert FilterClauses(f) == g + p + t;
    if "category" in f {
      assert t[0] in FilterClauses(f);
    }
  }

  /** `_build_filters`: appends clauses to a list, filling the price bounds of
      the range clause one key at a time. */
  method BuildFilters(filters: FilterMap) returns (clauses: seq<Clause>)
    ensures clauses == FilterClauses(filters)
  {
    clauses := [];
    if "lat" in filters && "lng" in filters {
      var radius := if "radius" in filters then filters["radius"] else DefaultRadiusKm;
      clauses := clauses + [GeoDistance(radius, filters["lat"], filters["lng"])];
    }
    if "budget_min" in filters || "budget_max" in filters {
      var budgetFilter := PriceRange(None, None);
      if "budget_min" in filters {
        budgetFilter := budgetFilter.(gte := Some(filters["budget_min"]));
      }
      if "budget_max" in filters {
        budgetFilter := budgetFilter.(lte := Some(filters["budget_max"]));
      }
      clauses := clauses + [budgetFilter];
    }
    if "category" in filters {
      clauses := clauses + [CategoryTerm(filters["category"])];
    }
  }
}
