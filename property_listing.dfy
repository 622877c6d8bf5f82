/** The "all properties" page: a read-only catalog narrowed by a record of optional criteria,
    one guarded `filter` pass per criterion. */
module PropertyListing {
  import opened Options
  import opened Seqs
  import opened Text

  /** One listing; only the fields the filter reads are modelled, plus its id. */
  datatype Property = Property(
    id: int,
    price: int,
    bedrooms: int,
    bathrooms: int,
    garage: int,
    location: string)

  /** The page's `filters` state: each criterion is optional (`undefined` is `None`). */
  datatype Criteria = Criteria(
    minPrice: Option<int>,
    maxPrice: Option<int>,
    bedrooms: Option<int>,
    bathrooms: Option<int>,
    garage: Option<bool>,
    location: Option<string>)

  /** Every criterion absent: the initial `filters` and what "clear filters" sends. */
  const NoCriteria := Criteria(None, None, None, None, None, None)

  // One predicate per guarded stage. A numeric stage is skipped only when its criterion is
  // absent (`!== undefined`); the location stage is skipped also for the empty string,
  // because its guard tests truthiness.

  predicate MinPriceOk(filters: Criteria, p: Property)
  {
    filters.minPrice.None? || p.price >= filters.minPrice.value
  }

  predicate MaxPriceOk(filters: Criteria, p: Property)
  {
    filters.maxPrice.None? || p.price <= filters.maxPrice.value
  }

  predicate BedroomsOk(filters: Criteria, p: Property)
  {
    filters.bedrooms.None? || p.bedrooms >= filters.bedrooms.value
  }

  predicate BathroomsOk(filters: Criteria, p: Property)
  {
    filters.bathrooms.None? || p.bathrooms >= filters.bathrooms.value
  }

  predicate GarageOk(filters: Criteria, p: Property)
  {
    filters.garage.None? || (if filters.garage.value then p.garage > 0 else p.garage == 0)
  }

  predicate LocationOk(filters: Criteria, p: Property)
  {
    filters.location.None? || filters.location.value == ""
    || MatchesIgnoringCase(p.location, filters.location.value)
  }

  /** A record satisfies every present criterion: the single conjunctive filter. */
  predicate Matches(filters: Criteria, p: Property)
  {
    MinPriceOk(filters, p) && MaxPriceOk(filters, p) && BedroomsOk(filters, p)
    && BathroomsOk(filters, p) && GarageOk(filters, p) && LocationOk(filters, p)
  }

  function Keep(filters: Criteria): Property -> bool
  {
    p => Matches(filters, p)
  }

  /** The reference result: the catalog filtered once by the conjunction of all criteria. */
  function Filtered(catalog: seq<Property>, filters: Criteria): seq<Property>
  {
    Filter(catalog, Keep(filters))
  }

  /** The result is an order-preserving subsequence of the catalog that holds every
      occurrence of each record satisfying all present criteria, and nothing else. */
  lemma FilteredIsConjunctiveSubsequence(catalog: seq<Property>, filters: Criteria)
    ensures |Filtered(catalog, filters)| <= |catalog|
    ensures Subsequence(Filtered(catalog, filters), catalog)
    ensures forall x :: x in Filtered(catalog, filters) <==> x in catalog && Matches(filters, x)
    ensures forall x :: multiset(Filtered(catalog, filters))[x]
                        == if Matches(filters, x) then multiset(catalog)[x] else 0
  {
    FilterIsSubsequence(catalog, Keep(filters));
    FilterMembership(catalog, Keep(filters));
    forall x
      ensures multiset(Filtered(catalog, filters))[x] == if Matches(filters, x) then multiset(catalog)[x] else 0
    {
      FilterCount(catalog, Keep(filters), x);
    }
  }

  // The callbacks that `applyFilters` passes to `filter`, one per stage. Each keeps a
  // record exactly when the criteria holding only that stage's value accept it.

  function PriceAtLeast(minPrice: int): (keep: Property -> bool)
    ensures forall p :: keep(p) <==> Matches(NoCriteria.(minPrice := Some(minPrice)), p)
  {
    (p: Property) => p.price >= minPrice
  }

  function PriceAtMost(maxPrice: int): (keep: Property -> bool)
    ensures forall p :: keep(p) <==> Matches(NoCriteria.(maxPrice := Some(maxPrice)), p)
  {
    (p: Property) => p.price <= maxPrice
  }

  function BedroomsAtLeast(bedrooms: int): (keep: Property -> bool)
    ensures forall p :: keep(p) <==> Matches(NoCriteria.(bedrooms := Some(bedrooms)), p)
  {
    (p: Property) => p.bedrooms >= bedrooms
  }

  function BathroomsAtLeast(bathrooms: int): (keep: Property -> bool)
    ensures forall p :: keep(p) <==> Matches(NoCriteria.(bathrooms := Some(bathrooms)), p)
  {
    (p: Property) => p.bathrooms >= bathrooms
  }

  function GarageMatches(garage: bool): (keep: Property -> bool)
    ensures forall p :: keep(p) <==> Matches(NoCriteria.(garage := Some(garage)), p)
  {
    (p: Property) => if garage then p.garage > 0 else p.garage == 0
  }

  function LocationIncludes(location: string): (keep: Property -> bool)
    ensures forall p :: keep(p) <==> Matches(NoCriteria.(location := Some(location)), p)
  {
    (p: Property) => MatchesIgnoringCase(p.location, location)
  }

  /** The criteria seen by the first `k` stages; the later ones are still absent. */
  function Prefix(filters: Criteria, k: nat): Criteria
  {
    Criteria(
      if k >= 1 then filters.minPrice else None,
      if k >= 2 then filters.maxPrice else None,
      if k >= 3 then filters.bedrooms else None,
      if k >= 4 then filters.bathrooms else None,
      if k >= 5 then filters.garage else None,
      if k >= 6 then filters.location else None)
  }

  /** The guard of stage `k`, 1 to 6 in source order. */
  predicate Guard(filters: Criteria, k: nat)
  {
    if k == 1 then filters.minPrice.Some?
    else if k == 2 then filters.maxPrice.Some?
    else if k == 3 then filters.bedrooms.Some?
    else if k == 4 then filters.bathrooms.Some?
    else if k == 5 then filters.garage.Some?
    else k == 6 && filters.location.Some? && filters.location.value != ""
  }

  /** The callback of stage `k`. */
  function Callback(filters: Criteria, k: nat): Property -> bool
    requires Guard(filters, k)
  {
    if k == 1 then PriceAtLeast(filters.minPrice.value)
    else if k == 2 then PriceAtMost(filters.maxPrice.value)
    else if k == 3 then BedroomsAtLeast(filters.bedrooms.value)
    else if k == 4 then BathroomsAtLeast(filters.bathrooms.value)
    else if k == 5 then GarageMatches(filters.garage.value)
    else LocationIncludes(filters.location.value)
  }

  /** Stage `k` takes the result for the first `k - 1` criteria to the result for the first
      `k`: by running its callback when its guard holds, and by doing nothing otherwise. */
  lemma StageStep(catalog: seq<Property>, filters: Criteria, k: nat)
    requires 1 <= k <= 6
    ensures Guard(filters, k) ==>
      Filter(Filtered(catalog, Prefix(filters, k - 1)), Callback(filters, k)) == Filtered(catalog, Prefix(filters, k))
    ensures !Guard(filters, k) ==>
      Filtered(catalog, Prefix(filters, k - 1)) == Filtered(catalog, Prefix(filters, k))
  {
    var before, after := Keep(Prefix(filters, k - 1)), Keep(Prefix(filters, k));
    if Guard(filters, k) {
      FilterFuse(catalog, before, Callback(filters, k), after);
    } else {
      FilterExtensional(catalog, before, after);
    }
  }

  /** `applyFilters` (the page's effect): six guarded `filter` passes over the catalog.
      Their composition is the single conjunctive filter. */
  method ApplyFilters(catalog: seq<Property>, filters: Criteria) returns (currentFiltered: seq<Property>)
    ensures currentFiltered == Filtered(catalog, filters)
  {
    currentFiltered := catalog;
    NoCriteriaKeepsCatalog(catalog);
    assert currentFiltered == Filtered(catalog, Prefix(filters, 0));

    StageStep(catalog, filters, 1);
    if filters.minPrice.Some? {
      currentFiltered := Filter(currentFiltered, PriceAtLeast(filters.minPrice.value));
    }
    assert currentFiltered == Filtered(catalog, Prefix(filters, 1));
    StageStep(catalog, filters, 2);
    if filters.maxPrice.Some? {
      currentFiltered := Filter(currentFiltered, PriceAtMost(filters.maxPrice.value));
    }
    assert currentFiltered == Filtered(catalog, Prefix(filters, 2));
    StageStep(catalog, filters, 3);
    if filters.bedrooms.Some? {
      currentFiltered := Filter(currentFiltered, BedroomsAtLeast(filters.bedrooms.value));
    }
    assert currentFiltered == Filtered(catalog, Prefix(filters, 3));
    StageStep(catalog, filters, 4);
    if filters.bathrooms.Some? {
      currentFiltered := Filter(currentFiltered, BathroomsAtLeast(filters.bathrooms.value));
    }
    assert currentFiltered == Filtered(catalog, Prefix(filters, 4));
    StageStep(catalog, filters, 5);
    if filters.garage.Some? {
      currentFiltered := Filter(currentFiltered, GarageMatches(filters.garage.value));
    }
    assert currentFiltered == Filtered(catalog, Prefix(filters, 5));
    StageStep(catalog, filters, 6);
    if filters.location.Some? && filters.location.value != "" {
      currentFiltered := Filter(currentFiltered, LocationIncludes(filters.location.value));
    }
    assert currentFiltered == Filtered(catalog, Prefix(filters, 6));
    assert Prefix(filters, 6) == filters;
  }

  /** The page component's state: the catalog it was given, the current criteria and the
      records on display. */
  class PropertiesPage {
    const catalog: seq<Property>
    var filters: Criteria
    var filteredProperties: seq<Property>

    /** What is displayed is always the catalog filtered by the current criteria. */
    ghost predicate Valid()
      reads this
    {
      filteredProperties == Filtered(catalog, filters)
    }

    /** Initially no criterion is set and the whole catalog is displayed. */
    constructor (catalog: seq<Property>)
      ensures this.catalog == catalog
      ensures filters == NoCriteria && filteredProperties == catalog
      ensures Valid()
    {
      this.catalog := catalog;
      filters := NoCriteria;
      filteredProperties := catalog;
      NoCriteriaKeepsCatalog(catalog);
    }

    /** `handleFilterChange` stores the new criteria; the effect that depends on them then
        recomputes the displayed records. */
    method HandleFilterChange(newFilters: Criteria)
      modifies this
      ensures filters == newFilters
      ensures filteredProperties == Filtered(catalog, newFilters)
      ensures Valid()
    {
      filters := newFilters;
      filteredProperties := ApplyFilters(catalog, filters);
    }
  }

  /** With every criterion absent the result is the catalog itself: same records, same
      order, same count. */
  lemma NoCriteriaKeepsCatalog(catalog: seq<Property>)
    ensures Filtered(catalog, NoCriteria) == catalog
  {
    FilterKeepsAll(catalog, Keep(NoCriteria));
  }

  /** An empty catalog yields an empty result, whatever the criteria. */
  lemma EmptyCatalogEmptyResult(filters: Criteria)
    ensures Filtered([], filters) == []
  {
  }

  /** A record is kept exactly when it satisfies every present criterion; in particular a
      record failing any one criterion is dropped. */
  lemma KeptIffAllCriteriaHold(catalog: seq<Property>, filters: Criteria, x: Property)
    requires x in catalog
    ensures x in Filtered(catalog, filters) <==>
      MinPriceOk(filters, x) && MaxPriceOk(filters, x) && BedroomsOk(filters, x)
      && BathroomsOk(filters, x) && GarageOk(filters, x) && LocationOk(filters, x)
  {
    FilteredIsConjunctiveSubsequence(catalog, filters);
  }

  /** Price bounds and room thresholds are inclusive: a record whose price equals both
      bounds and whose room counts equal the thresholds is kept. */
  lemma BoundariesInclusive(catalog: seq<Property>, x: Property)
    requires x in catalog
    ensures x in Filtered(catalog,
      Criteria(Some(x.price), Some(x.price), Some(x.bedrooms), Some(x.bathrooms), None, None))
  {
    FilteredIsConjunctiveSubsequence(catalog,
      Criteria(Some(x.price), Some(x.price), Some(x.bedrooms), Some(x.bathrooms), None, None));
  }

  /** Every present numeric criterion is enforced, including a zero one. */
  lemma PresentBoundsEnforced(catalog: seq<Property>, filters: Criteria)
    ensures forall x :: x in Filtered(catalog, filters) ==>
      (filters.minPrice.Some? ==> x.price >= filters.minPrice.value)
      && (filters.maxPrice.Some? ==> x.price <= filters.maxPrice.value)
      && (filters.bedrooms.Some? ==> x.bedrooms >= filters.bedrooms.value)
      && (filters.bathrooms.Some? ==> x.bathrooms >= filters.bathrooms.value)
  {
    FilteredIsConjunctiveSubsequence(catalog, filters);
  }

  /** A lower bound above the upper bound leaves nothing. */
  lemma InvertedPriceRangeIsEmpty(catalog: seq<Property>, filters: Criteria)
    requires filters.minPrice.Some? && filters.maxPrice.Some?
    requires filters.minPrice.value > filters.maxPrice.value
    ensures Filtered(catalog, filters) == []
  {
    FilteredIsConjunctiveSubsequence(catalog, filters);
  }

  /** `garage = true` keeps only records with a garage, `garage = false` only records
      without one. */
  lemma GarageSemantics(catalog: seq<Property>, filters: Criteria)
    ensures filters.garage == Some(true) ==> forall x :: x in Filtered(catalog, filters) ==> x.garage > 0
    ensures filters.garage == Some(false) ==> forall x :: x in Filtered(catalog, filters) ==> x.garage == 0
  {
    FilteredIsConjunctiveSubsequence(catalog, filters);
  }

  /** An empty location query applies no location filter: it behaves as an absent one. */
  lemma BlankLocationIgnored(catalog: seq<Property>, filters: Criteria)
    ensures Filtered(catalog, filters.(location := Some(""))) == Filtered(catalog, filters.(location := None))
  {
    FilterExtensional(catalog, Keep(filters.(location := Some(""))), Keep(filters.(location := None)));
  }

  /** The location query is case-insensitive. */
  lemma LocationCaseInsensitive(catalog: seq<Property>, filters: Criteria, query: string)
    ensures Filtered(catalog, filters.(location := Some(Lower(query))))
         == Filtered(catalog, filters.(location := Some(query)))
  {
    forall i | 0 <= i < |catalog|
      ensures Keep(filters.(location := Some(Lower(query))))(catalog[i])
           == Keep(filters.(location := Some(query)))(catalog[i])
    {
      QueryCaseIrrelevant(catalog[i].location, query);
    }
    FilterExtensional(catalog, Keep(filters.(location := Some(Lower(query)))),
                      Keep(filters.(location := Some(query))));
  }

  /** `more` keeps every criterion `fewer` has and may add further ones. */
  predicate Extends(more: Criteria, fewer: Criteria)
  {
    (fewer.minPrice.Some? ==> more.minPrice == fewer.minPrice)
    && (fewer.maxPrice.Some? ==> more.maxPrice == fewer.maxPrice)
    && (fewer.bedrooms.Some? ==> more.bedrooms == fewer.bedrooms)
    && (fewer.bathrooms.Some? ==> more.bathrooms == fewer.bathrooms)
    && (fewer.garage.Some? ==> more.garage == fewer.garage)
    && (fewer.location.Some? && fewer.location.value != "" ==> more.location == fewer.location)
  }

  /** Adding criteria never enlarges the result: it is an order-preserving subsequence of
      the result with fewer criteria. */
  lemma MoreCriteriaNarrow(catalog: seq<Property>, fewer: Criteria, more: Criteria)
    requires Extends(more, fewer)
    ensures Subsequence(Filtered(catalog, more), Filtered(catalog, fewer))
    ensures |Filtered(catalog, more)| <= |Filtered(catalog, fewer)|
  {
    FilterNarrows(catalog, Keep(fewer), Keep(more));
    SubsequenceBounds(Filtered(catalog, more), Filtered(catalog, fewer));
  }
}
