/**
 * The listing search: start from every stored listing (in store order) and apply, one after
 * the other, the filters the query enables: seller, active only, category name, listing type.
 */
module GetAllListingsHandler {
  import opened Wrappers
  import opened Domain
  import opened Sequences

  /** The query; `activeOnly` starts out true. */
  datatype GetAllListingsQuery = GetAllListingsQuery(
    activeOnly: bool,
    category: Option<string>,
    listingType: Option<string>,
    userId: Option<string>)

  const DefaultQuery: GetAllListingsQuery := GetAllListingsQuery(true, None, None, None)

  /** `!string.IsNullOrEmpty(s)`: a string filter is on when it is present and not empty. */
  predicate Enabled(s: Option<string>) {
    s.Some? && s.value != ""
  }

  // The four filters, as the `Where` predicates the handler passes.

  function BySeller(userId: string): Listing -> bool {
    (l: Listing) => l.userId == userId
  }

  function ByActive(): Listing -> bool {
    (l: Listing) => l.isActive
  }

  /** `l.Category?.Name == category`: a listing whose category is not loaded never matches. */
  function ByCategoryName(category: string): Listing -> bool {
    (l: Listing) => l.categoryName == Some(category)
  }

  function ByListingType(listingType: string): Listing -> bool {
    (l: Listing) => l.listingType == listingType
  }

  /** What `Handle` returns for `all`, the listings in the order the store enumerates them. */
  function GetAllListings(all: seq<Listing>, q: GetAllListingsQuery): (r: seq<Listing>)
    ensures |r| <= |all|
    ensures forall l :: l in r ==> l in all && Matches(q, l)
  {
    var bySeller := if Enabled(q.userId) then Where(all, BySeller(q.userId.value)) else all;
    var byActive := if q.activeOnly then Where(bySeller, ByActive()) else bySeller;
    var byCategory := if Enabled(q.category) then Where(byActive, ByCategoryName(q.category.value)) else byActive;
    if Enabled(q.listingType) then Where(byCategory, ByListingType(q.listingType.value)) else byCategory
  }

  // Reference definition: one predicate that says which listings the query wants.

  predicate MatchesSeller(q: GetAllListingsQuery, l: Listing) {
    Enabled(q.userId) ==> l.userId == q.userId.value
  }

  predicate MatchesActive(q: GetAllListingsQuery, l: Listing) {
    q.activeOnly ==> l.isActive
  }

  predicate MatchesCategory(q: GetAllListingsQuery, l: Listing) {
    Enabled(q.category) ==> l.categoryName == q.category
  }

  predicate MatchesListingType(q: GetAllListingsQuery, l: Listing) {
    Enabled(q.listingType) ==> l.listingType == q.listingType.value
  }

  /** A listing passes every filter the query enables. */
  predicate Matches(q: GetAllListingsQuery, l: Listing) {
    MatchesSeller(q, l) && MatchesActive(q, l) && MatchesCategory(q, l) && MatchesListingType(q, l)
  }

  function MatchesSoFar(q: GetAllListingsQuery, stage: nat): Listing -> bool {
    (l: Listing) =>
      && (stage >= 1 ==> MatchesSeller(q, l))
      && (stage >= 2 ==> MatchesActive(q, l))
      && (stage >= 3 ==> MatchesCategory(q, l))
      && (stage >= 4 ==> MatchesListingType(q, l))
  }

  /** Applying one optional filter on top of a filter by the earlier stages is a filter by both. */
  lemma OptionalStage(all: seq<Listing>, xs: seq<Listing>, q: GetAllListingsQuery, stage: nat,
                      enabled: bool, filter: Listing -> bool, wanted: Listing -> bool)
    requires stage >= 1
    requires xs == Where(all, MatchesSoFar(q, stage - 1))
    requires forall l :: wanted(l) == (enabled ==> filter(l))
    requires forall l :: MatchesSoFar(q, stage)(l) == (MatchesSoFar(q, stage - 1)(l) && wanted(l))
    ensures (if enabled then Where(xs, filter) else xs) == Where(all, MatchesSoFar(q, stage))
  {
    if enabled {
      WhereWhere(all, MatchesSoFar(q, stage - 1), filter, MatchesSoFar(q, stage));
    } else {
      WhereCongruent(all, MatchesSoFar(q, stage - 1), MatchesSoFar(q, stage));
    }
  }

  /** The filter chain keeps exactly the listings that match the whole query, in store order. */
  lemma AllFiltersAsOne(all: seq<Listing>, q: GetAllListingsQuery)
    ensures GetAllListings(all, q) == Where(all, MatchesSoFar(q, 4))
  {
    WhereAll(all, MatchesSoFar(q, 0));
    var s1 := if Enabled(q.userId) then Where(all, BySeller(q.userId.value)) else all;
    OptionalStage(all, all, q, 1, Enabled(q.userId),
      if Enabled(q.userId) then BySeller(q.userId.value) else ByActive(), (l: Listing) => MatchesSeller(q, l));
    var s2 := if q.activeOnly then Where(s1, ByActive()) else s1;
    OptionalStage(all, s1, q, 2, q.activeOnly, ByActive(), (l: Listing) => MatchesActive(q, l));
    var s3 := if Enabled(q.category) then Where(s2, ByCategoryName(q.category.value)) else s2;
    OptionalStage(all, s2, q, 3, Enabled(q.category),
      if Enabled(q.category) then ByCategoryName(q.category.value) else ByActive(), (l: Listing) => MatchesCategory(q, l));
    OptionalStage(all, s3, q, 4, Enabled(q.listingType),
      if Enabled(q.listingType) then ByListingType(q.listingType.value) else ByActive(), (l: Listing) => MatchesListingType(q, l));
  }

  /**
   * Soundness, completeness and order: every result is a stored listing that matches the
   * query, every stored listing that matches is returned, and the result is the store's
   * sequence with the non-matching listings deleted.
   */
  lemma GetAllListingsSpec(all: seq<Listing>, q: GetAllListingsQuery)
    ensures forall l :: l in GetAllListings(all, q) ==> l in all && Matches(q, l)
    ensures forall l :: l in all && Matches(q, l) ==> l in GetAllListings(all, q)
    ensures IsSubsequence(GetAllListings(all, q), all)
  {
    AllFiltersAsOne(all, q);
    WhereIsSubsequence(all, MatchesSoFar(q, 4));
  }

  /** With no filter enabled, every listing is returned, in store order. */
  lemma NoFiltersReturnsAll(all: seq<Listing>, q: GetAllListingsQuery)
    requires !q.activeOnly && !Enabled(q.userId) && !Enabled(q.category) && !Enabled(q.listingType)
    ensures GetAllListings(all, q) == all
  {
    AllFiltersAsOne(all, q);
    WhereAll(all, MatchesSoFar(q, 4));
  }

  /** The default query returns exactly the active listings. */
  lemma DefaultQueryIsActiveOnly(all: seq<Listing>)
    ensures GetAllListings(all, DefaultQuery) == Where(all, ByActive())
  {
  }
}
