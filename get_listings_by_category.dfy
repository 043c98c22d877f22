/** Listings of one category that are still active. */
module GetListingsByCategoryHandler {
  import opened Domain
  import opened Sequences

  /** The predicate handed to the repository's `FindAsync`. */
  function InCategoryAndActive(categoryId: int): Listing -> bool {
    (l: Listing) => l.categoryId == categoryId && l.isActive
  }

  /** The active listings of `categoryId` among `all`, the stored listings. */
  function GetListingsByCategory(all: seq<Listing>, categoryId: int): (r: seq<Listing>)
    ensures forall l :: l in r ==> l.categoryId == categoryId
    ensures forall l :: l in r ==> l.isActive
    ensures forall l :: l in r ==> l in all
    ensures forall l :: l in all && l.categoryId == categoryId && l.isActive ==> l in r
  {
    Where(all, InCategoryAndActive(categoryId))
  }

  /** The result keeps the store's order. */
  lemma GetListingsByCategoryKeepsOrder(all: seq<Listing>, categoryId: int)
    ensures IsSubsequence(GetListingsByCategory(all, categoryId), all)
  {
    WhereIsSubsequence(all, InCategoryAndActive(categoryId));
  }
}
