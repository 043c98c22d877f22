/**
 * The listing part of the database seeder: when the table holds fewer than 30 listings, the
 * listings numbered `existingCount + 1` up to 30 are generated from fixed formulas and owned by
 * the test user.
 */
module DatabaseSeeder {
  import opened Wrappers
  import opened Text
  import opened Domain

  /** The number of listings the seeder tops the table up to. */
  const SeedTarget: nat := 30

  const CarsCategory: int := 1
  const MotorcyclesCategory: int := 2
  const PartsCategory: int := 3

  /** The test user was not found, so `testUser!.Id` throws on the first generated listing. */
  datatype SeedError = MissingTestUser

  /** The category of listing `i`: cars, motorcycles and parts in turn. */
  function SeedCategoryId(i: nat): (c: int)
    ensures c == (i + 2) % 3 + 1
    ensures CarsCategory <= c <= PartsCategory
  {
    if i % 3 == 1 then CarsCategory else if i % 3 == 2 then MotorcyclesCategory else PartsCategory
  }

  /** The number of the stock image listing `i` shows: 1 to 10 in turn. */
  function ImageIndex(i: nat): (n: nat)
    requires i >= 1
    ensures 1 <= n <= 10
    ensures n % 10 == i % 10
  {
    (i - 1) % 10 + 1
  }

  /** The title names the kind of listing and ends with the listing's number. */
  function SeedTitle(i: nat, categoryId: int): (title: string)
    ensures |NatToString(i)| < |title| && title[|title| - |NatToString(i)|..] == NatToString(i)
  {
    var prefix :=
      if categoryId == CarsCategory then "Used Car Model "
      else if categoryId == MotorcyclesCategory then "Motorcycle Model "
      else "Part #";
    assert (prefix + NatToString(i))[|prefix|..] == NatToString(i);
    prefix + NatToString(i)
  }

  /** Parts cost 10 + 2i, vehicles 1000 + 150i: every vehicle costs at least 1000. */
  function SeedPrice(i: nat, categoryId: int): (price: real)
    ensures price >= 10.0
    ensures categoryId != PartsCategory ==> price >= 1000.0
  {
    if categoryId == PartsCategory then (10 + i * 2) as real else (1000 + i * 150) as real
  }

  /** Listing number `i` as the seeder builds it; the id is left to the database. */
  function SeedListing(i: nat, userId: string, now: DateTime): (l: Listing)
    requires i >= 1
    ensures l.categoryId == SeedCategoryId(i)
    ensures l.make == Some("") <==> l.categoryId == PartsCategory
    ensures l.year.Some? && 2000 <= l.year.value <= 2024
    ensures l.price == if l.categoryId == PartsCategory then (10 + 2 * i) as real else (1000 + 150 * i) as real
    ensures l.price >= 12.0
    ensures l.currency == "USD" && l.listingType == "Sale" && l.isActive
    ensures l.userId == userId && l.createdAt == now
  {
    var categoryId := SeedCategoryId(i);
    var make := if categoryId == PartsCategory then "" else "Make" + NatToString(i % 10);
    var model := if categoryId == PartsCategory then "PartModel" + NatToString(i % 20) else "Model" + NatToString(i % 20);
    var imageUrl := "/images/listings/listing" + NatToString(ImageIndex(i)) + ".jpg";
    Listing(
      id := 0,
      title := SeedTitle(i, categoryId),
      description := "Auto-generated listing " + NatToString(i),
      price := SeedPrice(i, categoryId),
      currency := "USD",
      categoryId := categoryId,
      categoryName := None,
      listingType := "Sale",
      make := Some(make),
      model := Some(model),
      year := Some(2000 + i % 25),
      condition := Some("Good"),
      imageUrl := Some(imageUrl),
      userId := userId,
      createdAt := now,
      isActive := true)
  }

  /** The listings numbered `first` up to but excluding `last`, in order. */
  function SeedListings(first: nat, last: nat, userId: string, now: DateTime): (listings: seq<Listing>)
    requires first >= 1
    ensures |listings| == if last <= first then 0 else last - first
    decreases last - first
  {
    if last <= first then [] else SeedListings(first, last - 1, userId, now) + [SeedListing(last - 1, userId, now)]
  }

  /** One listing per number in the range, each built from its own number. */
  lemma {:induction false} SeedListingsSpec(first: nat, last: nat, userId: string, now: DateTime)
    requires first >= 1
    ensures |SeedListings(first, last, userId, now)| == if last <= first then 0 else last - first
    ensures forall k | 0 <= k < |SeedListings(first, last, userId, now)| ::
      SeedListings(first, last, userId, now)[k] == SeedListing(first + k, userId, now)
    decreases last - first
  {
    if last > first {
      SeedListingsSpec(first, last - 1, userId, now);
      var s := SeedListings(first, last, userId, now);
      var front := SeedListings(first, last - 1, userId, now);
      assert s == front + [SeedListing(last - 1, userId, now)];
      forall k | 0 <= k < |s|
        ensures s[k] == SeedListing(first + k, userId, now)
      {
        if k < |front| {
          assert s[k] == front[k];
        } else {
          assert k == |front| == last - 1 - first;
          assert s[k] == SeedListing(last - 1, userId, now);
        }
      }
    }
  }

  /** Every seeded listing is a dollar-priced, active sale owned by the given user. */
  lemma SeededListingsAreActiveUsdSales(first: nat, last: nat, userId: string, now: DateTime)
    requires first >= 1
    ensures forall l | l in SeedListings(first, last, userId, now) ::
      l.currency == "USD" && l.listingType == "Sale" && l.isActive && l.userId == userId
  {
    SeedListingsSpec(first, last, userId, now);
    var s := SeedListings(first, last, userId, now);
    forall l | l in s
      ensures l.currency == "USD" && l.listingType == "Sale" && l.isActive && l.userId == userId
    {
      var k :| 0 <= k < |s| && s[k] == l;
      assert l == SeedListing(first + k, userId, now);
    }
  }

  /** Listings three numbers apart share a category and ten apart share an image. */
  lemma SeedingIsPeriodic(i: nat)
    requires i >= 1
    ensures SeedCategoryId(i + 3) == SeedCategoryId(i)
    ensures ImageIndex(i + 10) == ImageIndex(i)
  {
  }

  /**
   * The listing-generation block of `SeedAsync`. `testUserId` is the id of the test user, or
   * None when it could not be found or created.
   */
  method GenerateSeedListings(existingCount: nat, testUserId: Option<string>, now: DateTime)
    returns (r: Result<seq<Listing>, SeedError>)
    ensures r.Failure? <==> existingCount < SeedTarget && testUserId.None?
    ensures existingCount >= SeedTarget ==> r == Success([])
    ensures existingCount < SeedTarget && testUserId.Some? ==>
      r == Success(SeedListings(existingCount + 1, SeedTarget + 1, testUserId.value, now))
    ensures r.Success? ==> existingCount + |r.value| == if existingCount < SeedTarget then SeedTarget else existingCount
  {
    if existingCount >= SeedTarget {
      return Success([]);
    }
    if testUserId.None? {
      return Failure(MissingTestUser);
    }
    var userId := testUserId.value;
    var listings: seq<Listing> := [];
    var i := existingCount + 1;
    while i <= SeedTarget
      invariant existingCount + 1 <= i <= SeedTarget + 1
      invariant listings == SeedListings(existingCount + 1, i, userId, now)
    {
      listings := listings + [SeedListing(i, userId, now)];
      i := i + 1;
    }
    SeedListingsSpec(existingCount + 1, SeedTarget + 1, userId, now);
    r := Success(listings);
  }

  /** An empty table receives listings 1 to 30; the first is a car, the third a part. */
  method SeedEmptyTable(userId: string, now: DateTime) returns (listings: seq<Listing>)
    ensures |listings| == 30
    ensures listings[0].categoryId == CarsCategory && listings[0].price == 1150.0
    ensures listings[2].categoryId == PartsCategory && listings[2].price == 16.0
  {
    var r := GenerateSeedListings(0, Some(userId), now);
    SeedListingsSpec(1, 31, userId, now);
    listings := r.value;
  }
}
