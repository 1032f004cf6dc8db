/**
 * The catalog service: the stored search filters with their partial-update merge, and the
 * filter-then-sort query over the unit list.
 */
module Catalog {
  import opened Wrappers
  import opened UnitModel

  // ---------------------------------------------------------------------------
  // Search filters
  // ---------------------------------------------------------------------------

  /** `UnitSize | 'all'`. */
  datatype SizeChoice = AllSizes | OnlySize(size: UnitSize)

  /** `'price' | 'distance' | 'rating'`. */
  datatype SortKey = ByPrice | ByDistance | ByRating

  datatype SearchFilters = SearchFilters(
    location: string,
    size: SizeChoice,
    maxPrice: Option<int>,      // `number | null`
    features: seq<UnitFeature>,
    sortBy: SortKey)

  /** `Partial<SearchFilters>`: each field is either absent or present with a value (for `maxPrice`, possibly `null`). */
  datatype FilterUpdate = FilterUpdate(
    location: Option<string>,
    size: Option<SizeChoice>,
    maxPrice: Option<Option<int>>,
    features: Option<seq<UnitFeature>>,
    sortBy: Option<SortKey>)

  const NoUpdate: FilterUpdate := FilterUpdate(None, None, None, None, None)

  /** The filter state the service starts with. */
  const InitialFilters: SearchFilters := SearchFilters("Austin, TX", AllSizes, None, [], ByDistance)

  /** `{ ...current, ...update }`: the fields present in `update` win, the others keep their value. */
  function Merge(current: SearchFilters, update: FilterUpdate): (r: SearchFilters)
    ensures update.location.Some? ==> r.location == update.location.value
    ensures update.location.None? ==> r.location == current.location
    ensures update.size.Some? ==> r.size == update.size.value
    ensures update.size.None? ==> r.size == current.size
    ensures update.maxPrice.Some? ==> r.maxPrice == update.maxPrice.value
    ensures update.maxPrice.None? ==> r.maxPrice == current.maxPrice
    ensures update.features.Some? ==> r.features == update.features.value
    ensures update.features.None? ==> r.features == current.features
    ensures update.sortBy.Some? ==> r.sortBy == update.sortBy.value
    ensures update.sortBy.None? ==> r.sortBy == current.sortBy
  {
    SearchFilters(
      update.location.GetOr(current.location),
      update.size.GetOr(current.size),
      update.maxPrice.GetOr(current.maxPrice),
      update.features.GetOr(current.features),
      update.sortBy.GetOr(current.sortBy))
  }

  /** An empty update changes nothing. */
  lemma MergeNoUpdate(current: SearchFilters)
    ensures Merge(current, NoUpdate) == current
  {
  }

  /** Applying the same update twice is applying it once. */
  lemma MergeIdempotent(current: SearchFilters, update: FilterUpdate)
    ensures Merge(Merge(current, update), update) == Merge(current, update)
  {
  }

  /** An update that sets every field replaces the state outright. */
  lemma MergeFullUpdate(current: SearchFilters, f: SearchFilters)
    ensures Merge(current, FilterUpdate(Some(f.location), Some(f.size), Some(f.maxPrice), Some(f.features), Some(f.sortBy))) == f
  {
  }

  // ---------------------------------------------------------------------------
  // The filters
  // ---------------------------------------------------------------------------

  /** JavaScript truthiness of `maxPrice`: not `null` and not 0. */
  predicate PriceCapActive(maxPrice: Option<int>) {
    maxPrice.Some? && maxPrice.value != 0
  }

  predicate MatchesSize(u: StorageUnit, size: SizeChoice) {
    size.OnlySize? ==> u.size == size.size
  }

  predicate WithinPrice(u: StorageUnit, maxPrice: Option<int>) {
    PriceCapActive(maxPrice) ==> u.price <= maxPrice.value
  }

  predicate HasFeatures(u: StorageUnit, features: seq<UnitFeature>) {
    forall f :: f in features ==> f in u.features
  }

  /** A unit passes the filters: the right size (unless "all"), within an active price cap, with every requested feature. */
  predicate Passes(u: StorageUnit, filters: SearchFilters) {
    MatchesSize(u, filters.size) && WithinPrice(u, filters.maxPrice) && HasFeatures(u, filters.features)
  }

  /** `s.filter(p)`: the elements satisfying `p`, in order. */
  function Where(s: seq<StorageUnit>, p: StorageUnit -> bool): (r: seq<StorageUnit>)
    ensures forall i :: 0 <= i < |r| ==> p(r[i])
    ensures forall u :: multiset(r)[u] == if p(u) then multiset(s)[u] else 0
  {
    if s == [] then []
    else
      assert s == [s[0]] + s[1..];
      if p(s[0]) then [s[0]] + Where(s[1..], p) else Where(s[1..], p)
  }

  // ---------------------------------------------------------------------------
  // The sort orders
  // ---------------------------------------------------------------------------

  /** The number the comparator of `sortBy` subtracts, oriented so that smaller comes first. */
  function SortValue(key: SortKey, u: StorageUnit): real {
    match key
    case ByPrice => u.price as real
    case ByDistance => u.distance
    case ByRating => -u.rating
  }

  /** `a` may precede `b`: the comparator does not put it after `b`. */
  predicate InOrder(key: SortKey, a: StorageUnit, b: StorageUnit) {
    SortValue(key, a) <= SortValue(key, b)
  }

  predicate SortedBy(s: seq<StorageUnit>, key: SortKey) {
    forall i, j :: 0 <= i < j < |s| ==> InOrder(key, s[i], s[j])
  }

  /** Sorted by price or distance means non-decreasing in it; sorted by rating means non-increasing rating. */
  lemma SortedByMeaning(s: seq<StorageUnit>, key: SortKey, i: int, j: int)
    requires SortedBy(s, key) && 0 <= i < j < |s|
    ensures key == ByPrice ==> s[i].price <= s[j].price
    ensures key == ByDistance ==> s[i].distance <= s[j].distance
    ensures key == ByRating ==> s[i].rating >= s[j].rating
  {
    assert InOrder(key, s[i], s[j]);
  }

  /** The first `n` elements of `a` are in order. */
  ghost predicate PrefixSorted(a: array<StorageUnit>, n: int, key: SortKey)
    reads a
  {
    forall x, y :: 0 <= x < y < n && y < a.Length ==> SortValue(key, a[x]) <= SortValue(key, a[y])
  }

  /** `a.sort(comparator)` on an array: sorted by the chosen key and a permutation of the original contents. */
  method SortInPlace(a: array<StorageUnit>, key: SortKey)
    modifies a
    ensures SortedBy(a[..], key)
    ensures multiset(a[..]) == multiset(old(a[..]))
  {
    var i := 0;
    while i < a.Length
      invariant 0 <= i <= a.Length
      invariant PrefixSorted(a, i, key)
      invariant multiset(a[..]) == multiset(old(a[..]))
    {
      InsertBackward(a, i, key);
      i := i + 1;
    }
  }

  /** The first `n` elements of `a`, leaving out position `hole`, are in order. */
  ghost predicate SortedAround(a: array<StorageUnit>, n: int, hole: int, key: SortKey)
    reads a
  {
    forall x, y :: 0 <= x < y < n && y < a.Length && x != hole && y != hole ==> SortValue(key, a[x]) <= SortValue(key, a[y])
  }

  /** Moves `a[i]` left past every element that must come after it, so that the first `i + 1` elements are in order. */
  method InsertBackward(a: array<StorageUnit>, i: int, key: SortKey)
    requires 0 <= i < a.Length
    requires PrefixSorted(a, i, key)
    modifies a
    ensures PrefixSorted(a, i + 1, key)
    ensures multiset(a[..]) == multiset(old(a[..]))
  {
    var j := i;
    while j > 0 && SortValue(key, a[j - 1]) > SortValue(key, a[j])
      invariant 0 <= j <= i
      invariant SortedAround(a, i + 1, j, key)
      invariant forall y :: j < y <= i ==> SortValue(key, a[j]) <= SortValue(key, a[y])
      invariant multiset(a[..]) == multiset(old(a[..]))
    {
      ghost var b := a[..];
      Swap(a, j - 1, j);
      forall x, y | 0 <= x < y <= i && x != j - 1 && y != j - 1
        ensures SortValue(key, a[x]) <= SortValue(key, a[y])
      {
        if y == j {
          assert a[y] == b[j - 1] && a[x] == b[x];
        } else if x == j {
          assert a[x] == b[j - 1] && a[y] == b[y];
        } else {
          assert a[x] == b[x] && a[y] == b[y];
        }
      }
      j := j - 1;
    }
    forall x, y | 0 <= x < y <= i ensures SortValue(key, a[x]) <= SortValue(key, a[y]) {
      if y == j && x < j - 1 {
        assert SortValue(key, a[x]) <= SortValue(key, a[j - 1]);
      }
    }
  }

  method Swap(a: array<StorageUnit>, i: int, j: int)
    requires 0 <= i < j < a.Length
    modifies a
    ensures a[i] == old(a[j]) && a[j] == old(a[i])
    ensures forall k :: 0 <= k < a.Length && k != i && k != j ==> a[k] == old(a[k])
    ensures multiset(a[..]) == multiset(old(a[..]))
  {
    a[i], a[j] := a[j], a[i];
  }

  // ---------------------------------------------------------------------------
  // The query
  // ---------------------------------------------------------------------------

  /**
   * The filtering half of `filterAndSort`: copy the list, then drop what fails each active filter.
   * The result holds each passing unit exactly as often as the input does, and nothing else.
   */
  method ApplyFilters(units: seq<StorageUnit>, filters: SearchFilters) returns (filtered: seq<StorageUnit>)
    ensures forall u :: multiset(filtered)[u] == if Passes(u, filters) then multiset(units)[u] else 0
  {
    filtered := units;
    if filters.size.OnlySize? {
      filtered := Where(filtered, (u: StorageUnit) => u.size == filters.size.size);
    }
    assert forall u :: multiset(filtered)[u] == if MatchesSize(u, filters.size) then multiset(units)[u] else 0;
    ghost var sized := filtered;
    if PriceCapActive(filters.maxPrice) {
      filtered := Where(filtered, (u: StorageUnit) => u.price <= filters.maxPrice.value);
    }
    assert forall u :: multiset(filtered)[u] == if WithinPrice(u, filters.maxPrice) then multiset(sized)[u] else 0;
    ghost var priced := filtered;
    if |filters.features| > 0 {
      filtered := Where(filtered, (u: StorageUnit) => HasFeatures(u, filters.features));
    }
    assert forall u :: multiset(filtered)[u] == if HasFeatures(u, filters.features) then multiset(priced)[u] else 0;
  }

  /**
   * `filterAndSort`: the filtered copy, sorted in place by the chosen key. Every unit of the
   * result passes the filters, every passing unit of the input is kept as often as it occurs,
   * and the order is that of `sortBy`.
   */
  method FilterAndSort(units: seq<StorageUnit>, filters: SearchFilters) returns (result: seq<StorageUnit>)
    ensures forall u :: multiset(result)[u] == if Passes(u, filters) then multiset(units)[u] else 0
    ensures forall i :: 0 <= i < |result| ==> Passes(result[i], filters)
    ensures |result| <= |units|
    ensures SortedBy(result, filters.sortBy)
  {
    var filtered := ApplyFilters(units, filters);
    var copy := new StorageUnit[|filtered|](i requires 0 <= i < |filtered| => filtered[i]);
    assert copy[..] == filtered;
    SortInPlace(copy, filters.sortBy);
    result := copy[..];
    assert multiset(result) == multiset(filtered);
    forall i | 0 <= i < |result| ensures Passes(result[i], filters) {
      assert result[i] in multiset(result);
    }
    MultisetWhereSmaller(units, result, filters);
  }

  /** A multiset that keeps some elements of another, each at most as often, is no larger. */
  lemma MultisetWhereSmaller(units: seq<StorageUnit>, filtered: seq<StorageUnit>, filters: SearchFilters)
    requires forall u :: multiset(filtered)[u] == if Passes(u, filters) then multiset(units)[u] else 0
    ensures |filtered| <= |units|
  {
    var kept, all := multiset(filtered), multiset(units);
    assert kept <= all;
    assert all == kept + (all - kept);
  }

  /** Every input unit that passes the filters is in the result, and every unit in the result passes. */
  lemma FilterSoundAndComplete(units: seq<StorageUnit>, filters: SearchFilters, result: seq<StorageUnit>, u: StorageUnit)
    requires forall v :: multiset(result)[v] == if Passes(v, filters) then multiset(units)[v] else 0
    ensures u in result <==> u in units && Passes(u, filters)
  {
    assert multiset(result)[u] == if Passes(u, filters) then multiset(units)[u] else 0;
    assert (u in result) == (u in multiset(result));
    assert (u in units) == (u in multiset(units));
  }

  /** Each filter on its own: size "all", a `null` or 0 cap, and an empty feature list let everything through. */
  lemma InactiveFiltersPassAll(u: StorageUnit, filters: SearchFilters)
    requires filters.size == AllSizes && !PriceCapActive(filters.maxPrice) && filters.features == []
    ensures Passes(u, filters)
  {
  }

  // ---------------------------------------------------------------------------
  // The service
  // ---------------------------------------------------------------------------

  /** The service: the fixed unit list and the current filter state. */
  class StorageService {
    const mockUnits: seq<StorageUnit>
    var filters: SearchFilters

    constructor ()
      ensures mockUnits == MockUnits
      ensures filters == InitialFilters
    {
      mockUnits := MockUnits;
      filters := InitialFilters;
    }

    /** `getUnits(filters)`: the filtered and sorted unit list, delivered without the simulated delay. */
    method GetUnits(f: SearchFilters) returns (units: seq<StorageUnit>)
      ensures forall u :: multiset(units)[u] == if Passes(u, f) then multiset(mockUnits)[u] else 0
      ensures SortedBy(units, f.sortBy)
    {
      units := FilterAndSort(mockUnits, f);
    }

    /** `updateFilters(update)`: the fields present in `update` replace the stored ones. */
    method UpdateFilters(update: FilterUpdate)
      modifies this
      ensures filters == Merge(old(filters), update)
      ensures GetFilters() == Merge(old(GetFilters()), update)
    {
      filters := Merge(filters, update);
    }

    /** `getFilters()`: the current value of the stored filter state. */
    function GetFilters(): (r: SearchFilters)
      reads this
      ensures r == filters
    {
      filters
    }
  }

  /** The eight listings the service serves. */
  const MockUnits: seq<StorageUnit> := [
    StorageUnit("1", "StoreSafe Austin", "2100 S Lamar Blvd", "Austin, TX", 1.2, Medium, 129,
      [ClimateControlled, TwentyFourHourAccess, SecurityCameras, OnsiteManager], Available, 4.8, 234,
      "https://images.unsplash.com/photo-1600585152220-90363fe7e115?w=400&h=300&fit=crop", Some("First month free!")),
    StorageUnit("2", "SecureBox South Austin", "4501 S Congress Ave", "Austin, TX", 2.4, Large, 199,
      [DriveUp, TwentyFourHourAccess, SecurityCameras, TruckRental], Available, 4.6, 189,
      "https://images.unsplash.com/photo-1558618666-fcd25c85cd64?w=400&h=300&fit=crop", None),
    StorageUnit("3", "Climate King Storage", "8900 Research Blvd", "Austin, TX", 5.1, Small, 79,
      [ClimateControlled, Elevator, SecurityCameras, MovingSupplies], Limited, 4.9, 412,
      "https://images.unsplash.com/photo-1586023492125-27b2c045efd7?w=400&h=300&fit=crop", Some("50% off for 3 months")),
    StorageUnit("4", "EZ Access Storage", "1200 E 6th St", "Austin, TX", 0.8, Medium, 149,
      [TwentyFourHourAccess, DriveUp, SecurityCameras], Available, 4.4, 98,
      "https://images.unsplash.com/photo-1600607687939-ce8a6c25118c?w=400&h=300&fit=crop", None),
    StorageUnit("5", "Budget Store & Lock", "3300 N IH-35", "Austin, TX", 3.7, XLarge, 249,
      [DriveUp, TruckRental, SecurityCameras, OnsiteManager], Available, 4.2, 156,
      "https://images.unsplash.com/photo-1600566753190-17f0baa2a6c3?w=400&h=300&fit=crop", None),
    StorageUnit("6", "Premier Storage Solutions", "5600 Burnet Rd", "Austin, TX", 4.2, Small, 59,
      [Elevator, SecurityCameras, MovingSupplies], Available, 4.5, 267,
      "https://images.unsplash.com/photo-1600585154340-be6161a56a0c?w=400&h=300&fit=crop", Some("No deposit required")),
    StorageUnit("7", "Downtown Mini Storage", "700 Lavaca St", "Austin, TX", 0.3, Medium, 189,
      [ClimateControlled, TwentyFourHourAccess, Elevator, OnsiteManager], Limited, 4.7, 321,
      "https://images.unsplash.com/photo-1600047509807-ba8f99d2cdde?w=400&h=300&fit=crop", None),
    StorageUnit("8", "Family Storage Center", "9800 Manchaca Rd", "Austin, TX", 6.8, Large, 159,
      [DriveUp, SecurityCameras, TruckRental, MovingSupplies], Available, 4.3, 145,
      "https://images.unsplash.com/photo-1600573472550-8090b5e0745e?w=400&h=300&fit=crop", Some("Free lock with rental"))
  ]
}
