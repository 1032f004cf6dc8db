/**
 * The filter panel: a local copy of the search filters that the template edits, and methods
 * that push single-field updates to the catalog service.
 */
module SearchFilters {
  import opened Wrappers
  import opened UnitModel
  import opened Catalog

  /** The new feature list of `toggleFeature`: a present feature is removed (every occurrence), an absent one appended. */
  function Toggled(features: seq<UnitFeature>, f: UnitFeature): (r: seq<UnitFeature>)
    ensures f in features ==> f !in r && forall g :: g in r <==> g in features && g != f
    ensures f in features ==> multiset(r) == multiset(features)[f := 0]
    ensures f !in features ==> r == features + [f]
  {
    if f in features then Without(features, f) else features + [f]
  }

  /** `features.filter(g => g !== f)`: every other feature is kept as often as it occurs, and `f` not at all. */
  function Without(features: seq<UnitFeature>, f: UnitFeature): (r: seq<UnitFeature>)
    ensures forall g :: g in r <==> g in features && g != f
    ensures multiset(r) == multiset(features)[f := 0]
    ensures |r| == |features| - multiset(features)[f]
  {
    if features == [] then []
    else
      assert features == [features[0]] + features[1..];
      if features[0] == f then Without(features[1..], f)
      else [features[0]] + Without(features[1..], f)
  }

  /** No feature is listed twice. */
  predicate Distinct(features: seq<UnitFeature>) {
    forall i, j :: 0 <= i < j < |features| ==> features[i] != features[j]
  }

  /** A distinct list holds each of its features once. */
  lemma {:induction false} DistinctCountsOnce(features: seq<UnitFeature>, f: UnitFeature)
    requires Distinct(features) && f in features
    ensures multiset(features)[f] == 1
  {
    assert features == [features[0]] + features[1..];
    assert Distinct(features[1..]);
    if features[0] == f {
      assert f !in features[1..];
    } else {
      DistinctCountsOnce(features[1..], f);
    }
  }

  /** Removing a feature from a list without repeats leaves a list without repeats. */
  lemma {:induction false} WithoutKeepsDistinct(features: seq<UnitFeature>, f: UnitFeature)
    requires Distinct(features)
    ensures Distinct(Without(features, f))
  {
    if features != [] {
      assert Distinct(features[1..]);
      WithoutKeepsDistinct(features[1..], f);
      assert features[0] !in features[1..];
    }
  }

  /** Toggling keeps a list without repeats free of repeats, so the panel never lists a feature twice. */
  lemma ToggledKeepsDistinct(features: seq<UnitFeature>, f: UnitFeature)
    requires Distinct(features)
    ensures Distinct(Toggled(features, f))
  {
    if f in features {
      WithoutKeepsDistinct(features, f);
    }
  }

  /** Removing a feature that is absent changes nothing. */
  lemma {:induction false} WithoutAbsent(features: seq<UnitFeature>, f: UnitFeature)
    requires f !in features
    ensures Without(features, f) == features
  {
    if features != [] {
      WithoutAbsent(features[1..], f);
    }
  }

  /** Toggling a feature flips whether it is selected. */
  lemma ToggleFlips(features: seq<UnitFeature>, f: UnitFeature)
    ensures (f in Toggled(features, f)) == (f !in features)
  {
  }

  /** Toggling an absent feature twice restores the list exactly. */
  lemma ToggleTwiceRestores(features: seq<UnitFeature>, f: UnitFeature)
    requires f !in features
    ensures Toggled(Toggled(features, f), f) == features
  {
    var t := features + [f];
    assert Without(t, f) == Without(features, f) by { WithoutAppend(features, f); }
    WithoutAbsent(features, f);
  }

  lemma {:induction false} WithoutAppend(features: seq<UnitFeature>, f: UnitFeature)
    ensures Without(features + [f], f) == Without(features, f)
  {
    if features != [] {
      assert (features + [f])[1..] == features[1..] + [f];
      WithoutAppend(features[1..], f);
    }
  }

  /** `activeFilterCount`: one for a chosen size, one for an active price cap, one per selected feature. */
  function ActiveCount(filters: SearchFilters): nat {
    (if filters.size != AllSizes then 1 else 0)
    + (if PriceCapActive(filters.maxPrice) then 1 else 0)
    + |filters.features|
  }

  /**
   * On a list without repeats, toggling a feature moves the count by exactly one: down when the
   * feature was selected, up when it was not.
   */
  lemma ToggleMovesCountByOne(filters: SearchFilters, f: UnitFeature)
    requires Distinct(filters.features)
    ensures ActiveCount(filters.(features := Toggled(filters.features, f))) ==
      if f in filters.features then ActiveCount(filters) - 1 else ActiveCount(filters) + 1
  {
    if f in filters.features {
      DistinctCountsOnce(filters.features, f);
    }
  }

  /** No filter is counted exactly when none is active. */
  lemma ActiveCountZeroIff(filters: SearchFilters)
    ensures ActiveCount(filters) == 0 <==>
      filters.size == AllSizes && !PriceCapActive(filters.maxPrice) && filters.features == []
  {
  }

  /** The update `clearFilters` sends: every field but `location`. */
  const ClearUpdate: FilterUpdate := FilterUpdate(None, Some(AllSizes), Some(None), Some([]), Some(ByDistance))

  /** After clearing, nothing is counted as active, and the location is kept. */
  lemma ClearedCountsNothing(current: SearchFilters)
    ensures ActiveCount(Merge(current, ClearUpdate)) == 0
    ensures Merge(current, ClearUpdate).location == current.location
    ensures Merge(current, ClearUpdate) == SearchFilters(current.location, AllSizes, None, [], ByDistance)
  {
  }

  /**
   * The filter panel. Every panel method pushes a partial update to the service, and the
   * service's `next` runs the panel's subscription synchronously, so each method ends by
   * copying the new service state into the local filters (`ReceiveFilters`).
   */
  class SearchFiltersComponent {
    const service: StorageService
    var filters: SearchFilters
    var showMobileFilters: bool

    /** The component with its default local filters, wired to `service`. */
    constructor (service: StorageService)
      ensures this.service == service
      ensures filters == InitialFilters && !showMobileFilters
    {
      this.service := service;
      filters := InitialFilters;
      showMobileFilters := false;
    }

    /** The subscription set up in `ngOnInit`: each emitted filter state replaces the local copy. */
    method ReceiveFilters(emitted: SearchFilters)
      modifies this
      ensures filters == emitted && showMobileFilters == old(showMobileFilters)
    {
      filters := emitted;
    }

    /** `updateFilters(update)` on the service, followed by the subscription it triggers. */
    method Push(update: FilterUpdate)
      modifies this, service
      ensures service.filters == Merge(old(service.filters), update)
      ensures filters == service.filters
      ensures showMobileFilters == old(showMobileFilters)
    {
      service.UpdateFilters(update);
      ReceiveFilters(service.filters);
    }

    method OnLocationChange()
      modifies this, service
      ensures service.filters == Merge(old(service.filters), NoUpdate.(location := Some(old(filters.location))))
      ensures filters == service.filters && showMobileFilters == old(showMobileFilters)
    {
      Push(NoUpdate.(location := Some(filters.location)));
    }

    method OnSizeChange()
      modifies this, service
      ensures service.filters == Merge(old(service.filters), NoUpdate.(size := Some(old(filters.size))))
      ensures filters == service.filters && showMobileFilters == old(showMobileFilters)
    {
      Push(NoUpdate.(size := Some(filters.size)));
    }

    method OnPriceChange()
      modifies this, service
      ensures service.filters == Merge(old(service.filters), NoUpdate.(maxPrice := Some(old(filters.maxPrice))))
      ensures filters == service.filters && showMobileFilters == old(showMobileFilters)
    {
      Push(NoUpdate.(maxPrice := Some(filters.maxPrice)));
    }

    method OnSortChange()
      modifies this, service
      ensures service.filters == Merge(old(service.filters), NoUpdate.(sortBy := Some(old(filters.sortBy))))
      ensures filters == service.filters && showMobileFilters == old(showMobileFilters)
    {
      Push(NoUpdate.(sortBy := Some(filters.sortBy)));
    }

    /**
     * Stores the toggled list locally and sends the same list, and only the features, to the
     * service; the feature's selection flips.
     */
    method ToggleFeature(f: UnitFeature)
      modifies this, service
      ensures service.filters == Merge(old(service.filters), NoUpdate.(features := Some(Toggled(old(filters.features), f))))
      ensures filters == service.filters && showMobileFilters == old(showMobileFilters)
      ensures filters.features == Toggled(old(filters.features), f)
      ensures IsFeatureActive(f) == !old(IsFeatureActive(f))
    {
      var features := Toggled(filters.features, f);
      filters := filters.(features := features);
      Push(NoUpdate.(features := Some(features)));
    }

    /** `isFeatureActive(f)`: `features.includes(f)`, some position of the local list holds `f`. */
    predicate IsFeatureActive(f: UnitFeature)
      reads this
      ensures IsFeatureActive(f) <==> exists i :: 0 <= i < |filters.features| && filters.features[i] == f
    {
      f in filters.features
    }

    /**
     * Sends the reset of size, price cap, features and sort order; the location is not part of
     * it, and afterwards no filter is counted as active.
     */
    method ClearFilters()
      modifies this, service
      ensures service.filters == Merge(old(service.filters), ClearUpdate)
      ensures filters == service.filters && showMobileFilters == old(showMobileFilters)
      ensures filters.location == old(service.filters.location) && ActiveCount(filters) == 0
    {
      Push(ClearUpdate);
      ClearedCountsNothing(old(service.filters));
    }

    method ToggleMobileFilters()
      modifies this
      ensures showMobileFilters == !old(showMobileFilters) && filters == old(filters)
    {
      showMobileFilters := !showMobileFilters;
    }

    /** The `activeFilterCount` getter, counting up from zero. */
    method ActiveFilterCount() returns (count: nat)
      ensures count == ActiveCount(filters)
      ensures count == 0 <==> filters.size == AllSizes && !PriceCapActive(filters.maxPrice) && filters.features == []
    {
      count := 0;
      if filters.size != AllSizes { count := count + 1; }
      if PriceCapActive(filters.maxPrice) { count := count + 1; }
      count := count + |filters.features|;
    }
  }
}
