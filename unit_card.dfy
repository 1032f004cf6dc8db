/**
 * The unit card's presentation helpers. Each getter reads only the card's `unit` input, so
 * each is a function of the unit; the star row is built by a loop.
 */
module UnitCard {
  import opened UnitModel
  import opened JsBuiltins

  /** The size's label from the size table. */
  function SizeLabel(unit: StorageUnit): (r: string)
    ensures r != ""
  {
    UnitSizeLabels(unit.size).labelText
  }

  /** The size's dimensions from the size table. */
  function SizeDimensions(unit: StorageUnit): (r: string)
    ensures r != ""
  {
    UnitSizeLabels(unit.size).dimensions
  }

  /** Two units show the same size label, and the same dimensions, exactly when they have the same size. */
  lemma SizeTextIdentifiesSize(u: StorageUnit, v: StorageUnit)
    ensures SizeLabel(u) == SizeLabel(v) <==> u.size == v.size
    ensures SizeDimensions(u) == SizeDimensions(v) <==> u.size == v.size
  {
    if u.size != v.size {
      SizeLabelsDistinct(u.size, v.size);
    }
  }

  /** A feature chip: the feature's label and icon, and the feature itself as its key. */
  datatype FeatureChip = FeatureChip(labelText: string, icon: string, key: UnitFeature)

  function Chip(f: UnitFeature): FeatureChip {
    FeatureChip(FeatureLabels(f).labelText, FeatureLabels(f).icon, f)
  }

  /** `features.slice(0, 4)`, each mapped to its chip: at most four chips, for the first features in order. */
  function DisplayedFeatures(unit: StorageUnit): (r: seq<FeatureChip>)
    ensures |r| == if |unit.features| < 4 then |unit.features| else 4
    ensures forall i :: 0 <= i < |r| ==> r[i] == Chip(unit.features[i])
  {
    var shown := Slice(unit.features, 0, 4);
    seq(|shown|, i requires 0 <= i < |shown| => Chip(shown[i]))
  }

  /** The CSS class of the availability badge: the availability tag's own name. */
  function AvailabilityClass(unit: StorageUnit): (r: string)
    ensures r == AvailabilityName(unit.availability)
  {
    match unit.availability
    case Available => "available"
    case Limited => "limited"
    case Unavailable => "unavailable"
  }

  /** The text of the availability badge. */
  function AvailabilityText(unit: StorageUnit): (r: string)
    ensures r != ""
  {
    match unit.availability
    case Available => "Available Now"
    case Limited => "Only 2 Left"
    case Unavailable => "Sold Out"
  }

  /** The badge text tells the three availabilities apart. */
  lemma AvailabilityTextIdentifies(u: StorageUnit, v: StorageUnit)
    ensures AvailabilityText(u) == AvailabilityText(v) <==> u.availability == v.availability
  {
  }

  /** `Math.floor(rating)`, clamped to the five slots: the number of filled stars. */
  function FilledCount(rating: real): (r: int)
    ensures 0 <= r <= 5
  {
    if rating.Floor < 0 then 0 else if rating.Floor > 5 then 5 else rating.Floor
  }

  /** `getStarArray`: five slots, slot `i` filled when `i` is below the rating's floor. */
  method GetStarArray(unit: StorageUnit) returns (stars: seq<bool>)
    ensures |stars| == 5
    ensures forall i :: 0 <= i < 5 ==> stars[i] == (i < unit.rating.Floor)
  {
    var fullStars := unit.rating.Floor;
    stars := [];
    for i := 0 to 5
      invariant |stars| == i
      invariant forall k :: 0 <= k < i ==> stars[k] == (k < fullStars)
    {
      stars := stars + [i < fullStars];
    }
  }

  /** The number of filled slots. */
  function CountFilled(stars: seq<bool>): (r: nat)
    ensures r <= |stars|
  {
    if stars == [] then 0
    else CountFilled(stars[..|stars| - 1]) + (if stars[|stars| - 1] then 1 else 0)
  }

  /** A row whose slot `i` is filled exactly when `i < m` has `m` filled slots, clamped to the row. */
  lemma {:induction false} CountFilledBelow(stars: seq<bool>, m: int)
    requires forall i :: 0 <= i < |stars| ==> stars[i] == (i < m)
    ensures CountFilled(stars) == if m < 0 then 0 else if m > |stars| then |stars| else m
  {
    if stars != [] {
      CountFilledBelow(stars[..|stars| - 1], m);
    }
  }

  /** The filled stars form a prefix of the row, and there are `floor(rating)` of them, clamped to 0..5. */
  lemma StarRowShape(stars: seq<bool>, rating: real)
    requires |stars| == 5
    requires forall i :: 0 <= i < 5 ==> stars[i] == (i < rating.Floor)
    ensures forall i, j :: 0 <= i <= j < 5 && stars[j] ==> stars[i]
    ensures CountFilled(stars) == FilledCount(rating)
  {
    CountFilledBelow(stars, rating.Floor);
  }
}
