/**
 * The catalog's value types: unit sizes, features, availability, a storage unit record,
 * and the two label tables, each as a total lookup.
 */
module UnitModel {
  import opened Wrappers

  datatype UnitSize = Small | Medium | Large | XLarge

  datatype UnitFeature =
    | ClimateControlled | TwentyFourHourAccess | DriveUp | Elevator
    | SecurityCameras | OnsiteManager | MovingSupplies | TruckRental

  datatype Availability = Available | Limited | Unavailable

  /** A listing; `distance` (miles) and `rating` are exact reals, `price` (per month) a whole number. */
  datatype StorageUnit = StorageUnit(
    id: string,
    facilityName: string,
    address: string,
    city: string,
    distance: real,
    size: UnitSize,
    price: int,
    features: seq<UnitFeature>,
    availability: Availability,
    rating: real,
    reviewCount: int,
    imageUrl: string,
    promotion: Option<string>)

  // The string literals of the TypeScript union types, and their parsers.

  function SizeName(s: UnitSize): string {
    match s
    case Small => "small"
    case Medium => "medium"
    case Large => "large"
    case XLarge => "xlarge"
  }

  function ParseSize(t: string): (r: Option<UnitSize>)
    ensures r.Some? ==> SizeName(r.value) == t
    ensures forall s :: SizeName(s) == t ==> r == Some(s)
  {
    if t == "small" then Some(Small)
    else if t == "medium" then Some(Medium)
    else if t == "large" then Some(Large)
    else if t == "xlarge" then Some(XLarge)
    else None
  }

  function FeatureName(f: UnitFeature): string {
    match f
    case ClimateControlled => "climate-controlled"
    case TwentyFourHourAccess => "24-hour-access"
    case DriveUp => "drive-up"
    case Elevator => "elevator"
    case SecurityCameras => "security-cameras"
    case OnsiteManager => "onsite-manager"
    case MovingSupplies => "moving-supplies"
    case TruckRental => "truck-rental"
  }

  function ParseFeature(t: string): (r: Option<UnitFeature>)
    ensures r.Some? ==> FeatureName(r.value) == t
    ensures forall f :: FeatureName(f) == t ==> r == Some(f)
  {
    if t == "climate-controlled" then Some(ClimateControlled)
    else if t == "24-hour-access" then Some(TwentyFourHourAccess)
    else if t == "drive-up" then Some(DriveUp)
    else if t == "elevator" then Some(Elevator)
    else if t == "security-cameras" then Some(SecurityCameras)
    else if t == "onsite-manager" then Some(OnsiteManager)
    else if t == "moving-supplies" then Some(MovingSupplies)
    else if t == "truck-rental" then Some(TruckRental)
    else None
  }

  function AvailabilityName(a: Availability): string {
    match a
    case Available => "available"
    case Limited => "limited"
    case Unavailable => "unavailable"
  }

  function ParseAvailability(t: string): (r: Option<Availability>)
    ensures r.Some? ==> AvailabilityName(r.value) == t
    ensures forall a :: AvailabilityName(a) == t ==> r == Some(a)
  {
    if t == "available" then Some(Available)
    else if t == "limited" then Some(Limited)
    else if t == "unavailable" then Some(Unavailable)
    else None
  }

  // The label tables.

  datatype SizeInfo = SizeInfo(labelText: string, dimensions: string, description: string)

  /** `UNIT_SIZE_LABELS` (`label` is a Dafny keyword, so the field is `labelText`). */
  function UnitSizeLabels(s: UnitSize): SizeInfo {
    match s
    case Small => SizeInfo("Small", "5' x 5'", "Closet-sized, fits boxes and small furniture")
    case Medium => SizeInfo("Medium", "10' x 10'", "Room-sized, fits a 1-bedroom apartment")
    case Large => SizeInfo("Large", "10' x 20'", "Garage-sized, fits a 2-3 bedroom home")
    case XLarge => SizeInfo("Extra Large", "10' x 30'", "Warehouse-sized, fits a 4+ bedroom home")
  }

  datatype FeatureInfo = FeatureInfo(labelText: string, icon: string)

  /** `FEATURE_LABELS`; the icons are the emoji code points written as escapes. */
  function FeatureLabels(f: UnitFeature): FeatureInfo {
    match f
    case ClimateControlled => FeatureInfo("Climate Controlled", "\U{2744}\U{FE0F}")
    case TwentyFourHourAccess => FeatureInfo("24-Hour Access", "\U{1F550}")
    case DriveUp => FeatureInfo("Drive-Up Access", "\U{1F697}")
    case Elevator => FeatureInfo("Elevator Access", "\U{1F6D7}")
    case SecurityCameras => FeatureInfo("Security Cameras", "\U{1F4F9}")
    case OnsiteManager => FeatureInfo("Onsite Manager", "\U{1F464}")
    case MovingSupplies => FeatureInfo("Moving Supplies", "\U{1F4E6}")
    case TruckRental => FeatureInfo("Truck Rental", "\U{1F69A}")
  }

  /** Distinct sizes have distinct labels and distinct dimensions. */
  lemma SizeLabelsDistinct(a: UnitSize, b: UnitSize)
    requires a != b
    ensures UnitSizeLabels(a).labelText != UnitSizeLabels(b).labelText
    ensures UnitSizeLabels(a).dimensions != UnitSizeLabels(b).dimensions
  {
  }

  /** Distinct features have distinct labels. */
  lemma FeatureLabelsDistinct(a: UnitFeature, b: UnitFeature)
    requires a != b
    ensures FeatureLabels(a).labelText != FeatureLabels(b).labelText
  {
  }
}
