/** The adapter between the application's enums and the database's
    (src/lib/prismaAdapter.ts). Database values are written in the database
    schema's upper-case spelling. Every pair of maps is a bijection except the
    city map, which sends 基隆市 to TAIPEI as well as 台北市. */
module PrismaAdapter {
  import opened Common
  import opened Types

  datatype PrismaPlanStatus = DRAFT | NEEDS_REVIEW | PUBLISHED

  /** planStatusMap; its partner planStatusReverseMap undoes it. */
  function PlanStatusToPrisma(s: PlanStatus): (p: PrismaPlanStatus)
    ensures PlanStatusFromPrisma(p) == s
  {
    match s
    case Draft => DRAFT
    case NeedsReview => NEEDS_REVIEW
    case Published => PrismaPlanStatus.PUBLISHED
  }

  function PlanStatusFromPrisma(p: PrismaPlanStatus): PlanStatus {
    match p
    case DRAFT => Draft
    case NEEDS_REVIEW => NeedsReview
    case PUBLISHED => Published
  }

  lemma PlanStatusFromPrisma_RoundTrip(p: PrismaPlanStatus)
    ensures PlanStatusToPrisma(PlanStatusFromPrisma(p)) == p
  {}

  datatype PrismaShippingType = DELIVERY | PICKUP | BOTH

  function ShippingTypeToPrisma(t: ShippingType): (p: PrismaShippingType)
    ensures ShippingTypeFromPrisma(p) == t
  {
    match t
    case Delivery => DELIVERY
    case Pickup => PICKUP
    case Both => BOTH
  }

  function ShippingTypeFromPrisma(p: PrismaShippingType): ShippingType {
    match p
    case DELIVERY => Delivery
    case PICKUP => Pickup
    case BOTH => Both
  }

  lemma ShippingTypeFromPrisma_RoundTrip(p: PrismaShippingType)
    ensures ShippingTypeToPrisma(ShippingTypeFromPrisma(p)) == p
  {}

  datatype PrismaStorageType = FROZEN | CHILLED | ROOM_TEMP | UNKNOWN

  function StorageTypeToPrisma(t: StorageType): (p: PrismaStorageType)
    ensures StorageTypeFromPrisma(p) == t
  {
    match t
    case Frozen => FROZEN
    case Chilled => CHILLED
    case RoomTemp => ROOM_TEMP
    case UnknownStorage => UNKNOWN
  }

  function StorageTypeFromPrisma(p: PrismaStorageType): StorageType {
    match p
    case FROZEN => Frozen
    case CHILLED => Chilled
    case ROOM_TEMP => RoomTemp
    case UNKNOWN => UnknownStorage
  }

  lemma StorageTypeFromPrisma_RoundTrip(p: PrismaStorageType)
    ensures StorageTypeToPrisma(StorageTypeFromPrisma(p)) == p
  {}

  datatype PrismaVendorType = HOTEL | RESTAURANT | BRAND | CONVENIENCE | HYPERMARKET | VEGETARIAN | OTHER

  function VendorTypeToPrisma(t: VendorType): (p: PrismaVendorType)
    ensures VendorTypeFromPrisma(p) == t
  {
    match t
    case Hotel => HOTEL
    case Restaurant => RESTAURANT
    case Brand => BRAND
    case Convenience => CONVENIENCE
    case Hypermarket => HYPERMARKET
    case VegetarianVendor => PrismaVendorType.VEGETARIAN
    case OtherVendor => PrismaVendorType.OTHER
  }

  function VendorTypeFromPrisma(p: PrismaVendorType): VendorType {
    match p
    case HOTEL => Hotel
    case RESTAURANT => Restaurant
    case BRAND => Brand
    case CONVENIENCE => Convenience
    case HYPERMARKET => Hypermarket
    case VEGETARIAN => VegetarianVendor
    case OTHER => OtherVendor
  }

  lemma VendorTypeFromPrisma_RoundTrip(p: PrismaVendorType)
    ensures VendorTypeToPrisma(VendorTypeFromPrisma(p)) == p
  {}

  datatype PrismaProductType = SET_MEAL | SINGLE_DISH | DESSERT | GIFT_BOX | SOUP | OTHER

  function ProductTypeToPrisma(t: ProductType): (p: PrismaProductType)
    ensures ProductTypeFromPrisma(p) == t
  {
    match t
    case SetMeal => SET_MEAL
    case SingleDish => SINGLE_DISH
    case Dessert => DESSERT
    case GiftBox => GIFT_BOX
    case Soup => SOUP
    case OtherProduct => PrismaProductType.OTHER
  }

  function ProductTypeFromPrisma(p: PrismaProductType): ProductType {
    match p
    case SET_MEAL => SetMeal
    case SINGLE_DISH => SingleDish
    case DESSERT => Dessert
    case GIFT_BOX => GiftBox
    case SOUP => Soup
    case OTHER => OtherProduct
  }

  lemma ProductTypeFromPrisma_RoundTrip(p: PrismaProductType)
    ensures ProductTypeToPrisma(ProductTypeFromPrisma(p)) == p
  {}

  datatype PrismaCuisineStyle = TAIWANESE | CANTONESE | SHANGHAINESE | SZECHUAN | JAPANESE | VEGETARIAN | FUSION | WESTERN | OTHER

  function CuisineStyleToPrisma(t: CuisineStyle): (p: PrismaCuisineStyle)
    ensures CuisineStyleFromPrisma(p) == t
  {
    match t
    case Taiwanese => TAIWANESE
    case Cantonese => CANTONESE
    case Shanghainese => SHANGHAINESE
    case Szechuan => SZECHUAN
    case Japanese => JAPANESE
    case VegetarianCuisine => PrismaCuisineStyle.VEGETARIAN
    case Fusion => FUSION
    case Western => WESTERN
    case OtherCuisine => PrismaCuisineStyle.OTHER
  }

  function CuisineStyleFromPrisma(p: PrismaCuisineStyle): CuisineStyle {
    match p
    case TAIWANESE => Taiwanese
    case CANTONESE => Cantonese
    case SHANGHAINESE => Shanghainese
    case SZECHUAN => Szechuan
    case JAPANESE => Japanese
    case VEGETARIAN => VegetarianCuisine
    case FUSION => Fusion
    case WESTERN => Western
    case OTHER => OtherCuisine
  }

  lemma CuisineStyleFromPrisma_RoundTrip(p: PrismaCuisineStyle)
    ensures CuisineStyleToPrisma(CuisineStyleFromPrisma(p)) == p
  {}

  datatype PrismaPriceLevel = BUDGET | MID_RANGE | PREMIUM | LUXURY

  function PriceLevelToPrisma(l: PriceLevel): (p: PrismaPriceLevel)
    ensures PriceLevelFromPrisma(p) == l
  {
    match l
    case Budget => BUDGET
    case MidRange => MID_RANGE
    case Premium => PREMIUM
    case Luxury => LUXURY
  }

  function PriceLevelFromPrisma(p: PrismaPriceLevel): PriceLevel {
    match p
    case BUDGET => Budget
    case MID_RANGE => MidRange
    case PREMIUM => Premium
    case LUXURY => Luxury
  }

  lemma PriceLevelFromPrisma_RoundTrip(p: PrismaPriceLevel)
    ensures PriceLevelToPrisma(PriceLevelFromPrisma(p)) == p
  {}

  datatype PrismaFamilySize = COUPLE | SMALL | MEDIUM | LARGE

  function FamilySizeToPrisma(f: FamilySize): (p: PrismaFamilySize)
    ensures FamilySizeFromPrisma(p) == f
  {
    match f
    case Couple => COUPLE
    case Small => SMALL
    case Medium => MEDIUM
    case Large => LARGE
  }

  function FamilySizeFromPrisma(p: PrismaFamilySize): FamilySize {
    match p
    case COUPLE => Couple
    case SMALL => Small
    case MEDIUM => Medium
    case LARGE => Large
  }

  lemma FamilySizeFromPrisma_RoundTrip(p: PrismaFamilySize)
    ensures FamilySizeToPrisma(FamilySizeFromPrisma(p)) == p
  {}

  datatype PrismaTaiwanRegion = NORTH | CENTRAL | SOUTH | EAST | ISLANDS | NATIONWIDE

  function RegionToPrisma(r: TaiwanRegion): (p: PrismaTaiwanRegion)
    ensures RegionFromPrisma(p) == r
  {
    match r
    case North => NORTH
    case Central => CENTRAL
    case South => SOUTH
    case East => EAST
    case Islands => ISLANDS
    case Nationwide => NATIONWIDE
  }

  function RegionFromPrisma(p: PrismaTaiwanRegion): TaiwanRegion {
    match p
    case NORTH => North
    case CENTRAL => Central
    case SOUTH => South
    case EAST => East
    case ISLANDS => Islands
    case NATIONWIDE => Nationwide
  }

  lemma RegionFromPrisma_RoundTrip(p: PrismaTaiwanRegion)
    ensures RegionToPrisma(RegionFromPrisma(p)) == p
  {}

  /** The database knows 21 cities: 基隆市 has no value of its own. */
  datatype PrismaTaiwanCity =
    | TAIPEI | NEW_TAIPEI | TAOYUAN | HSINCHU_CITY | HSINCHU_COUNTY | YILAN
    | MIAOLI | TAICHUNG | CHANGHUA | NANTOU | YUNLIN
    | CHIAYI_CITY | CHIAYI_COUNTY | TAINAN | KAOHSIUNG | PINGTUNG
    | HUALIEN | TAITUNG | PENGHU | KINMEN | LIENCHIANG

  /** taiwanCityToPrisma over cityMap: every city but 基隆市 round-trips,
      and 基隆市 comes back as 台北市. */
  function CityToPrisma(c: TaiwanCity): (p: PrismaTaiwanCity)
    ensures CityFromPrisma(p) == (if c == Keelung then Taipei else c)
  {
    match c
    case Taipei => TAIPEI
    case NewTaipei => NEW_TAIPEI
    case Keelung => TAIPEI
    case Taoyuan => TAOYUAN
    case HsinchuCity => HSINCHU_CITY
    case HsinchuCounty => HSINCHU_COUNTY
    case Yilan => YILAN
    case Miaoli => MIAOLI
    case Taichung => TAICHUNG
    case Changhua => CHANGHUA
    case Nantou => NANTOU
    case Yunlin => YUNLIN
    case ChiayiCity => CHIAYI_CITY
    case ChiayiCounty => CHIAYI_COUNTY
    case Tainan => TAINAN
    case Kaohsiung => KAOHSIUNG
    case Pingtung => PINGTUNG
    case Hualien => HUALIEN
    case Taitung => TAITUNG
    case Penghu => PENGHU
    case Kinmen => KINMEN
    case Lienchiang => LIENCHIANG
  }

  /** taiwanCityFromPrisma over cityReverseMap; it never yields 基隆市. */
  function CityFromPrisma(p: PrismaTaiwanCity): (c: TaiwanCity)
    ensures c != Keelung
  {
    match p
    case TAIPEI => Taipei
    case NEW_TAIPEI => NewTaipei
    case TAOYUAN => Taoyuan
    case HSINCHU_CITY => HsinchuCity
    case HSINCHU_COUNTY => HsinchuCounty
    case YILAN => Yilan
    case MIAOLI => Miaoli
    case TAICHUNG => Taichung
    case CHANGHUA => Changhua
    case NANTOU => Nantou
    case YUNLIN => Yunlin
    case CHIAYI_CITY => ChiayiCity
    case CHIAYI_COUNTY => ChiayiCounty
    case TAINAN => Tainan
    case KAOHSIUNG => Kaohsiung
    case PINGTUNG => Pingtung
    case HUALIEN => Hualien
    case TAITUNG => Taitung
    case PENGHU => Penghu
    case KINMEN => Kinmen
    case LIENCHIANG => Lienchiang
  }

  /** The reverse city map is a right inverse of the forward one. */
  lemma CityFromPrisma_RoundTrip(p: PrismaTaiwanCity)
    ensures CityToPrisma(CityFromPrisma(p)) == p
  {}

  /** The forward city map identifies exactly 基隆市 and 台北市. */
  lemma CityToPrisma_OnlyKeelungCollides(a: TaiwanCity, b: TaiwanCity)
    ensures CityToPrisma(a) == CityToPrisma(b) <==> a == b || {a, b} == {Keelung, Taipei}
  {
    if CityToPrisma(a) == CityToPrisma(b) {
      assert CityFromPrisma(CityToPrisma(a)) == CityFromPrisma(CityToPrisma(b));
    }
  }

  /** The keys of cityMap. */
  const CityMapKeys: seq<string> :=
    ["台北市", "新北市", "基隆市", "桃園市", "新竹市", "新竹縣", "宜蘭縣",
     "苗栗縣", "台中市", "彰化縣", "南投縣", "雲林縣",
     "嘉義市", "嘉義縣", "台南市", "高雄市", "屏東縣",
     "花蓮縣", "台東縣", "澎湖縣", "金門縣", "連江縣"]

  /** isTaiwanCity: the keys of cityMap are exactly the city names. */
  predicate IsTaiwanCity(value: string)
    ensures IsTaiwanCity(value) <==> exists c :: CityName(c) == value
  {
    assert forall i :: 0 <= i < |AllCities| ==> CityMapKeys[i] == CityName(AllCities[i]);
    assert forall c :: CityMapKeys[CityIndex(c)] == CityName(c);
    value in CityMapKeys
  }

  // The review and scraper maps are keyed by any string; an unknown key
  // finds nothing.

  datatype PrismaReviewStatus = PENDING | PUBLISHED | REJECTED | FLAGGED

  /** reviewStatusToPrisma: defined on the four names of reviewStatusMap. */
  function ReviewStatusToPrisma(s: string): (r: Option<PrismaReviewStatus>)
    ensures r.Some? <==> s in ["pending", "published", "rejected", "flagged"]
    ensures r.Some? ==> ReviewStatusFromPrisma(r.value) == s
  {
    if s == "pending" then Some(PrismaReviewStatus.PENDING)
    else if s == "published" then Some(PrismaReviewStatus.PUBLISHED)
    else if s == "rejected" then Some(REJECTED)
    else if s == "flagged" then Some(FLAGGED)
    else None
  }

  function ReviewStatusFromPrisma(p: PrismaReviewStatus): string {
    match p
    case PENDING => "pending"
    case PUBLISHED => "published"
    case REJECTED => "rejected"
    case FLAGGED => "flagged"
  }

  lemma ReviewStatusFromPrisma_RoundTrip(p: PrismaReviewStatus)
    ensures ReviewStatusToPrisma(ReviewStatusFromPrisma(p)) == Some(p)
  {}

  datatype PrismaScraperJobStatus = PENDING | RUNNING | SUCCESS | FAILED | CANCELLED

  /** scraperStatusMap: defined on the five job-status names. */
  function ScraperStatusToPrisma(s: string): (r: Option<PrismaScraperJobStatus>)
    ensures r.Some? <==> s in ["pending", "running", "success", "failed", "cancelled"]
    ensures r.Some? ==> ScraperStatusFromPrisma(r.value) == s
  {
    if s == "pending" then Some(PrismaScraperJobStatus.PENDING)
    else if s == "running" then Some(RUNNING)
    else if s == "success" then Some(SUCCESS)
    else if s == "failed" then Some(FAILED)
    else if s == "cancelled" then Some(CANCELLED)
    else None
  }

  function ScraperStatusFromPrisma(p: PrismaScraperJobStatus): string {
    match p
    case PENDING => "pending"
    case RUNNING => "running"
    case SUCCESS => "success"
    case FAILED => "failed"
    case CANCELLED => "cancelled"
  }

  lemma ScraperStatusFromPrisma_RoundTrip(p: PrismaScraperJobStatus)
    ensures ScraperStatusToPrisma(ScraperStatusFromPrisma(p)) == Some(p)
  {}

  // ------------------------------------------------------------ type guards

  predicate IsPlanStatus(value: string)
    ensures IsPlanStatus(value) <==> exists x :: PlanStatusName(x) == value
  {
    assert ParsePlanStatus(value).Some? <==> value in ["draft", "needs_review", "published"];
    value in ["draft", "needs_review", "published"]
  }

  predicate IsShippingType(value: string)
    ensures IsShippingType(value) <==> exists x :: ShippingTypeName(x) == value
  {
    assert ParseShippingType(value).Some? <==> value in ["delivery", "pickup", "both"];
    value in ["delivery", "pickup", "both"]
  }

  predicate IsStorageType(value: string)
    ensures IsStorageType(value) <==> exists x :: StorageTypeName(x) == value
  {
    assert ParseStorageType(value).Some? <==> value in ["frozen", "chilled", "room_temp", "unknown"];
    value in ["frozen", "chilled", "room_temp", "unknown"]
  }

  predicate IsVendorType(value: string)
    ensures IsVendorType(value) <==> exists x :: VendorTypeName(x) == value
  {
    assert ParseVendorType(value).Some? <==> value in ["hotel", "restaurant", "brand", "convenience", "hypermarket", "vegetarian", "other"];
    value in ["hotel", "restaurant", "brand", "convenience", "hypermarket", "vegetarian", "other"]
  }

  predicate IsProductType(value: string)
    ensures IsProductType(value) <==> exists x :: ProductTypeName(x) == value
  {
    assert ParseProductType(value).Some? <==> value in ["set_meal", "single_dish", "dessert", "gift_box", "soup", "other"];
    value in ["set_meal", "single_dish", "dessert", "gift_box", "soup", "other"]
  }

  predicate IsCuisineStyle(value: string)
    ensures IsCuisineStyle(value) <==> exists x :: CuisineStyleName(x) == value
  {
    assert ParseCuisineStyle(value).Some? <==> value in ["taiwanese", "cantonese", "shanghainese", "szechuan", "japanese", "vegetarian", "fusion", "western", "other"];
    value in ["taiwanese", "cantonese", "shanghainese", "szechuan", "japanese", "vegetarian", "fusion", "western", "other"]
  }

  predicate IsPriceLevel(value: string)
    ensures IsPriceLevel(value) <==> exists x :: PriceLevelName(x) == value
  {
    assert ParsePriceLevel(value).Some? <==> value in ["budget", "mid_range", "premium", "luxury"];
    value in ["budget", "mid_range", "premium", "luxury"]
  }

  predicate IsFamilySize(value: string)
    ensures IsFamilySize(value) <==> exists x :: FamilySizeName(x) == value
  {
    assert ParseFamilySize(value).Some? <==> value in ["couple", "small", "medium", "large"];
    value in ["couple", "small", "medium", "large"]
  }

  predicate IsTaiwanRegion(value: string)
    ensures IsTaiwanRegion(value) <==> exists x :: RegionName(x) == value
  {
    assert ParseRegion(value).Some? <==> value in ["north", "central", "south", "east", "islands", "nationwide"];
    value in ["north", "central", "south", "east", "islands", "nationwide"]
  }
}
