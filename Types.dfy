/** The data model of the meal-plan catalogue (src/types/index.ts): the
    classification enums with their wire names and labels, the region/city
    tables, the price-level and family-size ranges, and the `Plan` record. */
module Types {
  import opened Common

  // ------------------------------------------------------------ plan enums

  datatype PlanStatus = Draft | Published | NeedsReview

  function PlanStatusName(s: PlanStatus): string {
    match s
    case Draft => "draft"
    case Published => "published"
    case NeedsReview => "needs_review"
  }

  function ParsePlanStatus(s: string): (r: Option<PlanStatus>)
    ensures r.Some? ==> PlanStatusName(r.value) == s
    ensures r.None? ==> forall x :: PlanStatusName(x) != s
  {
    if s == "draft" then Some(Draft)
    else if s == "published" then Some(Published)
    else if s == "needs_review" then Some(NeedsReview)
    else None
  }

  datatype ShippingType = Delivery | Pickup | Both

  function ShippingTypeName(t: ShippingType): string {
    match t
    case Delivery => "delivery"
    case Pickup => "pickup"
    case Both => "both"
  }

  function ParseShippingType(s: string): (r: Option<ShippingType>)
    ensures r.Some? ==> ShippingTypeName(r.value) == s
    ensures r.None? ==> forall x :: ShippingTypeName(x) != s
  {
    if s == "delivery" then Some(Delivery)
    else if s == "pickup" then Some(Pickup)
    else if s == "both" then Some(Both)
    else None
  }

  datatype StorageType = Frozen | Chilled | RoomTemp | UnknownStorage

  function StorageTypeName(t: StorageType): string {
    match t
    case Frozen => "frozen"
    case Chilled => "chilled"
    case RoomTemp => "room_temp"
    case UnknownStorage => "unknown"
  }

  function ParseStorageType(s: string): (r: Option<StorageType>)
    ensures r.Some? ==> StorageTypeName(r.value) == s
    ensures r.None? ==> forall x :: StorageTypeName(x) != s
  {
    if s == "frozen" then Some(Frozen)
    else if s == "chilled" then Some(Chilled)
    else if s == "room_temp" then Some(RoomTemp)
    else if s == "unknown" then Some(UnknownStorage)
    else None
  }

  datatype VendorType = Hotel | Restaurant | Brand | Convenience | Hypermarket | VegetarianVendor | OtherVendor

  function VendorTypeName(t: VendorType): string {
    match t
    case Hotel => "hotel"
    case Restaurant => "restaurant"
    case Brand => "brand"
    case Convenience => "convenience"
    case Hypermarket => "hypermarket"
    case VegetarianVendor => "vegetarian"
    case OtherVendor => "other"
  }

  function VendorTypeLabel(t: VendorType): string {
    match t
    case Hotel => "飯店"
    case Restaurant => "餐廳"
    case Brand => "品牌"
    case Convenience => "便利商店"
    case Hypermarket => "量販超市"
    case VegetarianVendor => "素食專賣"
    case OtherVendor => "其他"
  }

  function ParseVendorType(s: string): (r: Option<VendorType>)
    ensures r.Some? ==> VendorTypeName(r.value) == s
    ensures r.None? ==> forall x :: VendorTypeName(x) != s
  {
    if s == "hotel" then Some(Hotel)
    else if s == "restaurant" then Some(Restaurant)
    else if s == "brand" then Some(Brand)
    else if s == "convenience" then Some(Convenience)
    else if s == "hypermarket" then Some(Hypermarket)
    else if s == "vegetarian" then Some(VegetarianVendor)
    else if s == "other" then Some(OtherVendor)
    else None
  }

  datatype ProductType = SetMeal | SingleDish | Dessert | GiftBox | Soup | OtherProduct

  function ProductTypeName(t: ProductType): string {
    match t
    case SetMeal => "set_meal"
    case SingleDish => "single_dish"
    case Dessert => "dessert"
    case GiftBox => "gift_box"
    case Soup => "soup"
    case OtherProduct => "other"
  }

  function ProductTypeLabel(t: ProductType): string {
    match t
    case SetMeal => "套餐組合"
    case SingleDish => "單品"
    case Dessert => "甜點"
    case GiftBox => "伴手禮"
    case Soup => "湯品"
    case OtherProduct => "其他"
  }

  function ParseProductType(s: string): (r: Option<ProductType>)
    ensures r.Some? ==> ProductTypeName(r.value) == s
    ensures r.None? ==> forall x :: ProductTypeName(x) != s
  {
    if s == "set_meal" then Some(SetMeal)
    else if s == "single_dish" then Some(SingleDish)
    else if s == "dessert" then Some(Dessert)
    else if s == "gift_box" then Some(GiftBox)
    else if s == "soup" then Some(Soup)
    else if s == "other" then Some(OtherProduct)
    else None
  }

  datatype CuisineStyle = Taiwanese | Cantonese | Shanghainese | Szechuan | Japanese | VegetarianCuisine | Fusion | Western | OtherCuisine

  function CuisineStyleName(t: CuisineStyle): string {
    match t
    case Taiwanese => "taiwanese"
    case Cantonese => "cantonese"
    case Shanghainese => "shanghainese"
    case Szechuan => "szechuan"
    case Japanese => "japanese"
    case VegetarianCuisine => "vegetarian"
    case Fusion => "fusion"
    case Western => "western"
    case OtherCuisine => "other"
  }

  function CuisineStyleLabel(t: CuisineStyle): string {
    match t
    case Taiwanese => "台式"
    case Cantonese => "粵港式"
    case Shanghainese => "上海菜"
    case Szechuan => "川湘菜"
    case Japanese => "日式"
    case VegetarianCuisine => "素食"
    case Fusion => "創意料理"
    case Western => "西式"
    case OtherCuisine => "其他"
  }

  function ParseCuisineStyle(s: string): (r: Option<CuisineStyle>)
    ensures r.Some? ==> CuisineStyleName(r.value) == s
    ensures r.None? ==> forall x :: CuisineStyleName(x) != s
  {
    if s == "taiwanese" then Some(Taiwanese)
    else if s == "cantonese" then Some(Cantonese)
    else if s == "shanghainese" then Some(Shanghainese)
    else if s == "szechuan" then Some(Szechuan)
    else if s == "japanese" then Some(Japanese)
    else if s == "vegetarian" then Some(VegetarianCuisine)
    else if s == "fusion" then Some(Fusion)
    else if s == "western" then Some(Western)
    else if s == "other" then Some(OtherCuisine)
    else None
  }

  // ------------------------------------------------- price level and family

  datatype PriceLevel = Budget | MidRange | Premium | Luxury

  function PriceLevelName(l: PriceLevel): string {
    match l
    case Budget => "budget"
    case MidRange => "mid_range"
    case Premium => "premium"
    case Luxury => "luxury"
  }

  function PriceLevelLabel(l: PriceLevel): string {
    match l
    case Budget => "平價"
    case MidRange => "中價位"
    case Premium => "高價位"
    case Luxury => "頂級"
  }

  function ParsePriceLevel(s: string): (r: Option<PriceLevel>)
    ensures r.Some? ==> PriceLevelName(r.value) == s
    ensures r.None? ==> forall x :: PriceLevelName(x) != s
  {
    if s == "budget" then Some(Budget)
    else if s == "mid_range" then Some(MidRange)
    else if s == "premium" then Some(Premium)
    else if s == "luxury" then Some(Luxury)
    else None
  }

  /** An upper bound that may be `Infinity`. */
  datatype Bound = Finite(n: int) | Infinite

  /** The i-th price level in ascending order. */
  function PriceLevelAt(i: nat): PriceLevel
    requires i < 4
  {
    [Budget, MidRange, Premium, Luxury][i]
  }

  function PriceLevelIndex(l: PriceLevel): (i: nat)
    ensures i < 4 && PriceLevelAt(i) == l
  {
    match l
    case Budget => 0
    case MidRange => 1
    case Premium => 2
    case Luxury => 3
  }

  /** PRICE_LEVEL_RANGES, as `[min, max)` bounds in NT dollars. */
  function PriceLevelMin(l: PriceLevel): int {
    match l
    case Budget => 0
    case MidRange => 2000
    case Premium => 5000
    case Luxury => 10000
  }

  function PriceLevelMax(l: PriceLevel): Bound {
    match l
    case Budget => Finite(2000)
    case MidRange => Finite(5000)
    case Premium => Finite(10000)
    case Luxury => Infinite
  }

  /** The price ranges tile [0, Infinity): they start at 0, each range ends
      where the next one starts, each is non-empty, and only the last is
      unbounded. */
  lemma PriceLevelRanges_Contiguous()
    ensures PriceLevelMin(PriceLevelAt(0)) == 0
    ensures forall i :: 0 <= i < 3 ==> PriceLevelMax(PriceLevelAt(i)) == Finite(PriceLevelMin(PriceLevelAt(i + 1)))
    ensures forall i :: 0 <= i < 3 ==> PriceLevelMin(PriceLevelAt(i)) < PriceLevelMin(PriceLevelAt(i + 1))
    ensures PriceLevelMax(PriceLevelAt(3)) == Infinite
  {}

  /** Whether a price lies in a level's range, read as `min <= price < max`. */
  predicate InPriceLevel(price: int, l: PriceLevel) {
    PriceLevelMin(l) <= price && (PriceLevelMax(l).Finite? ==> price < PriceLevelMax(l).n)
  }

  /** Every non-negative price lies in exactly one range. */
  lemma PriceLevelRanges_Partition(price: int, l: PriceLevel)
    requires price >= 0
    ensures InPriceLevel(price, l) <==> l == PriceLevelOf(price)
  {}

  /** The level whose range holds the price (the partner of the table). */
  function PriceLevelOf(price: int): (l: PriceLevel)
    requires price >= 0
    ensures InPriceLevel(price, l)
  {
    if price < 2000 then Budget
    else if price < 5000 then MidRange
    else if price < 10000 then Premium
    else Luxury
  }

  datatype FamilySize = Couple | Small | Medium | Large

  function FamilySizeName(f: FamilySize): string {
    match f
    case Couple => "couple"
    case Small => "small"
    case Medium => "medium"
    case Large => "large"
  }

  function FamilySizeLabel(f: FamilySize): string {
    match f
    case Couple => "小倆口"
    case Small => "小家庭"
    case Medium => "中型聚餐"
    case Large => "大家族"
  }

  function ParseFamilySize(s: string): (r: Option<FamilySize>)
    ensures r.Some? ==> FamilySizeName(r.value) == s
    ensures r.None? ==> forall x :: FamilySizeName(x) != s
  {
    if s == "couple" then Some(Couple)
    else if s == "small" then Some(Small)
    else if s == "medium" then Some(Medium)
    else if s == "large" then Some(Large)
    else None
  }

  function FamilySizeAt(i: nat): FamilySize
    requires i < 4
  {
    [Couple, Small, Medium, Large][i]
  }

  /** FAMILY_SIZE_RANGES, inclusive bounds in persons. */
  function FamilySizeMin(f: FamilySize): int {
    match f
    case Couple => 1
    case Small => 3
    case Medium => 5
    case Large => 7
  }

  function FamilySizeMax(f: FamilySize): int {
    match f
    case Couple => 2
    case Small => 4
    case Medium => 6
    case Large => 20
  }

  /** The family-size ranges are non-empty, ascending and gap-free, and cover
      exactly 1..20. */
  lemma FamilySizeRanges_Ascending()
    ensures FamilySizeMin(FamilySizeAt(0)) == 1 && FamilySizeMax(FamilySizeAt(3)) == 20
    ensures forall i :: 0 <= i < 4 ==> FamilySizeMin(FamilySizeAt(i)) <= FamilySizeMax(FamilySizeAt(i))
    ensures forall i :: 0 <= i < 3 ==> FamilySizeMax(FamilySizeAt(i)) + 1 == FamilySizeMin(FamilySizeAt(i + 1))
  {}

  /** Each head count in 1..20 lies in exactly one range. */
  lemma FamilySizeRanges_Disjoint(n: int, f: FamilySize, g: FamilySize)
    requires FamilySizeMin(f) <= n <= FamilySizeMax(f)
    requires FamilySizeMin(g) <= n <= FamilySizeMax(g)
    ensures f == g
  {}

  lemma FamilySizeRanges_Cover(n: int)
    requires 1 <= n <= 20
    ensures exists f :: FamilySizeMin(f) <= n <= FamilySizeMax(f)
  {
    var f := if n <= 2 then Couple else if n <= 4 then Small else if n <= 6 then Medium else Large;
    assert FamilySizeMin(f) <= n <= FamilySizeMax(f);
  }

  // ------------------------------------------------------- regions, cities

  datatype TaiwanRegion = North | Central | South | East | Islands | Nationwide

  function RegionName(r: TaiwanRegion): string {
    match r
    case North => "north"
    case Central => "central"
    case South => "south"
    case East => "east"
    case Islands => "islands"
    case Nationwide => "nationwide"
  }

  function ParseRegion(s: string): (r: Option<TaiwanRegion>)
    ensures r.Some? ==> RegionName(r.value) == s
    ensures r.None? ==> forall x :: RegionName(x) != s
  {
    if s == "north" then Some(North)
    else if s == "central" then Some(Central)
    else if s == "south" then Some(South)
    else if s == "east" then Some(East)
    else if s == "islands" then Some(Islands)
    else if s == "nationwide" then Some(Nationwide)
    else None
  }

  /** REGION_LABELS: a label for every region. */
  function RegionLabel(r: TaiwanRegion): string {
    match r
    case North => "北部"
    case Central => "中部"
    case South => "南部"
    case East => "東部"
    case Islands => "離島"
    case Nationwide => "全台配送"
  }

  /** REGION_LABELS is total and tells the regions apart. */
  lemma RegionLabel_Injective(a: TaiwanRegion, b: TaiwanRegion)
    ensures RegionLabel(a) == RegionLabel(b) ==> a == b
    ensures |RegionLabel(a)| > 0
  {}

  datatype TaiwanCity =
    | Taipei | NewTaipei | Keelung | Taoyuan | HsinchuCity | HsinchuCounty | Yilan
    | Miaoli | Taichung | Changhua | Nantou | Yunlin
    | ChiayiCity | ChiayiCounty | Tainan | Kaohsiung | Pingtung
    | Hualien | Taitung
    | Penghu | Kinmen | Lienchiang

  /** The city's name as the program spells it. */
  function CityName(c: TaiwanCity): string {
    match c
    case Taipei => "台北市"
    case NewTaipei => "新北市"
    case Keelung => "基隆市"
    case Taoyuan => "桃園市"
    case HsinchuCity => "新竹市"
    case HsinchuCounty => "新竹縣"
    case Yilan => "宜蘭縣"
    case Miaoli => "苗栗縣"
    case Taichung => "台中市"
    case Changhua => "彰化縣"
    case Nantou => "南投縣"
    case Yunlin => "雲林縣"
    case ChiayiCity => "嘉義市"
    case ChiayiCounty => "嘉義縣"
    case Tainan => "台南市"
    case Kaohsiung => "高雄市"
    case Pingtung => "屏東縣"
    case Hualien => "花蓮縣"
    case Taitung => "台東縣"
    case Penghu => "澎湖縣"
    case Kinmen => "金門縣"
    case Lienchiang => "連江縣"
  }

  /** All 22 cities, in the order the type lists them. */
  const AllCities: seq<TaiwanCity> :=
    [Taipei, NewTaipei, Keelung, Taoyuan, HsinchuCity, HsinchuCounty, Yilan,
     Miaoli, Taichung, Changhua, Nantou, Yunlin,
     ChiayiCity, ChiayiCounty, Tainan, Kaohsiung, Pingtung,
     Hualien, Taitung,
     Penghu, Kinmen, Lienchiang]

  /** The position of a city in `AllCities`. */
  function CityIndex(c: TaiwanCity): (i: nat)
    ensures i < |AllCities| && AllCities[i] == c
  {
    match c
    case Taipei => 0
    case NewTaipei => 1
    case Keelung => 2
    case Taoyuan => 3
    case HsinchuCity => 4
    case HsinchuCounty => 5
    case Yilan => 6
    case Miaoli => 7
    case Taichung => 8
    case Changhua => 9
    case Nantou => 10
    case Yunlin => 11
    case ChiayiCity => 12
    case ChiayiCounty => 13
    case Tainan => 14
    case Kaohsiung => 15
    case Pingtung => 16
    case Hualien => 17
    case Taitung => 18
    case Penghu => 19
    case Kinmen => 20
    case Lienchiang => 21
  }

  /** A city name back to the city: the string test `isTaiwanCity` rests on. */
  function ParseCity(s: string): (r: Option<TaiwanCity>)
    ensures r.Some? ==> CityName(r.value) == s
    ensures r.None? ==> forall x :: CityName(x) != s
  {
    var r := FindCity(AllCities, s);
    assert r.None? ==> forall x :: CityName(x) != s by {
      if r.None? {
        forall x ensures CityName(x) != s {
          assert CityName(AllCities[CityIndex(x)]) != s;
        }
      }
    }
    r
  }

  function FindCity(cs: seq<TaiwanCity>, s: string): (r: Option<TaiwanCity>)
    ensures r.Some? ==> CityName(r.value) == s && r.value in cs
    ensures r.None? ==> forall i :: 0 <= i < |cs| ==> CityName(cs[i]) != s
  {
    if cs == [] then None
    else if CityName(cs[0]) == s then Some(cs[0])
    else FindCity(cs[1..], s)
  }

  lemma AllCities_Complete(c: TaiwanCity)
    ensures c in AllCities
  {}

  lemma CityName_Injective(a: TaiwanCity, b: TaiwanCity)
    ensures CityName(a) == CityName(b) ==> a == b
  {}

  /** REGION_CITIES. */
  function RegionCities(r: TaiwanRegion): seq<TaiwanCity> {
    match r
    case North => [Taipei, NewTaipei, Keelung, Taoyuan, HsinchuCity, HsinchuCounty, Yilan]
    case Central => [Miaoli, Taichung, Changhua, Nantou, Yunlin]
    case South => [ChiayiCity, ChiayiCounty, Tainan, Kaohsiung, Pingtung]
    case East => [Hualien, Taitung]
    case Islands => [Penghu, Kinmen, Lienchiang]
    case Nationwide => []
  }

  /** The region a city belongs to, by geography (the comments on the
      region type); `RegionCities` is checked against it. */
  function CityRegion(c: TaiwanCity): (r: TaiwanRegion)
    ensures r != Nationwide
  {
    match c
    case Taipei | NewTaipei | Keelung | Taoyuan | HsinchuCity | HsinchuCounty | Yilan => North
    case Miaoli | Taichung | Changhua | Nantou | Yunlin => Central
    case ChiayiCity | ChiayiCounty | Tainan | Kaohsiung | Pingtung => South
    case Hualien | Taitung => East
    case Penghu | Kinmen | Lienchiang => Islands
  }

  /** Every city listed for a region lies in that region. */
  lemma RegionCities_Regions(r: TaiwanRegion)
    ensures forall i :: 0 <= i < |RegionCities(r)| ==> CityRegion(RegionCities(r)[i]) == r
  {
    match r
    case North =>
    case Central =>
    case South =>
    case East =>
    case Islands =>
    case Nationwide =>
  }

  /** No region list repeats a city. */
  lemma RegionCities_NoDup(r: TaiwanRegion)
    ensures NoDup(RegionCities(r))
  {
    match r
    case North =>
    case Central =>
    case South =>
    case East =>
    case Islands =>
    case Nationwide =>
  }

  /** Every city appears in exactly one region's list, and the nationwide
      list is empty. */
  lemma RegionCities_Partition(c: TaiwanCity, r: TaiwanRegion)
    ensures c in RegionCities(r) <==> r == CityRegion(c)
    ensures RegionCities(Nationwide) == []
  {
    if c in RegionCities(r) {
      RegionCities_Regions(r);
    }
    if r == CityRegion(c) {
      match c
      case Taipei | NewTaipei | Keelung | Taoyuan | HsinchuCity | HsinchuCounty | Yilan =>
      case Miaoli | Taichung | Changhua | Nantou | Yunlin =>
      case ChiayiCity | ChiayiCounty | Tainan | Kaohsiung | Pingtung =>
      case Hualien | Taitung =>
      case Penghu | Kinmen | Lienchiang =>
    }
  }

  /** The region lists, read in order, are exactly the list of all cities. */
  lemma RegionCities_Concat()
    ensures RegionCities(North) + RegionCities(Central) + RegionCities(South)
            + RegionCities(East) + RegionCities(Islands) == AllCities
  {}

  /** `CityIndex` reads `AllCities` back. */
  lemma CityIndex_Inverse(i: nat)
    requires i < |AllCities|
    ensures CityIndex(AllCities[i]) == i
  {}

  /** No city is listed twice. */
  lemma AllCities_NoDup()
    ensures NoDup(AllCities)
  {
    forall i, j | 0 <= i < j < |AllCities| ensures AllCities[i] != AllCities[j] {
      CityIndex_Inverse(i);
      CityIndex_Inverse(j);
    }
  }

  /** CITY_DISTRICTS: the main districts of the six special municipalities. */
  function CityDistricts(c: TaiwanCity): Option<seq<string>> {
    match c
    case Taipei => Some(["中正區", "大同區", "中山區", "松山區", "大安區", "萬華區", "信義區", "士林區", "北投區", "內湖區", "南港區", "文山區"])
    case NewTaipei => Some(["板橋區", "三重區", "中和區", "永和區", "新莊區", "新店區", "土城區", "蘆洲區", "樹林區", "汐止區", "鶯歌區", "三峽區", "淡水區", "林口區"])
    case Taoyuan => Some(["桃園區", "中壢區", "平鎮區", "八德區", "楊梅區", "蘆竹區", "龜山區", "龍潭區", "大溪區"])
    case Taichung => Some(["中區", "東區", "南區", "西區", "北區", "北屯區", "西屯區", "南屯區", "太平區", "大里區", "霧峰區", "烏日區", "豐原區", "大雅區"])
    case Tainan => Some(["中西區", "東區", "南區", "北區", "安平區", "安南區", "永康區", "新營區", "仁德區", "歸仁區"])
    case Kaohsiung => Some(["楠梓區", "左營區", "鼓山區", "三民區", "鹽埕區", "前金區", "新興區", "苓雅區", "前鎮區", "小港區", "鳳山區", "大寮區", "岡山區"])
    case _ => None
  }

  /** Every district list is non-empty and duplicate-free, and lists exist
      exactly for the six special municipalities. */
  lemma CityDistricts_WellFormed(c: TaiwanCity)
    ensures CityDistricts(c).Some? ==> |CityDistricts(c).value| > 0 && NoDup(CityDistricts(c).value)
    ensures CityDistricts(c).Some? <==> c in [Taipei, NewTaipei, Taoyuan, Taichung, Tainan, Kaohsiung]
  {
    match c
    case Taipei => TaipeiDistricts_NoDup();
    case NewTaipei => NewTaipeiDistricts_NoDup();
    case Taoyuan => TaoyuanDistricts_NoDup();
    case Taichung => TaichungDistricts_NoDup();
    case Tainan => TainanDistricts_NoDup();
    case Kaohsiung => KaohsiungDistricts_NoDup();
    case _ =>
  }

  lemma TaipeiDistricts_NoDup() ensures NoDup(CityDistricts(Taipei).value) {}
  lemma NewTaipeiDistricts_NoDup() ensures NoDup(CityDistricts(NewTaipei).value) {}
  lemma TaoyuanDistricts_NoDup() ensures NoDup(CityDistricts(Taoyuan).value) {}
  lemma TaichungDistricts_NoDup() ensures NoDup(CityDistricts(Taichung).value) {}
  lemma TainanDistricts_NoDup() ensures NoDup(CityDistricts(Tainan).value) {}
  lemma KaohsiungDistricts_NoDup() ensures NoDup(CityDistricts(Kaohsiung).value) {}

  // ---------------------------------------------------------------- plans

  /** A pickup point; coordinates and opening dates are not modelled. */
  datatype PickupPoint = PickupPoint(id: string, name: string, address: string, city: Option<TaiwanCity>)

  /** A meal plan. Money is whole NT dollars, dates are `YYYY-MM-DD` text,
      and the creation/update instants are integer timestamps. */
  datatype Plan = Plan(
    id: string,
    vendorId: string,
    vendorName: string,
    title: string,
    description: Option<string>,
    imageUrl: Option<string>,
    images: Option<seq<string>>,
    priceOriginal: Option<int>,
    priceDiscount: int,
    shippingFee: Option<int>,
    shippingType: ShippingType,
    storageType: StorageType,
    pickupPoints: Option<seq<PickupPoint>>,
    deliveryAreas: Option<seq<string>>,
    region: Option<TaiwanRegion>,
    city: Option<TaiwanCity>,
    address: Option<string>,
    servingsMin: int,
    servingsMax: Option<int>,
    orderDeadline: Option<string>,
    fulfillStart: Option<string>,
    fulfillEnd: Option<string>,
    canSelectDate: Option<bool>,
    tags: seq<string>,
    dishes: seq<string>,
    allergens: Option<seq<string>>,
    vendorType: Option<VendorType>,
    productType: Option<ProductType>,
    cuisineStyle: Option<CuisineStyle>,
    priceLevel: Option<PriceLevel>,
    familySize: Option<FamilySize>,
    sourceUrl: Option<string>,
    status: PlanStatus,
    createdAt: int,
    updatedAt: int
  )

  /** `p.servingsMax || p.servingsMin`: the upper serving count, or the
      lower one when no (or a zero) upper count is given. */
  function TopServings(p: Plan): int {
    if p.servingsMax.Some? && p.servingsMax.value != 0 then p.servingsMax.value else p.servingsMin
  }

  /** The price a plan is sold at, `p.priceDiscount`. */
  function Price(p: Plan): int { p.priceDiscount }

  predicate IsPublished(p: Plan) { p.status == Published }

  /** `plans.filter(p => p.status === 'published')`. */
  function PublishedOf(plans: seq<Plan>): (r: seq<Plan>)
    ensures |r| <= |plans|
    ensures forall i :: 0 <= i < |r| ==> r[i].status == Published
  {
    Filter(IsPublished, plans)
  }

  /** `p.priceDiscount / p.servingsMin`, with a plan of zero servings read
      as one serving instead of JavaScript's infinite quotient. */
  function PerPersonPrice(p: Plan): real {
    p.priceDiscount as real / (if p.servingsMin == 0 then 1 else p.servingsMin) as real
  }

  /** The sort orders of the catalogue. */
  datatype SortOption =
    | PriceAsc | PriceDesc | PricePerPersonAsc | ServingsAsc | ServingsDesc
    | DeadlineAsc | FulfillAsc | UpdatedDesc | VendorAsc | DistanceAsc | Relevance

  /** The state of a scraping job. */
  datatype ScraperJobStatus = JobPending | JobRunning | JobSuccess | JobFailed | JobCancelled

  /** The state of a price monitor. */
  datatype MonitorStatus = Idle | Checking | Changed | Error

  datatype CheckInterval = Daily | Weekly | Manual
}
