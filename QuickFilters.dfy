/** The quick-filter bar: six one-click chips, the list of removable
    entries describing the active filters, and clearing them all. */
module QuickFilters {
  import opened Common
  import opened Types
  import opened UiFilters

  // ----------------------------------------------------------------- chips

  datatype Chip = UnderFiveThousand | FiveToTenThousand | FiveToSixPeople | TenPlusPeople | NoBeef | Vegetarian

  const Beef := "牛"
  const Veggie := "素食"

  /** Each chip's `isActive`. */
  predicate ChipActive(f: Filters, c: Chip) {
    match c
    case UnderFiveThousand => f.priceMax == Some(5000) && !NumSet(f.priceMin)
    case FiveToTenThousand => f.priceMin == Some(5000) && f.priceMax == Some(10000)
    case FiveToSixPeople => f.servingsMin == Some(5) && f.servingsMax == Some(6)
    case TenPlusPeople => f.servingsMin == Some(10)
    case NoBeef => Beef in ListOr(f.excludeKeywords)
    case Vegetarian => Veggie in ListOr(f.tags)
  }

  /** Each chip's `toggle`: an active chip clears what it set, an
      inactive one sets it. */
  function ChipToggle(f: Filters, c: Chip): (r: Filters)
    ensures c == NoBeef ==> r.(excludeKeywords := f.excludeKeywords) == f
    ensures c == Vegetarian ==> r.(tags := f.tags) == f
    ensures c in {UnderFiveThousand, FiveToTenThousand} ==> r.(priceMin := f.priceMin, priceMax := f.priceMax) == f
    ensures c in {FiveToSixPeople, TenPlusPeople} ==> r.(servingsMin := f.servingsMin, servingsMax := f.servingsMax) == f
  {
    var on := ChipActive(f, c);
    match c
    case UnderFiveThousand =>
      if on then f.(priceMax := None) else f.(priceMin := None, priceMax := Some(5000))
    case FiveToTenThousand =>
      if on then f.(priceMin := None, priceMax := None) else f.(priceMin := Some(5000), priceMax := Some(10000))
    case FiveToSixPeople =>
      if on then f.(servingsMin := None, servingsMax := None) else f.(servingsMin := Some(5), servingsMax := Some(6))
    case TenPlusPeople =>
      if on then f.(servingsMin := None, servingsMax := None) else f.(servingsMin := Some(10), servingsMax := None)
    case NoBeef => f.(excludeKeywords := Some(Toggle(ListOr(f.excludeKeywords), Beef)))
    case Vegetarian => f.(tags := Some(Toggle(ListOr(f.tags), Veggie)))
  }

  /** Every chip's toggle flips its own highlight; switching the
      under-5000 chip off clears the price ceiling. */
  lemma ChipToggle_Flips(f: Filters, c: Chip)
    ensures ChipActive(ChipToggle(f, c), c) <==> !ChipActive(f, c)
    ensures c == UnderFiveThousand && ChipActive(f, c) ==> ChipToggle(f, c).priceMax.None?
  {
  }

  /** The two list chips toggled twice keep every other keyword or tag,
      and give back a list that lacked the chip's word. */
  lemma ListChips_Involution(f: Filters, w: string)
    ensures w in ListOr(ChipToggle(ChipToggle(f, NoBeef), NoBeef).excludeKeywords) <==> w in ListOr(f.excludeKeywords)
    ensures w in ListOr(ChipToggle(ChipToggle(f, Vegetarian), Vegetarian).tags) <==> w in ListOr(f.tags)
    ensures Beef !in ListOr(f.excludeKeywords) ==>
              ChipToggle(ChipToggle(f, NoBeef), NoBeef).excludeKeywords == Some(ListOr(f.excludeKeywords))
  {
    Toggle_Involution(ListOr(f.excludeKeywords), Beef, w);
    Toggle_Involution(ListOr(f.tags), Veggie, w);
  }

  // -------------------------------------------------------- active entries

  /** The entries `getActiveFilters` can push, in its order. */
  datatype Key = PriceKey | PerPersonKey | ServingsKey | StorageKey | ShippingKey | FeeKey
               | RegionKey | DistanceKey | TagsKey | ExcludeKey

  const AllKeys: seq<Key> := [PriceKey, PerPersonKey, ServingsKey, StorageKey, ShippingKey, FeeKey,
                              RegionKey, DistanceKey, TagsKey, ExcludeKey]

  function KeyName(k: Key): string {
    match k
    case PriceKey => "price"
    case PerPersonKey => "pricePerPerson"
    case ServingsKey => "servings"
    case StorageKey => "storage"
    case ShippingKey => "shipping"
    case FeeKey => "shippingFee"
    case RegionKey => "region"
    case DistanceKey => "distance"
    case TagsKey => "tags"
    case ExcludeKey => "exclude"
  }

  datatype Entry = Entry(key: Key, text: string)

  /** The condition under which each entry is pushed. */
  predicate KeyActive(f: Filters, k: Key) {
    match k
    case PriceKey => NumSet(f.priceMin) || NumSet(f.priceMax)
    case PerPersonKey => NumSet(f.pricePerPersonMax)
    case ServingsKey => NumSet(f.servingsMin) || NumSet(f.servingsMax)
    case StorageKey => ListSet(f.storageTypes)
    case ShippingKey => ListSet(f.shippingTypes)
    case FeeKey => f.shippingFee == Some(FreeOnly)
    case RegionKey => f.region.Some?
    case DistanceKey => NumSet(f.maxDistance)
    case TagsKey => ListSet(f.tags)
    case ExcludeKey => ListSet(f.excludeKeywords)
  }

  /** A bound pair as text: `a-b`, `a以上` or `b以下`, with the prefix. */
  function RangeText(prefix: string, unit: string, lo: Option<int>, hi: Option<int>): string {
    if NumSet(lo) && NumSet(hi) then prefix + IntToString(lo.value) + "-" + IntToString(hi.value) + unit
    else if NumSet(lo) then prefix + IntToString(lo.value) + unit + "以上"
    else prefix + IntToString(if hi.Some? then hi.value else 0) + unit + "以下"
  }

  /** The label record of the storage entry; JavaScript joins a missing
      label as empty text. */
  function StorageChipLabel(t: StorageType): string {
    match t
    case Frozen => "冷凍"
    case Chilled => "冷藏"
    case RoomTemp => "常溫"
    case UnknownStorage => ""
  }

  function ShippingChipLabel(t: ShippingType): string {
    match t
    case Delivery => "宅配"
    case Pickup => "自取"
    case Both => "皆可"
  }

  function ChoiceName(c: Choice<TaiwanRegion>): string {
    if c.Only? then RegionName(c.value) else "all"
  }

  /** Each entry's label. */
  function EntryLabel(f: Filters, k: Key): string {
    match k
    case PriceKey => "價格: " + RangeText("$", "", f.priceMin, f.priceMax)
    case PerPersonKey => "每人$" + IntToString(if f.pricePerPersonMax.Some? then f.pricePerPersonMax.value else 0) + "以內"
    case ServingsKey => "人數: " + RangeText("", "人", f.servingsMin, f.servingsMax)
    case StorageKey => Join(MapSeq(StorageChipLabel, ListOr(f.storageTypes)), "/")
    case ShippingKey => Join(MapSeq(ShippingChipLabel, ListOr(f.shippingTypes)), "/")
    case FeeKey => "免運費"
    case RegionKey => "地區: " + (if f.region.Some? then ChoiceName(f.region.value) else "")
    case DistanceKey => IntToString(if f.maxDistance.Some? then f.maxDistance.value else 0) + "km內"
    case TagsKey => "標籤: " + Join(ListOr(f.tags), ", ")
    case ExcludeKey => "排除: " + Join(ListOr(f.excludeKeywords), ", ")
  }

  /** What `getActiveFilters` pushes for the keys `keys`, in order. */
  function Entries(f: Filters, keys: seq<Key>): (r: seq<Entry>)
    ensures |r| <= |keys|
  {
    if keys == [] then [] else Pushed(f, keys[0]) + Entries(f, keys[1..])
  }

  /** The one entry a key pushes when its filter is active. */
  function Pushed(f: Filters, k: Key): (r: seq<Entry>)
    ensures |r| <= 1
  {
    if KeyActive(f, k) then [Entry(k, EntryLabel(f, k))] else []
  }

  lemma Entries_Cons(f: Filters, keys: seq<Key>)
    requires keys != []
    ensures Entries(f, keys) == Pushed(f, keys[0]) + Entries(f, keys[1..])
  {
  }

  /** The key in position `i` of the push order. */
  function KeyAt(i: nat): (k: Key)
    ensures i < 10 ==> AllKeys[i] == k
  {
    if i == 0 then PriceKey else if i == 1 then PerPersonKey else if i == 2 then ServingsKey
    else if i == 3 then StorageKey else if i == 4 then ShippingKey else if i == 5 then FeeKey
    else if i == 6 then RegionKey else if i == 7 then DistanceKey else if i == 8 then TagsKey
    else ExcludeKey
  }

  /** The pushes of the first `n` keys, one after the other. */
  function PushedUpTo(f: Filters, n: nat): (r: seq<Entry>)
  {
    if n == 0 then [] else PushedUpTo(f, n - 1) + Pushed(f, KeyAt(n - 1))
  }

  /** All ten pushes are the entries of all ten keys. */
  lemma {:induction false} Entries_Pushed(f: Filters, n: nat)
    requires n <= |AllKeys|
    ensures PushedUpTo(f, n) + Entries(f, AllKeys[n..]) == Entries(f, AllKeys)
    decreases n
  {
    if n > 0 {
      Entries_Pushed(f, n - 1);
      Entries_Cons(f, AllKeys[n - 1..]);
      assert AllKeys[n - 1..][1..] == AllKeys[n..];
    }
  }

  function KeysOf(es: seq<Entry>): (r: seq<Key>)
    ensures |r| == |es|
  {
    if es == [] then [] else [es[0].key] + KeysOf(es[1..])
  }

  /** The entries' keys are the active keys, kept in order. */
  lemma {:induction false} Entries_Keys(f: Filters, keys: seq<Key>)
    ensures KeysOf(Entries(f, keys)) == Filter((k: Key) => KeyActive(f, k), keys)
  {
    if keys != [] {
      Entries_Keys(f, keys[1..]);
      KeysOf_Append(Pushed(f, keys[0]), Entries(f, keys[1..]));
    }
  }

  lemma {:induction false} KeysOf_Append(a: seq<Entry>, b: seq<Entry>)
    ensures KeysOf(a + b) == KeysOf(a) + KeysOf(b)
  {
    if a != [] {
      assert (a + b)[0] == a[0] && (a + b)[1..] == a[1..] + b;
      KeysOf_Append(a[1..], b);
      assert KeysOf(a + b) == [a[0].key] + KeysOf(a[1..] + b);
    } else {
      assert a + b == b;
    }
  }

  /** One `if (...) active.push(...)` of `getActiveFilters`. */
  method PushWhenActive(active: seq<Entry>, f: Filters, k: Key) returns (r: seq<Entry>)
    ensures r == active + Pushed(f, k)
  {
    r := active;
    if KeyActive(f, k) {
      r := r + [Entry(k, EntryLabel(f, k))];
    }
  }

  /** `getActiveFilters()`: one entry per active filter, pushed in the
      fixed order. */
  method GetActiveFilters(f: Filters) returns (active: seq<Entry>)
    ensures active == Entries(f, AllKeys)
  {
    active := [];
    ghost var n := 0;
    active := PushWhenActive(active, f, PriceKey);
    n := n + 1;
    assert active == PushedUpTo(f, n);
    active := PushWhenActive(active, f, PerPersonKey);
    n := n + 1;
    assert active == PushedUpTo(f, n);
    active := PushWhenActive(active, f, ServingsKey);
    n := n + 1;
    assert active == PushedUpTo(f, n);
    active := PushWhenActive(active, f, StorageKey);
    n := n + 1;
    assert active == PushedUpTo(f, n);
    active := PushWhenActive(active, f, ShippingKey);
    n := n + 1;
    assert active == PushedUpTo(f, n);
    active := PushWhenActive(active, f, FeeKey);
    n := n + 1;
    assert active == PushedUpTo(f, n);
    active := PushWhenActive(active, f, RegionKey);
    n := n + 1;
    assert active == PushedUpTo(f, n);
    active := PushWhenActive(active, f, DistanceKey);
    n := n + 1;
    assert active == PushedUpTo(f, n);
    active := PushWhenActive(active, f, TagsKey);
    n := n + 1;
    assert active == PushedUpTo(f, n);
    active := PushWhenActive(active, f, ExcludeKey);
    n := n + 1;
    assert active == PushedUpTo(f, n);
    Entries_Pushed(f, n);
  }

  /** An entry is listed exactly for each active filter, with its label,
      no key twice and so at most ten entries. */
  lemma Entries_Listed(f: Filters, k: Key)
    ensures k in KeysOf(Entries(f, AllKeys)) <==> KeyActive(f, k)
    ensures NoDup(KeysOf(Entries(f, AllKeys)))
    ensures |Entries(f, AllKeys)| <= 10
  {
    Entries_Keys(f, AllKeys);
    Filter_Mem((k: Key) => KeyActive(f, k), AllKeys, k);
    AllKeys_Complete(k);
    Filter_NoDup((k: Key) => KeyActive(f, k), AllKeys);
  }

  lemma AllKeys_Complete(k: Key)
    ensures k in AllKeys && NoDup(AllKeys)
  {
    assert k == AllKeys[0] || k == AllKeys[1] || k == AllKeys[2] || k == AllKeys[3] || k == AllKeys[4]
        || k == AllKeys[5] || k == AllKeys[6] || k == AllKeys[7] || k == AllKeys[8] || k == AllKeys[9];
  }

  /** Each entry's clear button: what it sets. */
  function ClearEntry(f: Filters, k: Key): (r: Filters)
  {
    match k
    case PriceKey => f.(priceMin := None, priceMax := None)
    case PerPersonKey => f.(pricePerPersonMax := None)
    case ServingsKey => f.(servingsMin := None, servingsMax := None)
    case StorageKey => f.(storageTypes := Some([]))
    case ShippingKey => f.(shippingTypes := Some([]))
    case FeeKey => f.(shippingFee := None)
    case RegionKey => f.(region := None)
    case DistanceKey => f.(maxDistance := None)
    case TagsKey => f.(tags := Some([]))
    case ExcludeKey => f.(excludeKeywords := Some([]))
  }

  /** Clearing an entry removes it and leaves every other entry's
      condition as it was. */
  lemma ClearEntry_Removes(f: Filters, k: Key, j: Key)
    ensures !KeyActive(ClearEntry(f, k), k)
    ensures j != k ==> (KeyActive(ClearEntry(f, k), j) <==> KeyActive(f, j))
  {
  }

  /** `hasActiveFilters`: an entry or a search text. */
  predicate HasActiveFilters(f: Filters) {
    Entries(f, AllKeys) != [] || (f.searchQuery.Some? && f.searchQuery.value != "")
  }

  /** `clearAllFilters()`. */
  function ClearAll(f: Filters): (r: Filters)
    ensures r.onlyPublished == f.onlyPublished && r.tagLogic == f.tagLogic && r.targetDate == f.targetDate
    ensures r.shippingType == f.shippingType && r.storageType == f.storageType && r.district == f.district
  {
    f.(searchQuery := Some(""), priceMin := None, priceMax := None, pricePerPersonMax := None,
       servingsMin := None, servingsMax := None, storageTypes := Some([]), shippingTypes := Some([]),
       shippingFee := None, region := None, city := None, tags := Some([]), excludeKeywords := Some([]),
       maxDistance := None, showFavoritesOnly := Some(false), showHistoryOnly := Some(false))
  }

  /** After clearing all, no entry is listed and nothing counts as
      active. */
  lemma ClearAll_Empty(f: Filters)
    ensures Entries(ClearAll(f), AllKeys) == []
    ensures !HasActiveFilters(ClearAll(f))
  {
    var g := ClearAll(f);
    var es := Entries(g, AllKeys);
    if es != [] {
      Entries_Listed(g, KeysOf(es)[0]);
    }
    assert g.searchQuery == Some("");
  }
}
