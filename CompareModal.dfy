/** The side-by-side comparison of the plans in the comparison tray: the
    shipping and storage labels, the best value of each compared figure and
    the advantage badges each plan earns against them. */
module CompareModal {
  import opened Common
  import opened Types

  /** `getShippingLabel(type)`, with '-' for a type it does not know. */
  function ShippingLabel(t: string): (r: string)
    ensures r == "-" <==> t !in {"delivery", "pickup", "both"}
  {
    if t == "delivery" then "宅配"
    else if t == "pickup" then "自取"
    else if t == "both" then "宅配/自取"
    else "-"
  }

  /** `getStorageLabel(type)`, with '-' for a type it does not know. */
  function StorageLabel(t: string): (r: string)
    ensures r == "-" <==> t !in {"frozen", "chilled", "room_temp"}
  {
    if t == "frozen" then "冷凍"
    else if t == "chilled" then "冷藏"
    else if t == "room_temp" then "常溫"
    else "-"
  }

  /** Every shipping type has its own label; of the storage types only
      the unknown one shows '-', and the others have their own labels. */
  lemma Labels_Distinct(a: ShippingType, b: ShippingType, c: StorageType, d: StorageType)
    ensures ShippingLabel(ShippingTypeName(a)) != "-"
    ensures ShippingLabel(ShippingTypeName(a)) == ShippingLabel(ShippingTypeName(b)) ==> a == b
    ensures StorageLabel(StorageTypeName(c)) == "-" <==> c == UnknownStorage
    ensures StorageLabel(StorageTypeName(c)) == StorageLabel(StorageTypeName(d)) != "-" ==> c == d
  {
  }

  /** `Math.round(p.priceDiscount / p.servingsMin)`. */
  function RoundedPerPerson(p: Plan): int {
    Round(PerPersonPrice(p))
  }

  /** `p.priceOriginal ? p.priceOriginal - p.priceDiscount : 0`. */
  function Discount(p: Plan): int {
    if p.priceOriginal.Some? && p.priceOriginal.value != 0 then p.priceOriginal.value - p.priceDiscount else 0
  }

  function DishCount(p: Plan): int { |p.dishes| }

  /** The best figures over the compared plans; `None` is the infinite
      value `Math.min`/`Math.max` give an empty list. */
  datatype Bests = Bests(minPrice: Option<int>, minPerPerson: Option<int>, maxServings: Option<int>,
                         maxDiscount: Option<int>, maxDishCount: Option<int>)

  function BestsOf(plans: seq<Plan>): (b: Bests)
    ensures plans != [] ==> b.minPrice.Some? && b.minPerPerson.Some? && b.maxServings.Some? && b.maxDiscount.Some? && b.maxDishCount.Some?
  {
    Bests(MinBy(plans, Price), MinBy(plans, RoundedPerPerson), MaxBy(plans, TopServings),
          MaxBy(plans, Discount), MaxBy(plans, DishCount))
  }

  /** The badges of `getAdvantages`, in the order it pushes them. */
  datatype Badge = Lowest | BestValue | Largest | FreeShipping | DateChoice | MostDishes | BiggestDiscount

  /** The badge in position `i` of the push order. */
  function BadgeAt(i: nat): Badge {
    if i == 0 then Lowest else if i == 1 then BestValue else if i == 2 then Largest
    else if i == 3 then FreeShipping else if i == 4 then DateChoice else if i == 5 then MostDishes
    else BiggestDiscount
  }

  function BadgeIndex(x: Badge): (i: nat)
    ensures i < 7 && BadgeAt(i) == x
  {
    match x
    case Lowest => 0
    case BestValue => 1
    case Largest => 2
    case FreeShipping => 3
    case DateChoice => 4
    case MostDishes => 5
    case BiggestDiscount => 6
  }

  const AllBadges: seq<Badge> := [Lowest, BestValue, Largest, FreeShipping, DateChoice, MostDishes, BiggestDiscount]

  function BadgeLabel(x: Badge): string {
    match x
    case Lowest => "最低價"
    case BestValue => "最划算"
    case Largest => "最大份量"
    case FreeShipping => "免運費"
    case DateChoice => "可指定日期"
    case MostDishes => "菜色最多"
    case BiggestDiscount => "折扣最多"
  }

  predicate IsLowest(p: Plan, b: Bests) { b.minPrice == Some(p.priceDiscount) }
  predicate IsBestValue(p: Plan, b: Bests) { b.minPerPerson == Some(RoundedPerPerson(p)) }
  predicate IsLargest(p: Plan, b: Bests) { b.maxServings == Some(TopServings(p)) && b.maxServings.value > 0 }
  predicate HasMostDishes(p: Plan, b: Bests) { b.maxDishCount == Some(|p.dishes|) && b.maxDishCount.value > 0 }
  predicate HasBiggestDiscount(p: Plan, b: Bests) {
    p.priceOriginal.Some? && p.priceOriginal.value != 0 && b.maxDiscount == Some(Discount(p)) && b.maxDiscount.value > 0
  }

  /** The condition under which `getAdvantages` pushes each badge. */
  predicate Earns(p: Plan, b: Bests, x: Badge) {
    match x
    case Lowest => IsLowest(p, b)
    case BestValue => IsBestValue(p, b)
    case Largest => IsLargest(p, b)
    case FreeShipping => p.shippingFee == Some(0)
    case DateChoice => p.canSelectDate == Some(true)
    case MostDishes => HasMostDishes(p, b)
    case BiggestDiscount => HasBiggestDiscount(p, b)
  }

  /** `getAdvantages(plan)`: the earned badges in their fixed order. */
  function Advantages(p: Plan, b: Bests): (r: seq<Badge>)
    ensures |r| <= 7
  {
    Filter((x: Badge) => Earns(p, b, x), AllBadges)
  }

  /** A badge is shown exactly when earned, and at most once. */
  lemma Advantages_Earned(p: Plan, b: Bests, x: Badge)
    ensures x in Advantages(p, b) <==> Earns(p, b, x)
  {
    AllBadges_Complete(x);
    Filter_Mem((x: Badge) => Earns(p, b, x), AllBadges, x);
  }

  lemma Advantages_NoDup(p: Plan, b: Bests)
    ensures NoDup(Advantages(p, b))
  {
    AllBadges_Complete(Lowest);
    Filter_NoDup((x: Badge) => Earns(p, b, x), AllBadges);
  }

  /** The badge labels are distinct, so a plan shows each at most once. */
  lemma BadgeLabel_Injective(x: Badge, y: Badge)
    ensures BadgeLabel(x) == BadgeLabel(y) ==> x == y
  {
  }

  /** The push order lists every badge once. */
  lemma AllBadges_Complete(x: Badge)
    ensures x in AllBadges && NoDup(AllBadges)
  {
    assert AllBadges[BadgeIndex(x)] == x;
    forall i, j | 0 <= i < j < 7 ensures AllBadges[i] != AllBadges[j] {
      assert BadgeIndex(BadgeAt(i)) == i && BadgeIndex(BadgeAt(j)) == j;
    }
  }

  /** Among the compared plans, '最低價' marks exactly the cheapest ones. */
  lemma Lowest_Cheapest(plans: seq<Plan>, p: Plan)
    requires p in plans
    ensures Earns(p, BestsOf(plans), Lowest) <==> forall q :: q in plans ==> p.priceDiscount <= q.priceDiscount
  {
    MinBy_Iff(plans, Price, p);
  }

  /** '菜色最多' marks exactly the plans with the most dishes, when that
      number is positive. */
  lemma MostDishes_Max(plans: seq<Plan>, p: Plan)
    requires p in plans
    ensures Earns(p, BestsOf(plans), MostDishes) <==> |p.dishes| > 0 && forall q :: q in plans ==> |q.dishes| <= |p.dishes|
  {
    var b := BestsOf(plans);
    var m := MaxBy(plans, DishCount);
    assert b.maxDishCount == m;
    MaxBy_Iff(plans, DishCount, p);
    assert (forall q :: q in plans ==> |q.dishes| <= |p.dishes|) <==> (forall q :: q in plans ==> DishCount(q) <= DishCount(p));
    assert HasMostDishes(p, b) <==> m == Some(DishCount(p)) && DishCount(p) > 0;
  }

  /** Some compared plan always carries '最低價'. */
  lemma Lowest_Exists(plans: seq<Plan>)
    requires plans != []
    ensures exists p :: p in plans && Lowest in Advantages(p, BestsOf(plans))
  {
    var m := MinBy(plans, Price);
    var i :| 0 <= i < |plans| && Price(plans[i]) == m.value;
    var b := BestsOf(plans);
    assert Earns(plans[i], b, Lowest);
    Advantages_Earned(plans[i], b, Lowest);
    assert plans[i] in plans;
  }

  /** '折扣最多' needs an original price whose discount is the positive
      maximum over the compared plans. */
  lemma BiggestDiscount_Max(plans: seq<Plan>, p: Plan)
    requires p in plans
    ensures Earns(p, BestsOf(plans), BiggestDiscount) <==>
              (p.priceOriginal.Some? && p.priceOriginal.value != 0 && Discount(p) > 0
               && forall q :: q in plans ==> Discount(q) <= Discount(p))
  {
    var b := BestsOf(plans);
    var m := MaxBy(plans, Discount);
    assert b.maxDiscount == m;
    MaxBy_Iff(plans, Discount, p);
    assert HasBiggestDiscount(p, b) <==> p.priceOriginal.Some? && p.priceOriginal.value != 0 && m == Some(Discount(p)) && Discount(p) > 0;
  }

  /** The badges shown under a plan's name: the first three. */
  function Shown(p: Plan, b: Bests): (r: seq<Badge>)
    ensures |r| <= 3 && |r| <= |Advantages(p, b)| && r == Advantages(p, b)[..|r|]
    ensures |Advantages(p, b)| <= 3 ==> r == Advantages(p, b)
  {
    Take(Advantages(p, b), 3)
  }
}
