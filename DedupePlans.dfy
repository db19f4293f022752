/** scripts/dedupe-plans.js: groups the plans that are not yet duplicates by
    vendor and price, compares the plans of each group pairwise, and marks
    the losing plan of every similar pair as a duplicate of the winner. The
    plan file is an array of records updated in place; the clock is `now`. */
module DedupePlans {
  import opened Common
  import opened PlanRecords

  // ------------------------------------------------------------ scoring

  /** `calculateSimilarity(a, b)`: 1 for equal normalised titles, 0.9 when
      one contains the other, 0.5 when neither has dishes, else the Jaccard
      index of the dish sets. The source throws on a missing title; here
      it reads as "". */
  function Similarity(a: PlanRecord, b: PlanRecord): (r: real)
    ensures 0.0 <= r <= 1.0
    ensures NormTitle(a.title.GetOr("")) == NormTitle(b.title.GetOr("")) ==> r == 1.0
  {
    var ta := NormTitle(a.title.GetOr(""));
    var tb := NormTitle(b.title.GetOr(""));
    if ta == tb then 1.0
    else if Contains(ta, tb) || Contains(tb, ta) then 0.9
    else if DishSet(a) == {} && DishSet(b) == {} then 0.5
    else Jaccard(DishSet(a), DishSet(b))
  }

  /** Similarity does not depend on the order of the two plans. */
  lemma Similarity_Symmetric(a: PlanRecord, b: PlanRecord)
    ensures Similarity(a, b) == Similarity(b, a)
  {
    assert DishSet(a) * DishSet(b) == DishSet(b) * DishSet(a);
    assert DishSet(a) + DishSet(b) == DishSet(b) + DishSet(a);
  }

  /** Two plans whose titles are unrelated and whose dishes are disjoint
      and not both absent are never similar enough to be duplicates. */
  lemma Similarity_Unrelated(a: PlanRecord, b: PlanRecord)
    requires !Contains(NormTitle(a.title.GetOr("")), NormTitle(b.title.GetOr("")))
    requires !Contains(NormTitle(b.title.GetOr("")), NormTitle(a.title.GetOr("")))
    requires DishSet(a) + DishSet(b) != {} && DishSet(a) * DishSet(b) == {}
    ensures Similarity(a, b) == 0.0
  {
    ContainsSelf(NormTitle(a.title.GetOr("")));
  }

  /** The sum of a list of scores. */
  function RealSum(s: seq<real>): real {
    if s == [] then 0.0 else s[0] + RealSum(s[1..])
  }

  /** A sum of non-negative scores is at least each of them. */
  lemma {:induction false} RealSum_Bound(s: seq<real>, k: nat)
    requires forall m :: 0 <= m < |s| ==> s[m] >= 0.0
    requires k < |s|
    ensures RealSum(s) >= s[k] >= 0.0
  {
    if k > 0 {
      RealSum_Bound(s[1..], k - 1);
      assert s[1..][k - 1] == s[k];
    } else if |s| > 1 {
      RealSum_Bound(s[1..], 0);
    }
  }

  /** `w` when the field counts, else nothing. */
  function Points(counts: bool, w: real): (r: real)
    requires w >= 0.0
    ensures r >= 0.0
  {
    if counts then w else 0.0
  }

  /** The per-field scores of `calculateCompleteness`: 2 for an image, 1
      each for a description, an original price, a deadline and a
      fulfilment date, 1 per dish, 0.5 per tag and 0.5 each for a region and
      a city. */
  function Contributions(p: PlanRecord): (r: seq<real>)
    ensures |r| == 9 && forall m :: 0 <= m < |r| ==> r[m] >= 0.0
    ensures r[2] == DishCount(p) as real
  {
    var dishes := DishCount(p);
    var tags := |OrEmpty(p.tags)|;
    [ Points(Truthy(p.imageUrl), 2.0), Points(Truthy(p.description), 1.0),
      Points(dishes > 0, dishes as real), Points(tags > 0, tags as real * 0.5),
      Points(NumTruthy(p.priceOriginal), 1.0), Points(Truthy(p.orderDeadline), 1.0),
      Points(Truthy(p.fulfillStart), 1.0), Points(Truthy(p.region), 0.5), Points(Truthy(p.city), 0.5) ]
  }

  /** `calculateCompleteness(plan)`: the sum of the per-field scores, so
      never negative and never below the dish count. */
  function Completeness(p: PlanRecord): (r: real)
    ensures r >= DishCount(p) as real >= 0.0
  {
    RealSum_Bound(Contributions(p), 2);
    RealSum(Contributions(p))
  }

  /** The plan kept and the plan marked by one comparison; the reason text
      is not modelled. */
  datatype Verdict = Verdict(keep: PlanRecord, duplicate: PlanRecord)

  /** Whether `a` wins over `b`: more dishes, then strictly greater
      completeness, then a strictly earlier creation instant. */
  predicate Wins(a: PlanRecord, b: PlanRecord) {
    DishCount(a) > DishCount(b)
    || (DishCount(a) == DishCount(b)
        && (Completeness(a) > Completeness(b)
            || (Completeness(a) == Completeness(b) && a.createdAt < b.createdAt)))
  }

  /** `decideWhichToKeep(a, b)`: the winner is kept; when neither wins, `b`
      is kept. */
  function DecideWhichToKeep(a: PlanRecord, b: PlanRecord): (v: Verdict)
    ensures v == Verdict(a, b) || v == Verdict(b, a)
    ensures v.keep == a <==> Wins(a, b) || a == b
    ensures Wins(b, a) ==> v == Verdict(b, a)
  {
    var da := DishCount(a);
    var db := DishCount(b);
    if da > db then Verdict(a, b)
    else if db > da then Verdict(b, a)
    else
      var sa := Completeness(a);
      var sb := Completeness(b);
      if sa > sb then Verdict(a, b)
      else if sb > sa then Verdict(b, a)
      else if a.createdAt < b.createdAt then Verdict(a, b)
      else Verdict(b, a)
  }

  /** The order of the comparison only matters on a full tie: otherwise both
      orders keep the same plan. */
  lemma DecideWhichToKeep_OrderFree(a: PlanRecord, b: PlanRecord)
    requires DishCount(a) != DishCount(b) || Completeness(a) != Completeness(b) || a.createdAt != b.createdAt
    ensures DecideWhichToKeep(a, b) == DecideWhichToKeep(b, a)
  {
  }

  // ------------------------------------------------------------ grouping

  /** A plan main() looks at: one not already marked 'duplicate'. */
  predicate Live(p: PlanRecord) {
    p.status != Some("duplicate")
  }

  /** How a missing number prints inside a template literal. */
  function NumText(o: Option<int>): string {
    if o.Some? then IntToString(o.value) else "undefined"
  }

  /** `${vendorName}::${priceDiscount}`. */
  function PriceKey(p: PlanRecord): string {
    Text(p.vendorName) + "::" + NumText(p.priceDiscount)
  }

  /** The live plans under one price key, in file order. */
  function Group(plans: seq<PlanRecord>, key: string): (r: seq<PlanRecord>)
    ensures |r| <= |plans|
  {
    if plans == [] then []
    else
      var last := plans[|plans| - 1];
      var prev := Group(plans[..|plans| - 1], key);
      if Live(last) && PriceKey(last) == key then prev + [last] else prev
  }

  /** A group holds exactly the live plans with its key. */
  lemma {:induction false} Group_Members(plans: seq<PlanRecord>, key: string)
    ensures forall x :: x in Group(plans, key) <==> x in plans && Live(x) && PriceKey(x) == key
  {
    if plans != [] {
      Group_Members(plans[..|plans| - 1], key);
      assert plans == plans[..|plans| - 1] + [plans[|plans| - 1]];
    }
  }

  /** Extending the plans by one extends a group by that plan or by
      nothing. */
  lemma Group_Step(plans: seq<PlanRecord>, i: nat, key: string)
    requires i < |plans|
    ensures Group(plans[..i + 1], key)
      == Group(plans[..i], key) + (if Live(plans[i]) && PriceKey(plans[i]) == key then [plans[i]] else [])
  {
    assert plans[..i + 1][..i] == plans[..i];
  }

  /** `index` maps every key seen in `plans` to its group, and `order`
      lists those keys once each. */
  ghost predicate Indexed(plans: seq<PlanRecord>, order: seq<string>, index: map<string, seq<PlanRecord>>) {
    NoDup(order)
    && (forall k :: k in index <==> k in order)
    && (forall k :: k in index ==> index[k] == Group(plans, k) && index[k] != [])
    && (forall k :: k !in index ==> Group(plans, k) == [])
  }

  /** A plan marked 'duplicate' leaves the index as it is. */
  lemma Indexed_Skip(plans: seq<PlanRecord>, i: nat, order: seq<string>, index: map<string, seq<PlanRecord>>)
    requires i < |plans| && !Live(plans[i]) && Indexed(plans[..i], order, index)
    ensures Indexed(plans[..i + 1], order, index)
  {
    forall k
      ensures Group(plans[..i + 1], k) == Group(plans[..i], k)
    {
      Group_Step(plans, i, k);
    }
  }

  /** A live plan joins the group of its own key and of no other. */
  lemma Group_Live(plans: seq<PlanRecord>, i: nat)
    requires i < |plans| && Live(plans[i])
    ensures forall k :: Group(plans[..i + 1], k) == (if k == PriceKey(plans[i]) then Group(plans[..i], k) + [plans[i]] else Group(plans[..i], k))
  {
    forall k
      ensures Group(plans[..i + 1], k)
        == if k == PriceKey(plans[i]) then Group(plans[..i], k) + [plans[i]] else Group(plans[..i], k)
    {
      Group_Step(plans, i, k);
    }
  }

  /** A live plan whose key is indexed joins that key's group. */
  lemma Indexed_Extend(plans: seq<PlanRecord>, i: nat, order: seq<string>, index: map<string, seq<PlanRecord>>)
    requires i < |plans| && Live(plans[i]) && Indexed(plans[..i], order, index)
    requires PriceKey(plans[i]) in index
    ensures Indexed(plans[..i + 1], order, index[PriceKey(plans[i]) := index[PriceKey(plans[i])] + [plans[i]]])
  {
    Group_Live(plans, i);
  }

  /** A live plan with a new key starts a group and lists the key last. */
  lemma Indexed_New(plans: seq<PlanRecord>, i: nat, order: seq<string>, index: map<string, seq<PlanRecord>>)
    requires i < |plans| && Live(plans[i]) && Indexed(plans[..i], order, index)
    requires PriceKey(plans[i]) !in index
    ensures Indexed(plans[..i + 1], order + [PriceKey(plans[i])], index[PriceKey(plans[i]) := [plans[i]]])
  {
    Group_Live(plans, i);
    var key := PriceKey(plans[i]);
    var order', index' := order + [key], index[key := [plans[i]]];
    NoDup_Snoc(order, key);
    assert key !in order;
    forall k ensures k in index' <==> k in order' {
      assert k in order' <==> k in order || k == key;
    }
    forall k | k in index'
      ensures index'[k] == Group(plans[..i + 1], k) && index'[k] != []
    {
      if k == key {
        assert Group(plans[..i], k) == [];
        assert Group(plans[..i + 1], k) == [] + [plans[i]];
      } else {
        assert index'[k] == index[k];
      }
    }
    forall k | k !in index'
      ensures Group(plans[..i + 1], k) == []
    {
      assert k != key && k !in index;
    }
  }

  /** The indexed keys are exactly the keys of the live plans. */
  lemma Indexed_Keys(plans: seq<PlanRecord>, order: seq<string>, index: map<string, seq<PlanRecord>>)
    requires Indexed(plans, order, index)
    ensures forall k :: k in order <==> exists p :: p in plans && Live(p) && PriceKey(p) == k
  {
    forall k | k in order
      ensures exists p :: p in plans && Live(p) && PriceKey(p) == k
    {
      Group_Members(plans, k);
      assert index[k][0] in Group(plans, k);
    }
    forall k | exists p :: p in plans && Live(p) && PriceKey(p) == k
      ensures k in order
    {
      Group_Members(plans, k);
    }
  }

  /** The price index loop: `order` lists the keys in first-insertion order
      (the iteration order of a JavaScript Map). */
  method BuildIndex(plans: seq<PlanRecord>) returns (order: seq<string>, index: map<string, seq<PlanRecord>>)
    ensures Indexed(plans, order, index)
    ensures forall k :: k in order <==> exists p :: p in plans && Live(p) && PriceKey(p) == k
  {
    order, index := [], map[];
    for i := 0 to |plans|
      invariant Indexed(plans[..i], order, index)
    {
      var plan := plans[i];
      if !Live(plan) {
        Indexed_Skip(plans, i, order, index);
        continue;
      }
      var key := PriceKey(plan);
      var current := [];
      if key in index {
        Indexed_Extend(plans, i, order, index);
        current := index[key];
      } else {
        Indexed_New(plans, i, order, index);
        order := order + [key];
      }
      index := index[key := current + [plan]];
    }
    assert plans[..|plans|] == plans;
    Indexed_Keys(plans, order, index);
  }

  /** The keys of the groups holding more than one plan, in order. */
  method PotentialDuplicates(order: seq<string>, index: map<string, seq<PlanRecord>>) returns (keys: seq<string>)
    ensures forall k :: k in keys <==> k in order && k in index && |index[k]| > 1
  {
    keys := [];
    for i := 0 to |order|
      invariant forall k :: k in keys <==> k in order[..i] && k in index && |index[k]| > 1
    {
      assert order[..i + 1] == order[..i] + [order[i]];
      if order[i] in index && |index[order[i]]| > 1 {
        keys := keys + [order[i]];
      }
    }
    assert order[..|order|] == order;
  }

  // ------------------------------------------------------------ comparing

  /** One entry of `duplicateResults`. */
  datatype DupResult = DupResult(keepId: string, duplicateId: string, similarity: real)

  /** The entry one similar pair produces. */
  function ResultOf(a: PlanRecord, b: PlanRecord): (r: DupResult)
    ensures (r.keepId, r.duplicateId) in {(a.id, b.id), (b.id, a.id)}
  {
    var v := DecideWhichToKeep(a, b);
    DupResult(v.keep.id, v.duplicate.id, Similarity(a, b))
  }

  /** An entry that some earlier-later pair of the group produces, with a
      similarity of at least 0.5. */
  ghost predicate Produced(group: seq<PlanRecord>, r: DupResult) {
    r.similarity >= 0.5 && exists i, j :: 0 <= i < j < |group| && r == ResultOf(group[i], group[j])
  }

  /** The ids of the plans the results mark. */
  function DupIds(results: seq<DupResult>): set<string> {
    set r | r in results :: r.duplicateId
  }

  /** Appending an entry adds its id to the marked ids. */
  lemma DupIds_Append(results: seq<DupResult>, r: DupResult)
    ensures DupIds(results + [r]) == DupIds(results) + {r.duplicateId}
  {
    assert forall x :: x in results + [r] <==> x in results || x == r;
  }

  /** Appending the entry of a similar pair keeps every entry produced,
      adds its id to the marked ids, and leaves the earlier entries in
      place. */
  lemma Results_Append(group: seq<PlanRecord>, i: nat, j: nat, before: seq<DupResult>, acc: seq<DupResult>)
    requires i < j < |group| && Similarity(group[i], group[j]) >= 0.5
    requires forall x :: x in acc ==> Produced(group, x)
    requires |before| <= |acc| && acc[..|before|] == before
    ensures forall x :: x in acc + [ResultOf(group[i], group[j])] ==> Produced(group, x)
    ensures DupIds(acc + [ResultOf(group[i], group[j])]) == DupIds(acc) + {ResultOf(group[i], group[j]).duplicateId}
    ensures (acc + [ResultOf(group[i], group[j])])[..|before|] == before
    ensures acc != [] ==> (acc + [ResultOf(group[i], group[j])])[0] == acc[0]
  {
    var r := ResultOf(group[i], group[j]);
    assert Produced(group, r);
    DupIds_Append(acc, r);
    assert (acc + [r])[..|before|] == acc[..|before|];
  }

  /** No two plans of the group that are left unmarked by `ids`, the
      earlier at a position below `upTo`, are similar enough to be
      duplicates. */
  predicate SeparatedBelow(group: seq<PlanRecord>, upTo: int, ids: set<string>) {
    forall a, b :: 0 <= a < b < |group| && a < upTo && group[a].id !in ids && group[b].id !in ids ==>
      Similarity(group[a], group[b]) < 0.5
  }

  /** No two unmarked plans of the group are similar enough to be
      duplicates. */
  predicate Separated(group: seq<PlanRecord>, ids: set<string>) {
    SeparatedBelow(group, |group|, ids)
  }

  /** Marking more plans keeps a group separated. */
  lemma Separated_Grow(group: seq<PlanRecord>, ids: set<string>, more: set<string>)
    requires Separated(group, ids) && ids <= more
    ensures Separated(group, more)
  {
  }

  /** The marked ids of joined result lists are the union of theirs. */
  lemma DupIds_Concat(a: seq<DupResult>, b: seq<DupResult>)
    ensures DupIds(a + b) == DupIds(a) + DupIds(b)
  {
    assert forall x :: x in a + b <==> x in a || x in b;
  }

  /** Every plan after `i` and before `j` that is left unmarked, with the
      plan at `i` unmarked too, scored below 0.5 against it. */
  predicate RowSeparated(group: seq<PlanRecord>, i: nat, j: int, ids: set<string>)
    requires i < |group|
  {
    forall b :: i < b < j && b < |group| && group[i].id !in ids && group[b].id !in ids ==>
      Similarity(group[i], group[b]) < 0.5
  }

  /** One turn of the inner loop settles the pair (i, j): one of the two is
      marked, or they scored below 0.5; marking more keeps the earlier
      pairs settled. */
  lemma RowSeparated_Step(group: seq<PlanRecord>, i: nat, j: nat, ids: set<string>, more: set<string>)
    requires i < j < |group| && RowSeparated(group, i, j, ids) && ids <= more
    requires group[i].id in more || group[j].id in more || Similarity(group[i], group[j]) < 0.5
    ensures RowSeparated(group, i, j + 1, more)
  {
  }

  /** A settled row extends the separated part of the group by one. */
  lemma SeparatedBelow_Step(group: seq<PlanRecord>, i: nat, ids: set<string>, more: set<string>)
    requires i < |group| && SeparatedBelow(group, i, ids) && ids <= more
    requires group[i].id in more || RowSeparated(group, i, |group|, more)
    ensures SeparatedBelow(group, i + 1, more)
  {
  }

  /** The inner loop of the pairwise comparison, for the plan at `i`:
      entries are only appended, and each comes from a similar pair; every
      later plan left unmarked, when the plan at `i` is unmarked too, scored
      below 0.5 against it. */
  method CompareFrom(group: seq<PlanRecord>, i: nat, results: seq<DupResult>, processed: set<string>)
    returns (results': seq<DupResult>, processed': set<string>)
    requires i < |group|
    requires forall r :: r in results ==> Produced(group, r)
    requires processed == DupIds(results)
    ensures forall r :: r in results' ==> Produced(group, r)
    ensures processed' == DupIds(results') && processed <= processed'
    ensures RowSeparated(group, i, |group|, processed')
    ensures |results| <= |results'| && results'[..|results|] == results
    ensures i == 0 && results == [] && |group| >= 2 && Similarity(group[0], group[1]) >= 0.5 ==>
      results' != [] && results'[0] == ResultOf(group[0], group[1])
  {
    results', processed' := results, processed;
    assert results == [] ==> processed == {};
    for j := i + 1 to |group|
      invariant forall r :: r in results' ==> Produced(group, r)
      invariant processed' == DupIds(results') && processed <= processed'
      invariant RowSeparated(group, i, j, processed')
      invariant |results| <= |results'| && results'[..|results|] == results
      invariant i == 0 && results == [] && j == 1 ==> results' == [] && processed' == {}
      invariant i == 0 && results == [] && j > 1 && Similarity(group[0], group[1]) >= 0.5 ==>
        results' != [] && results'[0] == ResultOf(group[0], group[1])
    {
      if group[j].id in processed' {
        RowSeparated_Step(group, i, j, processed', processed');
        continue;
      }
      var similarity := Similarity(group[i], group[j]);
      if similarity >= 0.5 {
        var v := DecideWhichToKeep(group[i], group[j]);
        var r := DupResult(v.keep.id, v.duplicate.id, similarity);
        assert r == ResultOf(group[i], group[j]);
        Results_Append(group, i, j, results, results');
        RowSeparated_Step(group, i, j, processed', processed' + {v.duplicate.id});
        results' := results' + [r];
        processed' := processed' + {v.duplicate.id};
      } else {
        RowSeparated_Step(group, i, j, processed', processed');
      }
    }
  }

  /** The pairwise loop over one group: every entry comes from a similar
      pair, no two plans left unmarked are similar, and when the first two
      plans are similar their entry comes first. */
  method CompareGroup(group: seq<PlanRecord>) returns (results: seq<DupResult>)
    ensures forall r :: r in results ==> Produced(group, r)
    ensures Separated(group, DupIds(results))
    ensures |group| >= 2 && Similarity(group[0], group[1]) >= 0.5 ==> results != [] && results[0] == ResultOf(group[0], group[1])
  {
    results := [];
    var processed: set<string> := {};
    for i := 0 to |group|
      invariant forall r :: r in results ==> Produced(group, r)
      invariant processed == DupIds(results)
      invariant SeparatedBelow(group, i, processed)
      invariant i == 0 ==> results == []
      invariant i > 0 && |group| >= 2 && Similarity(group[0], group[1]) >= 0.5 ==> results != [] && results[0] == ResultOf(group[0], group[1])
    {
      if group[i].id in processed {
        SeparatedBelow_Step(group, i, processed, processed);
        continue;
      }
      var before, seen := results, processed;
      results, processed := CompareFrom(group, i, results, processed);
      SeparatedBelow_Step(group, i, seen, processed);
      assert before != [] ==> results[0] == results[..|before|][0];
    }
  }

  // ------------------------------------------------------------ marking

  /** The keep id of the first entry marking `id`. */
  function FirstKeep(results: seq<DupResult>, id: string): (r: Option<string>)
    ensures r.None? <==> id !in DupIds(results)
  {
    if results == [] then None
    else if results[0].duplicateId == id then Some(results[0].keepId)
    else
      assert DupIds(results) == {results[0].duplicateId} + DupIds(results[1..]);
      FirstKeep(results[1..], id)
  }

  /** The keep id comes from the first entry that marks `id`. */
  lemma {:induction false} FirstKeep_First(results: seq<DupResult>, id: string, k: nat)
    requires k < |results| && results[k].duplicateId == id
    requires forall m :: 0 <= m < k ==> results[m].duplicateId != id
    ensures FirstKeep(results, id) == Some(results[k].keepId)
  {
    if k > 0 {
      assert results[1..][k - 1] == results[k];
      forall m | 0 <= m < k - 1
        ensures results[1..][m].duplicateId != id
      {
        assert results[1..][m] == results[m + 1];
      }
      FirstKeep_First(results[1..], id, k - 1);
    }
  }

  /** A plan after the marking loop: one the results mark gets status
      'duplicate', the id it is a duplicate of and a fresh update instant;
      nothing else about any plan changes. */
  function MarkWith(p: PlanRecord, results: seq<DupResult>, now: int): (r: PlanRecord)
    ensures p.id in DupIds(results) ==> !Live(r) && r.duplicateOf == FirstKeep(results, p.id) && r.updatedAt == now
    ensures p.id !in DupIds(results) ==> r == p
  {
    var keep := FirstKeep(results, p.id);
    if keep.Some? then p.(status := Some("duplicate"), duplicateOf := keep, updatedAt := now) else p
  }

  /** Marking changes no field but the status, the duplicate link and the
      update instant. */
  lemma MarkWith_Frame(p: PlanRecord, results: seq<DupResult>, now: int)
    ensures MarkWith(p, results, now).(status := p.status, duplicateOf := p.duplicateOf, updatedAt := p.updatedAt) == p
  {
  }

  /** How many of the plans carry an id in `ids`. */
  function MarkedCount(plans: seq<PlanRecord>, ids: set<string>): (n: nat)
    ensures n <= |plans|
  {
    if plans == [] then 0
    else MarkedCount(plans[..|plans| - 1], ids) + (if plans[|plans| - 1].id in ids then 1 else 0)
  }

  /** The marking loop, in place. */
  method MarkAll(plans: array<PlanRecord>, results: seq<DupResult>, now: int) returns (marked: nat)
    modifies plans
    ensures forall k :: 0 <= k < plans.Length ==> plans[k] == MarkWith(old(plans[k]), results, now)
    ensures marked == MarkedCount(old(plans[..]), DupIds(results))
  {
    var ids := DupIds(results);
    ghost var orig := plans[..];
    marked := 0;
    for k := 0 to plans.Length
      invariant forall m :: 0 <= m < k ==> plans[m] == MarkWith(orig[m], results, now)
      invariant forall m :: k <= m < plans.Length ==> plans[m] == orig[m]
      invariant marked == MarkedCount(orig[..k], ids)
    {
      MarkedCount_Step(orig, k, ids);
      var hit := MarkOne(plans, k, results, ids, now);
      if hit {
        marked := marked + 1;
      }
    }
    assert orig[..plans.Length] == orig;
  }

  lemma MarkedCount_Step(s: seq<PlanRecord>, k: nat, ids: set<string>)
    requires k < |s|
    ensures MarkedCount(s[..k + 1], ids) == MarkedCount(s[..k], ids) + (if s[k].id in ids then 1 else 0)
  {
    assert s[..k + 1][..k] == s[..k];
  }

  /** One turn of the marking loop: the plan at `k` is marked when its id
      is a duplicate's. */
  method MarkOne(plans: array<PlanRecord>, k: nat, results: seq<DupResult>, ids: set<string>, now: int) returns (hit: bool)
    requires k < plans.Length && ids == DupIds(results)
    modifies plans
    ensures hit <==> old(plans[k]).id in ids
    ensures plans[k] == MarkWith(old(plans[k]), results, now)
    ensures forall m :: 0 <= m < plans.Length && m != k ==> plans[m] == old(plans[m])
  {
    var plan := plans[k];
    hit := plan.id in ids;
    if hit {
      plans[k] := MarkWith(plan, results, now);
    } else {
      assert MarkWith(plan, results, now) == plan;
    }
  }

  // ------------------------------------------------------------ main

  /** The loop over the groups with more than one plan, each compared with
      its own `processed` set: every entry comes from a similar pair of one
      group, and within every group no two plans left unmarked are similar. */
  method CompareAll(plans: seq<PlanRecord>, groups: seq<string>, index: map<string, seq<PlanRecord>>)
    returns (results: seq<DupResult>)
    requires forall k :: k in groups ==> k in index && index[k] == Group(plans, k)
    ensures forall r :: r in results ==> exists k :: k in groups && Produced(Group(plans, k), r)
    ensures forall k :: k in groups ==> Separated(Group(plans, k), DupIds(results))
  {
    results := [];
    for g := 0 to |groups|
      invariant forall r :: r in results ==> exists k :: k in groups && Produced(Group(plans, k), r)
      invariant forall k :: k in groups[..g] ==> Separated(Group(plans, k), DupIds(results))
    {
      var more := CompareGroup(index[groups[g]]);
      DupIds_Concat(results, more);
      forall k | k in groups[..g + 1]
        ensures Separated(Group(plans, k), DupIds(results + more))
      {
        if k == groups[g] {
          Separated_Grow(Group(plans, k), DupIds(more), DupIds(results + more));
        } else {
          assert k in groups[..g];
          Separated_Grow(Group(plans, k), DupIds(results), DupIds(results + more));
        }
      }
      results := results + more;
    }
    assert groups[..|groups|] == groups;
  }

  /** What main() reports: the keys of the groups it compared, the
      duplicate entries, how many plans it marked, and whether it wrote the
      file. */
  datatype Outcome = Outcome(groups: seq<string>, results: seq<DupResult>, marked: nat, written: bool)

  /** `main()`. A dry run writes nothing. */
  method Dedupe(plans: array<PlanRecord>, dryRun: bool, now: int) returns (out: Outcome)
    modifies plans
    ensures forall k :: k in out.groups ==> |Group(old(plans[..]), k)| > 1
    ensures forall k :: |Group(old(plans[..]), k)| > 1 ==> k in out.groups
    ensures forall r :: r in out.results ==> exists k :: k in out.groups && Produced(Group(old(plans[..]), k), r)
    ensures forall k :: k in out.groups ==> Separated(Group(old(plans[..]), k), DupIds(out.results))
    ensures out.written <==> !dryRun && out.results != []
    ensures !out.written ==> plans[..] == old(plans[..]) && out.marked == 0
    ensures out.written ==> forall k :: 0 <= k < plans.Length ==> plans[k] == MarkWith(old(plans[k]), out.results, now)
    ensures out.written ==> out.marked == MarkedCount(old(plans[..]), DupIds(out.results))
  {
    var snapshot := plans[..];
    var order, index := BuildIndex(snapshot);
    var groups := PotentialDuplicates(order, index);
    assert forall k :: |Group(snapshot, k)| > 1 ==> k in groups;
    if groups == [] {
      return Outcome(groups, [], 0, false);
    }
    var results := CompareAll(snapshot, groups, index);
    if results == [] || dryRun {
      return Outcome(groups, results, 0, false);
    }
    var marked := MarkAll(plans, results, now);
    out := Outcome(groups, results, marked, true);
  }
}
