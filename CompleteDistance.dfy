/** scripts/complete-distance-data.js: a second distance pass that also
    gives pickup-only records a distance of 0 and counts only real
    changes. */
module CompleteDistance {
  import opened Common
  import opened PlanRecords
  import AutoFill

  /** The distance of lines 29-42: pickup 0, else the region's entry (999
      for none); nationwide delivery areas override either with 999. */
  function CompletedDistance(p: PlanRecord): (r: int)
    ensures r in {0, 100, 150, 200, 250, 300, 999}
    ensures Has(p.deliveryAreas, "nationwide") ==> r == 999
    ensures !Has(p.deliveryAreas, "nationwide") && p.shippingType == Some("pickup") ==> r == 0
  {
    var distance :=
      if p.shippingType == Some("pickup") then 0
      else if Truthy(p.region) then AutoFill.RegionDistance(p.region.value)
      else 999;
    if Has(p.deliveryAreas, "nationwide") then 999 else distance
  }

  /** The record is considered: its distance is falsy. */
  predicate Considered(p: PlanRecord) {
    !NumTruthy(p.maxDistance)
  }

  /** It is updated: considered, and the new distance differs from the old
      value (a pickup record already at 0 is left alone and not counted). */
  predicate Changes(p: PlanRecord) {
    Considered(p) && p.maxDistance != Some(CompletedDistance(p))
  }

  function Completed(p: PlanRecord): (r: PlanRecord)
    ensures r == p.(maxDistance := r.maxDistance)
    ensures r.maxDistance == p.maxDistance || Considered(p)
  {
    if Changes(p) then p.(maxDistance := Some(CompletedDistance(p))) else p
  }

  /** Only records with a falsy distance are touched, and afterwards every
      considered record holds its completed distance. */
  lemma Completed_Rule(p: PlanRecord)
    ensures NumTruthy(p.maxDistance) ==> Completed(p) == p
    ensures Considered(p) ==> Completed(p).maxDistance == Some(CompletedDistance(p))
    ensures Changes(p) <==> Completed(p) != p
  {
    if Changes(p) {
      assert Completed(p).maxDistance != p.maxDistance;
    }
  }

  /** Where both passes set a distance on a record that is not pickup-only
      and has no nationwide areas, they agree. */
  lemma Completed_AgreesWithAutoFill(p: PlanRecord)
    requires p.shippingType != Some("pickup") && !Has(p.deliveryAreas, "nationwide")
    requires p.region != Some("nationwide")
    ensures CompletedDistance(p) == AutoFill.DistanceFor(p)
  {}

  function Pass(ps: seq<PlanRecord>): (r: seq<PlanRecord>)
    ensures |r| == |ps|
  {
    seq(|ps|, i requires 0 <= i < |ps| => Completed(ps[i]))
  }

  /** `updated`: how many records changed. */
  function Changed(ps: seq<PlanRecord>): (n: nat)
    ensures n <= |ps|
  {
    if ps == [] then 0 else Changed(ps[..|ps| - 1]) + (if Changes(ps[|ps| - 1]) then 1 else 0)
  }

  /** The count is zero exactly when the pass leaves the list as it was. */
  lemma {:induction false} Changed_Zero(ps: seq<PlanRecord>)
    ensures Changed(ps) == 0 <==> Pass(ps) == ps
  {
    if ps != [] {
      var n := |ps| - 1;
      var init := ps[..n];
      Changed_Zero(init);
      Completed_Rule(ps[n]);
      assert Pass(ps)[..n] == Pass(init);
      if Pass(ps) == ps {
        assert Pass(init) == init;
        assert Completed(ps[n]) == ps[n];
      }
      if Changed(ps) == 0 {
        assert Pass(ps) == Pass(init) + [Completed(ps[n])];
        assert ps == init + [ps[n]];
      }
    }
  }

  /** A second run changes nothing. */
  lemma Pass_Settles(ps: seq<PlanRecord>)
    ensures Changed(Pass(ps)) == 0
  {
    forall i | 0 <= i < |ps| ensures Completed(Pass(ps)[i]) == Pass(ps)[i] {
      Completed_Rule(ps[i]);
      Completed_Rule(Pass(ps)[i]);
    }
    assert Pass(Pass(ps)) == Pass(ps);
    Changed_Zero(Pass(ps));
  }

  ghost predicate DoneUpTo(before: seq<PlanRecord>, plans: seq<PlanRecord>, k: nat) {
    |plans| == |before| && k <= |before|
    && (forall m :: 0 <= m < k ==> plans[m] == Completed(before[m]))
    && (forall m :: k <= m < |before| ==> plans[m] == before[m])
  }

  lemma DoneUpTo_Step(before: seq<PlanRecord>, plans: seq<PlanRecord>, k: nat)
    requires k < |before| && DoneUpTo(before, plans, k)
    ensures plans[k] == before[k]
    ensures DoneUpTo(before, plans[k := Completed(before[k])], k + 1)
  {}

  lemma Changed_Step(ps: seq<PlanRecord>, k: nat)
    requires k < |ps|
    ensures Changed(ps[..k + 1]) == Changed(ps[..k]) + (if Changes(ps[k]) then 1 else 0)
  {
    assert ps[..k + 1][..k] == ps[..k];
  }

  /** The `forEach` over the records. */
  method Complete(plans: seq<PlanRecord>) returns (out: seq<PlanRecord>, updated: nat)
    ensures out == Pass(plans)
    ensures updated == Changed(plans)
  {
    out, updated := plans, 0;
    for k := 0 to |plans|
      invariant DoneUpTo(plans, out, k)
      invariant updated == Changed(plans[..k])
    {
      DoneUpTo_Step(plans, out, k);
      Changed_Step(plans, k);
      var plan := out[k];
      if !NumTruthy(plan.maxDistance) {
        var distance := CompletedDistance(plan);
        if Some(distance) != plan.maxDistance {
          out := out[k := plan.(maxDistance := Some(distance))];
          updated := updated + 1;
        }
      }
    }
    assert plans[..|plans|] == plans;
  }
}
