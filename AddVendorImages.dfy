/** scripts/add-vendor-images.js: gives records without a picture the
    representative picture of their vendor, when the vendor is in the
    table. */
module AddVendorImages {
  import opened Common
  import opened PlanRecords

  const Host := "https://images.unsplash.com/"
  const FeastPhoto := Host + "photo-1546069901-ba9599a7e63c?w=400&q=80"
  const SeafoodPhoto := Host + "photo-1564489551778-abb396281f4f?w=400&q=80"

  /** `vendorImages`: the vendor names with a picture, in table order; the
      seafood houses get the seafood picture. */
  const Vendors: seq<string> := [
    "老協珍", "呷七碗", "蔡老師蔬食", "彭園", "海霸王", "鼎泰豐", "台北福華大飯店", "台北寒舍艾美酒店",
    "板橋凱撒大飯店", "福容大飯店", "台北圓山大飯店", "山海樓", "台北萬豪酒店", "炒湘湘", "新竹福華大飯店",
    "台北新板希爾頓酒店", "祥和蔬食", "典華", "Costco大成", "台酒"]

  /** The picture for a vendor name, if the table has one. */
  function ImageFor(vendor: Option<string>): (r: Option<string>)
    ensures r.Some? <==> vendor.Some? && vendor.value in Vendors
    ensures r.Some? ==> r.value == (if vendor.value in {"海霸王", "山海樓"} then SeafoodPhoto else FeastPhoto)
  {
    if vendor.None? || vendor.value !in Vendors then None
    else if vendor.value == "海霸王" || vendor.value == "山海樓" then Some(SeafoodPhoto)
    else Some(FeastPhoto)
  }

  /** No picture: missing, empty or only white space. */
  predicate LacksImage(p: PlanRecord) {
    !Truthy(p.imageUrl) || Trim(p.imageUrl.value) == ""
  }

  predicate Updates(p: PlanRecord) {
    LacksImage(p) && ImageFor(p.vendorName).Some?
  }

  function WithImage(p: PlanRecord): (r: PlanRecord)
    ensures r == p.(imageUrl := r.imageUrl)
  {
    if Updates(p) then p.(imageUrl := ImageFor(p.vendorName)) else p
  }

  /** A record that has a picture is never changed; one that is changed
      gets its vendor's picture and nothing else; afterwards it no longer
      lacks one. */
  lemma WithImage_Rule(p: PlanRecord)
    ensures !LacksImage(p) ==> WithImage(p) == p
    ensures WithImage(p) != p <==> Updates(p)
    ensures Updates(p) ==> WithImage(p).imageUrl == ImageFor(p.vendorName) && !LacksImage(WithImage(p))
  {
    if Updates(p) {
      var url := ImageFor(p.vendorName).value;
      assert Host[0] == 'h';
      assert url[0] == Host[0];
      assert !IsSpace(url[0]);
      Trim_EmptyIffBlank(url);
    }
  }

  /** One logged update. */
  datatype Update = Update(planId: string, vendor: Option<string>, title: Option<string>, imageUrl: string)

  function Logged(ps: seq<PlanRecord>): (r: seq<Update>)
    ensures |r| <= |ps|
  {
    if ps == [] then []
    else
      var p := ps[|ps| - 1];
      Logged(ps[..|ps| - 1]) + (if Updates(p) then [Update(p.id, p.vendorName, p.title, ImageFor(p.vendorName).value)] else [])
  }

  /** Every logged update names a record that lacked a picture and whose
      vendor is in the table. */
  lemma {:induction false} Logged_Sound(ps: seq<PlanRecord>, u: Update)
    requires u in Logged(ps)
    ensures exists i :: 0 <= i < |ps| && ps[i].id == u.planId && Updates(ps[i]) && ImageFor(ps[i].vendorName) == Some(u.imageUrl)
  {
    var init := ps[..|ps| - 1];
    if u in Logged(init) {
      Logged_Sound(init, u);
      var i :| 0 <= i < |init| && init[i].id == u.planId && Updates(init[i]) && ImageFor(init[i].vendorName) == Some(u.imageUrl);
      assert ps[i] == init[i];
    }
  }

  function Pass(ps: seq<PlanRecord>): (r: seq<PlanRecord>)
    ensures |r| == |ps|
  {
    seq(|ps|, i requires 0 <= i < |ps| => WithImage(ps[i]))
  }

  ghost predicate DoneUpTo(before: seq<PlanRecord>, plans: seq<PlanRecord>, k: nat) {
    |plans| == |before| && k <= |before|
    && (forall m :: 0 <= m < k ==> plans[m] == WithImage(before[m]))
    && (forall m :: k <= m < |before| ==> plans[m] == before[m])
  }

  lemma DoneUpTo_Step(before: seq<PlanRecord>, plans: seq<PlanRecord>, k: nat)
    requires k < |before| && DoneUpTo(before, plans, k)
    ensures plans[k] == before[k]
    ensures DoneUpTo(before, plans[k := WithImage(before[k])], k + 1)
  {}

  lemma Logged_Step(ps: seq<PlanRecord>, k: nat)
    requires k < |ps|
    ensures Logged(ps[..k + 1]) == Logged(ps[..k])
      + (if Updates(ps[k]) then [Update(ps[k].id, ps[k].vendorName, ps[k].title, ImageFor(ps[k].vendorName).value)] else [])
  {
    assert ps[..k + 1][..k] == ps[..k];
  }

  /** The `forEach`: in place, with the counter and the log. */
  method AddImages(plans: seq<PlanRecord>) returns (out: seq<PlanRecord>, updated: nat, updates: seq<Update>)
    ensures out == Pass(plans)
    ensures updates == Logged(plans)
    ensures updated == |updates|
  {
    out, updated, updates := plans, 0, [];
    for k := 0 to |plans|
      invariant DoneUpTo(plans, out, k)
      invariant updates == Logged(plans[..k]) && updated == |updates|
    {
      DoneUpTo_Step(plans, out, k);
      Logged_Step(plans, k);
      var plan := out[k];
      if !Truthy(plan.imageUrl) || Trim(plan.imageUrl.value) == "" {
        var vendorImage := ImageFor(plan.vendorName);
        if vendorImage.Some? {
          out := out[k := plan.(imageUrl := vendorImage)];
          updated := updated + 1;
          updates := updates + [Update(plan.id, plan.vendorName, plan.title, vendorImage.value)];
        }
      }
    }
    assert plans[..|plans|] == plans;
  }
}
