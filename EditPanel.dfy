/** The plan editor of the administration page: form validation, the
    publish condition, the dish and tag list handlers and the choice between
    adding and updating on save. The form is a `Plan` whose id and
    timestamps the editor never reads. */
module EditPanel {
  import opened Common
  import opened Types
  import UiFilters

  const VendorNameMissing := "請輸入餐廳/品牌名稱"
  const TitleMissing := "請輸入方案名稱"
  const PriceInvalid := "請輸入有效價格"
  const ServingsInvalid := "請輸入有效份量"

  /** The four conditions `validate` checks. */
  predicate Valid(form: Plan) {
    Trim(form.vendorName) != "" && Trim(form.title) != ""
    && form.priceDiscount > 0 && form.servingsMin > 0
  }

  /** `validate()`: one message per failed check, under the field's name;
      the form passes when the record stays empty. */
  method Validate(form: Plan) returns (errors: map<string, string>, ok: bool)
    ensures ok <==> Valid(form)
    ensures ok <==> errors == map[]
    ensures "vendorName" in errors <==> Trim(form.vendorName) == ""
    ensures "title" in errors <==> Trim(form.title) == ""
    ensures "priceDiscount" in errors <==> form.priceDiscount <= 0
    ensures "servingsMin" in errors <==> form.servingsMin <= 0
    ensures errors.Keys <= {"vendorName", "title", "priceDiscount", "servingsMin"}
    ensures "vendorName" in errors ==> errors["vendorName"] == VendorNameMissing
    ensures "title" in errors ==> errors["title"] == TitleMissing
    ensures "priceDiscount" in errors ==> errors["priceDiscount"] == PriceInvalid
    ensures "servingsMin" in errors ==> errors["servingsMin"] == ServingsInvalid
  {
    errors := map[];
    if Trim(form.vendorName) == "" {
      errors := errors["vendorName" := VendorNameMissing];
    }
    assert errors == if Trim(form.vendorName) == "" then map["vendorName" := VendorNameMissing] else map[];
    ghost var e1 := errors;
    if Trim(form.title) == "" {
      errors := errors["title" := TitleMissing];
    }
    assert errors == if Trim(form.title) == "" then e1["title" := TitleMissing] else e1;
    ghost var e2 := errors;
    if form.priceDiscount <= 0 {
      errors := errors["priceDiscount" := PriceInvalid];
    }
    assert errors == if form.priceDiscount <= 0 then e2["priceDiscount" := PriceInvalid] else e2;
    ghost var e3 := errors;
    if form.servingsMin <= 0 {
      errors := errors["servingsMin" := ServingsInvalid];
    }
    assert errors == if form.servingsMin <= 0 then e3["servingsMin" := ServingsInvalid] else e3;
    ok := errors == map[];
  }

  /** A form passes exactly when both names hold a non-blank character and
      price and servings are positive. */
  lemma Valid_NonBlank(form: Plan)
    ensures Valid(form) <==> !IsBlank(form.vendorName) && !IsBlank(form.title)
                             && form.priceDiscount > 0 && form.servingsMin > 0
  {
    Trim_EmptyIffBlank(form.vendorName);
    Trim_EmptyIffBlank(form.title);
  }

  /** `canPublish()`: the validation conditions and one of the order
      deadline, the fulfilment start or the fulfilment end. */
  predicate CanPublish(form: Plan) {
    Trim(form.vendorName) != "" && Trim(form.title) != ""
    && form.priceDiscount > 0 && form.servingsMin > 0
    && (Present(form.orderDeadline) || Present(form.fulfillStart) || Present(form.fulfillEnd))
  }

  /** A publishable form is a valid one with a date, and conversely. */
  lemma CanPublish_Valid(form: Plan)
    ensures CanPublish(form) <==> Valid(form) && (Present(form.orderDeadline) || Present(form.fulfillStart) || Present(form.fulfillEnd))
  {
  }

  /** Every dish of the list is trimmed and not empty. */
  predicate CleanDishes(dishes: seq<string>) {
    forall i :: 0 <= i < |dishes| ==> dishes[i] != "" && Trim(dishes[i]) == dishes[i]
  }

  /** `handleAddDish()`: the trimmed input is appended and the input cleared
      unless it is blank. Returns the new dish list and the new input. */
  function AddDish(dishes: seq<string>, newDish: string): (r: (seq<string>, string))
    ensures Trim(newDish) == "" ==> r == (dishes, newDish)
    ensures Trim(newDish) != "" ==> |r.0| == |dishes| + 1 && r.0[..|dishes|] == dishes && r.0[|dishes|] == Trim(newDish) && r.1 == ""
  {
    if Trim(newDish) != "" then (dishes + [Trim(newDish)], "") else (dishes, newDish)
  }

  /** Adding a dish keeps the list clean. */
  lemma AddDish_Clean(dishes: seq<string>, newDish: string)
    requires CleanDishes(dishes)
    ensures CleanDishes(AddDish(dishes, newDish).0)
  {
    Trim_Idempotent(newDish);
  }

  /** `s.filter((_, i) => i !== index)`, built from the back. */
  function DropIndex<T>(s: seq<T>, index: int): (r: seq<T>)
    ensures |r| <= |s|
  {
    if s == [] then []
    else DropIndex(s[..|s| - 1], index) + (if |s| - 1 != index then [s[|s| - 1]] else [])
  }

  /** Removing by position drops exactly the element at `index`, and
      nothing when `index` is out of range. */
  lemma {:induction false} DropIndex_Slices<T>(s: seq<T>, index: int)
    ensures DropIndex(s, index) == if 0 <= index < |s| then s[..index] + s[index + 1..] else s
  {
    if s != [] {
      var init := s[..|s| - 1];
      DropIndex_Slices(init, index);
      if index == |s| - 1 {
        assert s[..index] + s[index + 1..] == init;
      } else if 0 <= index < |s| - 1 {
        assert s[..index] + s[index + 1..] == init[..index] + init[index + 1..] + [s[|s| - 1]];
      } else {
        assert init + [s[|s| - 1]] == s;
      }
    }
  }

  /** `handleRemoveDish(index)`. */
  function RemoveDish(dishes: seq<string>, index: int): (r: seq<string>)
    ensures 0 <= index < |dishes| ==> |r| == |dishes| - 1
    ensures !(0 <= index < |dishes|) ==> r == dishes
    ensures forall i :: 0 <= i < |r| ==> r[i] == dishes[if 0 <= index <= i then i + 1 else i]
  {
    DropIndex_Slices(dishes, index);
    DropIndex(dishes, index)
  }

  /** Removing a dish keeps the list clean. */
  lemma RemoveDish_Clean(dishes: seq<string>, index: int)
    requires CleanDishes(dishes)
    ensures CleanDishes(RemoveDish(dishes, index))
  {
    var r := RemoveDish(dishes, index);
    forall i | 0 <= i < |r| ensures r[i] != "" && Trim(r[i]) == r[i] {
      var k := if 0 <= index <= i then i + 1 else i;
      assert r[i] == dishes[k];
    }
  }

  /** `handleToggleTag(tag)`: the shared multi-select toggle. */
  function ToggleTag(tags: seq<string>, tag: string): (r: seq<string>)
    ensures tag in r <==> tag !in tags
    ensures forall t :: t != tag ==> (t in r <==> t in tags)
  {
    UiFilters.Toggle(tags, tag)
  }

  /** Toggling a tag twice restores membership, and restores a list that
      did not hold it. */
  lemma ToggleTag_Involution(tags: seq<string>, tag: string, t: string)
    ensures t in ToggleTag(ToggleTag(tags, tag), tag) <==> t in tags
    ensures tag !in tags ==> ToggleTag(ToggleTag(tags, tag), tag) == tags
  {
    UiFilters.Toggle_Involution(tags, tag, t);
  }

  /** `handleAddCustomTag()`: the trimmed input is appended and the input
      cleared when it is not blank and not already a tag. */
  function AddCustomTag(tags: seq<string>, newTag: string): (r: (seq<string>, string))
    ensures |tags| <= |r.0| <= |tags| + 1 && r.0[..|tags|] == tags
    ensures |r.0| == |tags| + 1 <==> r.1 == "" && Trim(newTag) != ""
  {
    if Trim(newTag) != "" && Trim(newTag) !in tags then (tags + [Trim(newTag)], "") else (tags, newTag)
  }

  /** A custom tag is never added twice, and a non-blank input is a tag
      afterwards. */
  lemma AddCustomTag_NoDup(tags: seq<string>, newTag: string)
    requires NoDup(tags)
    ensures NoDup(AddCustomTag(tags, newTag).0)
    ensures Trim(newTag) != "" ==> Trim(newTag) in AddCustomTag(tags, newTag).0
  {
    if Trim(newTag) != "" && Trim(newTag) !in tags {
      NoDup_Snoc(tags, Trim(newTag));
    }
  }

  /** What `handleSave` asks the store to do. */
  datatype SaveAction = Aborted | AddPlan(data: Plan) | UpdatePlan(id: string, data: Plan)

  /** `handleSave(newStatus)`: nothing on a failed validation; otherwise the
      form with the requested status (or its own) and its vendor id (or the
      fresh `uuid`), added when the panel is new or has no plan, else
      written over the edited plan's id. */
  function HandleSave(form: Plan, plan: Option<Plan>, isNew: bool, newStatus: Option<PlanStatus>, uuid: string): (r: SaveAction)
    ensures r.Aborted? <==> !Valid(form)
    ensures r.AddPlan? <==> Valid(form) && (isNew || plan.None?)
    ensures r.UpdatePlan? ==> plan.Some? && r.id == plan.value.id
    ensures !r.Aborted? ==> r.data.status == (if newStatus.Some? then newStatus.value else form.status)
    ensures !r.Aborted? ==> r.data.vendorId == (if form.vendorId != "" then form.vendorId else uuid)
  {
    if !Valid(form) then Aborted
    else
      var data := form.(status := if newStatus.Some? then newStatus.value else form.status,
                        vendorId := if form.vendorId != "" then form.vendorId else uuid);
      if isNew || plan.None? then AddPlan(data) else UpdatePlan(plan.value.id, data)
  }

  /** What is saved passes validation itself, keeps every field the user
      typed, and always carries a vendor id when the fresh one is not
      empty. */
  lemma HandleSave_Saved(form: Plan, plan: Option<Plan>, isNew: bool, newStatus: Option<PlanStatus>, uuid: string)
    requires !HandleSave(form, plan, isNew, newStatus, uuid).Aborted?
    ensures Valid(HandleSave(form, plan, isNew, newStatus, uuid).data)
    ensures uuid != "" ==> HandleSave(form, plan, isNew, newStatus, uuid).data.vendorId != ""
    ensures HandleSave(form, plan, isNew, newStatus, uuid).data.(status := form.status, vendorId := form.vendorId) == form
  {
  }
}
