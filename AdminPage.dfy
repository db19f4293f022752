/** The plan console of src/app/admin/page.tsx: the search and status
    filter, the status counts, batch selection, the defaults of an imported
    plan and the CSV export. */
module AdminPage {
  import opened Common
  import opened Types
  import Csv

  // ------------------------------------------------------------ filtering

  /** Case-insensitive search on the title or the vendor name. */
  predicate MatchesSearch(p: Plan, query: string) {
    Contains(Lower(p.title), Lower(query)) || Contains(Lower(p.vendorName), Lower(query))
  }

  /** `filteredPlans`; a status filter of `None` stands for `'all'`. */
  function FilteredPlans(plans: seq<Plan>, query: string, status: Option<PlanStatus>): (r: seq<Plan>)
    ensures forall p :: p in r <==> p in plans && MatchesSearch(p, query) && (status.None? || p.status == status.value)
    ensures |r| <= |plans|
  {
    var keep := (p: Plan) => MatchesSearch(p, query) && (status.None? || p.status == status.value);
    assert forall p :: p in Filter(keep, plans) <==> p in plans && keep(p) by {
      forall p ensures p in Filter(keep, plans) <==> p in plans && keep(p) {
        Filter_Mem(keep, plans, p);
      }
    }
    Filter(keep, plans)
  }

  /** An empty query with no status filter shows every plan. */
  lemma FilteredPlans_All(plans: seq<Plan>, p: Plan)
    requires p in plans
    ensures p in FilteredPlans(plans, "", None)
  {
    ContainsEmpty(Lower(p.title));
  }

  datatype Counts = Counts(all: nat, published: nat, draft: nat, needsReview: nat)

  function CountOf(plans: seq<Plan>, s: PlanStatus): nat {
    Count((p: Plan) => p.status == s, plans)
  }

  lemma {:induction false} Statuses_Partition(plans: seq<Plan>)
    ensures CountOf(plans, Published) + CountOf(plans, Draft) + CountOf(plans, NeedsReview) == |plans|
  {
    if plans != [] {
      Statuses_Partition(plans[1..]);
      assert plans == [plans[0]] + plans[1..];
      Count_Append((p: Plan) => p.status == Published, [plans[0]], plans[1..]);
      Count_Append((p: Plan) => p.status == Draft, [plans[0]], plans[1..]);
      Count_Append((p: Plan) => p.status == NeedsReview, [plans[0]], plans[1..]);
    }
  }

  /** `counts`: the number of plans, and of plans with each status; the
      three declared statuses are all a modelled plan can have, so they add
      up to the total. */
  function CountsOf(plans: seq<Plan>): (c: Counts)
    ensures c.all == |plans|
    ensures c.published == CountOf(plans, Published) && c.draft == CountOf(plans, Draft)
    ensures c.needsReview == CountOf(plans, NeedsReview)
    ensures c.published + c.draft + c.needsReview == c.all
  {
    Statuses_Partition(plans);
    Counts(|plans|, CountOf(plans, Published), CountOf(plans, Draft), CountOf(plans, NeedsReview))
  }

  // ------------------------------------------------------------ selection

  /** `toggleSelect(id)`. */
  function ToggleSelect(ids: seq<string>, id: string): (r: seq<string>)
    ensures id in r <==> id !in ids
    ensures forall x :: x != id ==> (x in r <==> x in ids)
  {
    if id in ids then
      var keep := (i: string) => i != id;
      assert forall x :: x in Filter(keep, ids) <==> x in ids && x != id by {
        forall x ensures x in Filter(keep, ids) <==> x in ids && x != id {
          Filter_Mem(keep, ids, x);
        }
      }
      Filter(keep, ids)
    else ids + [id]
  }

  /** Toggling twice gives back the same selection, as a set. */
  lemma ToggleSelect_Involution(ids: seq<string>, id: string, x: string)
    ensures x in ToggleSelect(ToggleSelect(ids, id), id) <==> x in ids
  {}

  function Ids(plans: seq<Plan>): (r: seq<string>)
    ensures |r| == |plans| && forall i :: 0 <= i < |plans| ==> r[i] == plans[i].id
  {
    MapSeq((p: Plan) => p.id, plans)
  }

  /** `toggleSelectAll()` as written: it compares the number of selected
      ids with the number of shown plans, not the ids themselves. */
  function ToggleSelectAllAsWritten(selected: seq<string>, shown: seq<Plan>): (r: seq<string>)
    ensures |selected| == |shown| ==> r == []
    ensures |selected| != |shown| ==> r == Ids(shown)
  {
    if |selected| == |shown| then [] else Ids(shown)
  }

  /** A selection kept from an earlier filter that has as many ids as the
      current list is cleared, though none of the shown plans is selected. */
  lemma ToggleSelectAllAsWritten_Clears(p: Plan)
    requires p.id != "other"
    ensures var r := ToggleSelectAllAsWritten(["other"], [p]);
      r == [] && p.id !in r
  {}

  /** `toggleSelectAll()` as meant: clear when every shown plan is
      selected, otherwise select exactly the shown plans. */
  function ToggleSelectAll(selected: seq<string>, shown: seq<Plan>): (r: seq<string>)
    ensures (forall p :: p in shown ==> p.id in selected) ==> r == []
    ensures (exists p :: p in shown && p.id !in selected) ==> r == Ids(shown)
  {
    if forall p :: p in shown ==> p.id in selected then [] else Ids(shown)
  }

  /** Pressing "select all" on a list that is not fully selected selects
      every shown plan, and pressing it again clears the selection. */
  lemma ToggleSelectAll_Twice(selected: seq<string>, shown: seq<Plan>)
    requires exists p :: p in shown && p.id !in selected
    ensures forall p :: p in shown ==> p.id in ToggleSelectAll(selected, shown)
    ensures ToggleSelectAll(ToggleSelectAll(selected, shown), shown) == []
  {
    var r := ToggleSelectAll(selected, shown);
    forall p | p in shown ensures p.id in r {
      var i :| 0 <= i < |shown| && shown[i] == p;
      assert r[i] == p.id;
    }
  }

  // --------------------------------------------------------------- import

  /** The fields of a plan the AI parser returned; a missing field is
      `None`. */
  datatype Parsed = Parsed(
    vendorName: Option<string>, title: Option<string>, description: Option<string>, sourceUrl: Option<string>,
    priceOriginal: Option<int>, priceDiscount: Option<int>, shippingFee: Option<int>,
    shippingType: Option<ShippingType>, storageType: Option<StorageType>,
    servingsMin: Option<int>, servingsMax: Option<int>,
    orderDeadline: Option<string>, fulfillStart: Option<string>, fulfillEnd: Option<string>,
    region: Option<TaiwanRegion>, city: Option<TaiwanCity>, address: Option<string>,
    tags: Option<seq<string>>, dishes: Option<seq<string>>, imageUrl: Option<string>)

  /** `value || fallback` on a number. */
  function OrNum(v: Option<int>, fallback: int): (r: int)
    ensures v.Some? && v.value != 0 ==> r == v.value
    ensures v.None? || v.value == 0 ==> r == fallback
  {
    if v.Some? && v.value != 0 then v.value else fallback
  }

  /** `value || fallback` on text. */
  function OrText(v: Option<string>, fallback: string): (r: string)
    ensures Present(v) ==> r == v.value
    ensures !Present(v) ==> r == fallback
  {
    if Present(v) then v.value else fallback
  }

  /** The plan `handleImport` adds for a parsed result, with the id and
      time stamp the store assigns. */
  function ImportedPlan(d: Parsed, url: Option<string>, id: string, now: int): (p: Plan)
    ensures p.status == NeedsReview && p.vendorId == ""
    ensures p.vendorName == OrText(d.vendorName, "（待填寫）") && p.title == OrText(d.title, "匯入的方案")
    ensures p.priceDiscount == OrNum(d.priceDiscount, 0) && p.servingsMin == OrNum(d.servingsMin, 4)
    ensures p.shippingType == d.shippingType.GetOr(Delivery) && p.storageType == d.storageType.GetOr(Frozen)
    ensures p.sourceUrl == (if Present(d.sourceUrl) then d.sourceUrl else url)
    ensures p.tags == d.tags.GetOr([]) && p.dishes == d.dishes.GetOr([])
  {
    Plan(id, "", OrText(d.vendorName, "（待填寫）"), OrText(d.title, "匯入的方案"), d.description, d.imageUrl, None,
         d.priceOriginal, OrNum(d.priceDiscount, 0), d.shippingFee,
         d.shippingType.GetOr(Delivery), d.storageType.GetOr(Frozen), None, None,
         d.region, d.city, d.address, OrNum(d.servingsMin, 4), d.servingsMax,
         d.orderDeadline, d.fulfillStart, d.fulfillEnd, None, d.tags.GetOr([]), d.dishes.GetOr([]), None,
         None, None, None, None, None, if Present(d.sourceUrl) then d.sourceUrl else url, NeedsReview, now, now)
  }

  /** An empty parse still yields a plan to review, with the placeholder
      vendor, title and serving count. */
  lemma ImportedPlan_Empty(url: Option<string>, id: string, now: int)
    ensures var p := ImportedPlan(Parsed(None, None, None, None, None, None, None, None, None, None, None,
                                         None, None, None, None, None, None, None, None, None), url, id, now);
      p.vendorName == "（待填寫）" && p.title == "匯入的方案" && p.priceDiscount == 0 && p.servingsMin == 4
      && p.status == NeedsReview && p.sourceUrl == url
  {}

  // ------------------------------------------------------------------ CSV

  const Bom := "﻿"

  /** The fourteen column names joined by commas (`headers.join(',')`). */
  const HeaderLine := "餐廳,方案名稱,售價,原價,份量,供應方式,保存方式,地區,縣市,截止日,到貨區間,可指定日期,標籤,來源網址"
  const Columns := 14

  function ShippingLabel(t: ShippingType): string {
    match t
    case Delivery => "宅配"
    case Pickup => "自取"
    case Both => "皆可"
  }

  function StorageLabel(t: StorageType): string {
    match t
    case Frozen => "冷凍"
    case Chilled => "冷藏"
    case _ => "其他"
  }

  /** One exported record. Falsy numbers (0) print as empty text. */
  function ExportRow(p: Plan): (r: seq<string>)
    ensures |r| == Columns
  {
    [ p.vendorName, p.title, IntToString(p.priceDiscount),
      if p.priceOriginal.Some? && p.priceOriginal.value != 0 then IntToString(p.priceOriginal.value) else "",
      IntToString(p.servingsMin) + (if p.servingsMax.Some? && p.servingsMax.value != 0 then "-" + IntToString(p.servingsMax.value) else "") + "人",
      ShippingLabel(p.shippingType), StorageLabel(p.storageType),
      if p.region.Some? then RegionLabel(p.region.value) else "",
      if p.city.Some? then CityName(p.city.value) else "",
      p.orderDeadline.GetOr(""),
      p.fulfillStart.GetOr("") + "-" + p.fulfillEnd.GetOr(""),
      if p.canSelectDate == Some(true) then "是" else "否",
      Join(p.tags, "、"),
      p.sourceUrl.GetOr("") ]
  }

  /** The exported plans: the published ones. */
  function ExportedRows(plans: seq<Plan>): (r: seq<seq<string>>)
    ensures forall i :: 0 <= i < |r| ==> |r[i]| == Columns
  {
    MapSeq(ExportRow, Filter((p: Plan) => p.status == Published, plans))
  }

  /** Every exported record is the record of a published plan, and every
      published plan is exported. */
  lemma ExportedRows_Published(plans: seq<Plan>, i: nat)
    requires i < |ExportedRows(plans)|
    ensures exists p :: p in plans && p.status == Published && ExportedRows(plans)[i] == ExportRow(p)
  {
    var shown := Filter((p: Plan) => p.status == Published, plans);
    var p := shown[i];
    Filter_Mem((p: Plan) => p.status == Published, plans, p);
    assert ExportedRows(plans)[i] == ExportRow(p);
  }

  lemma ExportedRows_Complete(plans: seq<Plan>, p: Plan)
    requires p in plans && p.status == Published
    ensures ExportRow(p) in ExportedRows(plans)
  {
    var shown := Filter((p: Plan) => p.status == Published, plans);
    Filter_Mem((p: Plan) => p.status == Published, plans, p);
    var k :| 0 <= k < |shown| && shown[k] == p;
    assert ExportedRows(plans)[k] == ExportRow(p);
  }

  /** `"${c}"`: quotes around the cell, nothing escaped. */
  function WrapCell(c: string): string { "\"" + c + "\"" }

  function WrapRow(cells: seq<string>): string {
    Join(MapSeq(WrapCell, cells), ",")
  }

  /** The CSV text of `handleExport('csv')` as written (after the byte
      order mark): the header line, then each record with its cells in
      quotes but embedded quotes left as they are. */
  function ExportCsvAsWritten(plans: seq<Plan>): (r: string)
    ensures |r| >= |Bom| && r[..|Bom|] == Bom
  {
    Bom + Join([HeaderLine] + MapSeq(WrapRow, ExportedRows(plans)), "\n")
  }

  /** A cell holding a quote breaks the record: the text written for it
      does not read back as CSV at all. */
  lemma WrapRow_Unreadable()
    ensures WrapRow(["a\"b"]) == "\"a\"b\""
    ensures Csv.ReadDoc(WrapRow(["a\"b"])) == None
  {
    var cells := MapSeq(WrapCell, ["a\"b"]);
    assert |cells| == 1 && cells[0] == WrapCell("a\"b");
    var s := "\"a\"b\"";
    assert WrapRow(["a\"b"]) == s;
    var t := "a\"b\"";
    assert s[1..] == t;
    assert t[0] == 'a' && t[1..] == "\"b\"";
    assert Csv.ReadQuoted("\"b\"") == Some(("", "b\""));
    var inner := Csv.ReadQuoted(t[1..]);
    assert inner == Some(("", "b\""));
    assert Csv.ReadQuoted(t) == Some(([t[0]] + inner.value.0, inner.value.1));
    assert [t[0]] + inner.value.0 == "a";
    assert Csv.ReadRow(s) == None;
  }

  /** The export as meant: every data cell escaped as section 2 of RFC 4180
      asks (with line feeds between records). */
  function ExportCsv(plans: seq<Plan>): (r: string)
    ensures |r| >= |Bom| && r[..|Bom|] == Bom
  {
    Bom + Join([HeaderLine] + Csv.EncodeRows(ExportedRows(plans)), "\n")
  }

  /** After the header line, the records of the corrected export read back
      as exactly the published plans' rows. */
  lemma ExportCsv_RoundTrip(plans: seq<Plan>)
    requires ExportedRows(plans) != []
    ensures ExportCsv(plans) == Bom + HeaderLine + "\n" + Csv.EncodeDoc(ExportedRows(plans))
    ensures Csv.ReadDoc(Csv.EncodeDoc(ExportedRows(plans))) == Some(ExportedRows(plans))
  {
    HeaderDoc(HeaderLine, ExportedRows(plans));
  }

  /** A header line before quoted records, which read back. */
  lemma HeaderDoc(h: string, rows: seq<seq<string>>)
    requires rows != [] && forall i :: 0 <= i < |rows| ==> |rows[i]| >= 1
    ensures Join([h] + Csv.EncodeRows(rows), "\n") == h + "\n" + Csv.EncodeDoc(rows)
    ensures Csv.ReadDoc(Csv.EncodeDoc(rows)) == Some(rows)
  {
    var records := Csv.EncodeRows(rows);
    assert ([h] + records)[1..] == records;
    Csv.ReadDoc_EncodeDoc(rows);
  }

  /** Without quotes in any cell the two exports agree. */
  lemma {:induction false} Escape_NoQuote(c: string)
    requires '"' !in c
    ensures Csv.Escape(c) == c
  {
    if c != [] {
      Escape_NoQuote(c[1..]);
    }
  }
}
