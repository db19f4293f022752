/** The monitor database of src/app/api/price-monitor/route.ts. The price a
    scrape obtains is a parameter (`None` when none was found), the plans
    file is a list of (id, prices) records, and ids and time stamps
    (milliseconds) are passed in. */
module PriceMonitor {
  import opened Common
  import opened Sorting

  /** What a check found: the prices compared and the change. */
  datatype Check = Check(currentPrice: real, oldPrice: real, changePercent: real, changeType: string)

  datatype Monitor = Monitor(
    id: string, planId: string, sourceUrl: string, enabled: bool, checkInterval: string,
    lastCheckedAt: Option<int>, lastChangeAt: Option<int>, status: string,
    errorMessage: Option<string>, createdAt: int, check: Option<Check>)

  datatype PlanPrices = PlanPrices(id: string, priceDiscount: Option<real>, priceOriginal: Option<real>)

  datatype HistoryEntry = HistoryEntry(id: string, planId: string, price: real, originalPrice: Option<real>,
                                       recordedAt: int, source: string)

  function Abs(x: real): real { if x < 0.0 then -x else x }

  /** `plans.find(p => p.id === planId)`. */
  function FindPlan(plans: seq<PlanPrices>, planId: string): (r: Option<PlanPrices>)
    ensures r.Some? ==> r.value in plans && r.value.id == planId
    ensures r.None? ==> forall i :: 0 <= i < |plans| ==> plans[i].id != planId
  {
    if plans == [] then None
    else if plans[0].id == planId then Some(plans[0])
    else FindPlan(plans[1..], planId)
  }

  /** `plan.priceDiscount || 0`. */
  function OldPrice(p: PlanPrices): real {
    if p.priceDiscount.Some? then p.priceDiscount.value else 0.0
  }

  /** The percentage change: relative to a positive old price, else 100
      for a positive new price and 0 otherwise. */
  function ChangePercent(current: real, prev: real): real {
    if prev > 0.0 then (current - prev) / prev * 100.0
    else if current > 0.0 then 100.0 else 0.0
  }

  /** `checkMonitorTask(task, plans)` at `now`, with the scraped price. */
  function CheckTask(task: Monitor, plans: seq<PlanPrices>, fetched: Option<real>, now: int): (u: Monitor)
    ensures u.id == task.id && u.planId == task.planId && u.enabled == task.enabled && u.lastCheckedAt == Some(now)
    ensures FindPlan(plans, task.planId).None? ==>
      u.status == "error" && u.errorMessage == Some("方案不存在") && u.check == task.check
    ensures FindPlan(plans, task.planId).Some? && fetched.None? ==>
      u.status == "error" && u.errorMessage == Some("無法獲取價格") && u.check == task.check
    ensures u.status == "error" <==> FindPlan(plans, task.planId).None? || fetched.None?
  {
    var plan := FindPlan(plans, task.planId);
    if plan.None? then
      task.(status := "error", errorMessage := Some("方案不存在"), lastCheckedAt := Some(now))
    else if fetched.None? then
      task.(status := "error", errorMessage := Some("無法獲取價格"), lastCheckedAt := Some(now))
    else
      var current := fetched.value;
      var prev := OldPrice(plan.value);
      var changed := Abs(current - prev) > 1.0;
      task.(status := if changed then "changed" else "idle",
            lastCheckedAt := Some(now),
            lastChangeAt := if changed then Some(now) else task.lastChangeAt,
            check := Some(Check(current, prev, if changed then ChangePercent(current, prev) else 0.0,
                                if current < prev then "drop" else "increase")))
  }

  /** With a plan and a price, the status is `changed` exactly when the
      price moved by more than 1; only then is the change time set and the
      percentage non-zero; a drop is a lower price. */
  lemma CheckTask_Change(task: Monitor, plans: seq<PlanPrices>, price: real, now: int)
    requires FindPlan(plans, task.planId).Some?
    ensures var u := CheckTask(task, plans, Some(price), now);
      var prev := OldPrice(FindPlan(plans, task.planId).value);
      u.check.Some? && u.check.value.oldPrice == prev && u.check.value.currentPrice == price
      && (u.status == "changed" <==> Abs(price - prev) > 1.0)
      && (u.status != "changed" ==> u.status == "idle" && u.lastChangeAt == task.lastChangeAt && u.check.value.changePercent == 0.0)
      && (u.status == "changed" ==> u.lastChangeAt == Some(now))
      && (u.check.value.changeType == "drop" <==> price < prev)
  {}

  /** The history record a successful check appends. */
  function HistoryOf(task: Monitor, plans: seq<PlanPrices>, fetched: Option<real>, id: string, now: int): (h: Option<HistoryEntry>)
    ensures h.Some? <==> FindPlan(plans, task.planId).Some? && fetched.Some?
    ensures h.Some? ==> h.value.planId == task.planId && h.value.price == fetched.value
  {
    var plan := FindPlan(plans, task.planId);
    if plan.None? || fetched.None? then None
    else Some(HistoryEntry(id, task.planId, fetched.value, plan.value.priceOriginal, now, "scrape"))
  }

  /** The first monitor of a plan. */
  function FindMonitor(monitors: seq<Monitor>, planId: string): (r: Option<nat>)
    ensures r.Some? ==> r.value < |monitors| && monitors[r.value].planId == planId
    ensures r.Some? ==> forall j :: 0 <= j < r.value ==> monitors[j].planId != planId
    ensures r.None? ==> forall j :: 0 <= j < |monitors| ==> monitors[j].planId != planId
  {
    if monitors == [] then None
    else if monitors[0].planId == planId then Some(0)
    else
      var rest := FindMonitor(monitors[1..], planId);
      if rest.Some? then Some(rest.value + 1) else None
  }

  datatype Stats = Stats(total: nat, enabled: nat, changed: nat, errors: nat)

  function StatsOf(monitors: seq<Monitor>): (s: Stats)
    ensures s.enabled <= s.total && s.changed <= s.total && s.errors <= s.total
    ensures s.changed + s.errors <= s.total
    ensures s.total == |monitors|
  {
    Count_Disjoint3((m: Monitor) => m.status == "changed", (m: Monitor) => m.status == "error", (m: Monitor) => false, monitors);
    Stats(|monitors|, Count((m: Monitor) => m.enabled, monitors),
          Count((m: Monitor) => m.status == "changed", monitors), Count((m: Monitor) => m.status == "error", monitors))
  }

  /** `new Date(x).getTime()` of an optional time: a missing one is 0. */
  function TimeOf(t: Option<int>): int { if t.Some? then t.value else 0 }

  /** The ten most recent changes: changed monitors, latest change first. */
  function RecentChanges(monitors: seq<Monitor>): (r: seq<Monitor>)
    ensures |r| <= 10
    ensures forall m :: m in r ==> m in monitors && m.status == "changed"
    ensures SortedDesc(r, (m: Monitor) => TimeOf(m.lastChangeAt) as real)
  {
    var changed := Filter((m: Monitor) => m.status == "changed", monitors);
    var sorted := SortDesc(changed, (m: Monitor) => TimeOf(m.lastChangeAt) as real);
    var r := Take(sorted, 10);
    forall m | m in r ensures m in monitors && m.status == "changed" {
      SortDesc_Mem(changed, (m: Monitor) => TimeOf(m.lastChangeAt) as real, m);
      Filter_Mem((m: Monitor) => m.status == "changed", monitors, m);
    }
    r
  }

  /** What `POST` answers: a status and the monitor concerned, or the whole
      list for `list`. */
  datatype Answer = Answer(status: int, monitor: Option<Monitor>) | Listed(monitors: seq<Monitor>)

  /** The monitor `add` creates. */
  function NewMonitor(id: string, planId: string, sourceUrl: string, checkInterval: Option<string>, now: int): (m: Monitor)
    ensures m.enabled && m.status == "idle" && m.planId == planId && m.sourceUrl == sourceUrl
    ensures m.checkInterval == checkInterval.GetOr("daily")
  {
    Monitor(id, planId, sourceUrl, true, checkInterval.GetOr("daily"), None, None, "idle", None, now, None)
  }

  class MonitorDb {
    var monitors: seq<Monitor>
    var history: seq<HistoryEntry>

    constructor ()
      ensures monitors == [] && history == []
    {
      monitors := [];
      history := [];
    }

    /** `add`. */
    method Add(planId: Option<string>, sourceUrl: Option<string>, checkInterval: Option<string>, id: string, now: int)
      returns (a: Answer)
      modifies this
      ensures history == old(history)
      ensures !Present(planId) || !Present(sourceUrl) ==> a == Answer(400, None) && monitors == old(monitors)
      ensures Present(planId) && Present(sourceUrl) && FindMonitor(old(monitors), planId.value).Some? ==>
        a == Answer(400, None) && monitors == old(monitors)
      ensures Present(planId) && Present(sourceUrl) && FindMonitor(old(monitors), planId.value).None? ==>
        var m := NewMonitor(id, planId.value, sourceUrl.value, checkInterval, now);
        a == Answer(200, Some(m)) && monitors == old(monitors) + [m]
    {
      if !Present(planId) || !Present(sourceUrl) {
        return Answer(400, None);
      }
      if FindMonitor(monitors, planId.value).Some? {
        return Answer(400, None);
      }
      var m := NewMonitor(id, planId.value, sourceUrl.value, checkInterval, now);
      monitors := monitors + [m];
      return Answer(200, Some(m));
    }

    /** `remove`: every monitor of the plan goes. */
    method Remove(planId: Option<string>) returns (a: Answer)
      modifies this
      ensures history == old(history)
      ensures !Present(planId) ==> a == Answer(400, None) && monitors == old(monitors)
      ensures Present(planId) ==>
        (a == Answer(200, None) && monitors == Filter((m: Monitor) => m.planId != planId.value, old(monitors)))
    {
      if !Present(planId) {
        return Answer(400, None);
      }
      monitors := Filter((m: Monitor) => m.planId != planId.value, monitors);
      return Answer(200, None);
    }

    /** `enable` / `disable`: the first monitor of the plan. */
    method SetEnabled(planId: Option<string>, enable: bool) returns (a: Answer)
      modifies this
      ensures history == old(history)
      ensures !Present(planId) ==> a == Answer(400, None) && monitors == old(monitors)
      ensures Present(planId) && FindMonitor(old(monitors), planId.value).None? ==> a == Answer(404, None) && monitors == old(monitors)
      ensures Present(planId) && FindMonitor(old(monitors), planId.value).Some? ==>
        var i := FindMonitor(old(monitors), planId.value).value;
        monitors == old(monitors)[i := old(monitors)[i].(enabled := enable)] && a == Answer(200, Some(monitors[i]))
    {
      if !Present(planId) {
        return Answer(400, None);
      }
      var found := FindMonitor(monitors, planId.value);
      if found.None? {
        return Answer(404, None);
      }
      var i := found.value;
      monitors := monitors[i := monitors[i].(enabled := enable)];
      return Answer(200, Some(monitors[i]));
    }

    /** `check`: the first monitor of the plan is checked and replaced; a
        price obtained is recorded in the history. */
    method CheckOne(planId: Option<string>, plans: seq<PlanPrices>, fetched: Option<real>, historyId: string, now: int)
      returns (a: Answer)
      modifies this
      ensures !Present(planId) ==> a == Answer(400, None) && monitors == old(monitors) && history == old(history)
      ensures Present(planId) && FindMonitor(old(monitors), planId.value).None? ==>
        a == Answer(404, None) && monitors == old(monitors) && history == old(history)
      ensures Present(planId) && FindMonitor(old(monitors), planId.value).Some? ==>
        var i := FindMonitor(old(monitors), planId.value).value;
        var u := CheckTask(old(monitors)[i], plans, fetched, now);
        var h := HistoryOf(old(monitors)[i], plans, fetched, historyId, now);
        a == Answer(200, Some(u)) && monitors == old(monitors)[i := u]
        && history == old(history) + (if h.Some? then [h.value] else [])
    {
      if !Present(planId) {
        return Answer(400, None);
      }
      var found := FindMonitor(monitors, planId.value);
      if found.None? {
        return Answer(404, None);
      }
      var i := found.value;
      var task := monitors[i];
      var h := HistoryOf(task, plans, fetched, historyId, now);
      if h.Some? {
        history := history + [h.value];
      }
      var u := CheckTask(task, plans, fetched, now);
      monitors := monitors[i := u];
      return Answer(200, Some(u));
    }

    /** `POST` dispatch on the action. */
    method Post(action: string, planId: Option<string>, sourceUrl: Option<string>, checkInterval: Option<string>,
                plans: seq<PlanPrices>, fetched: Option<real>, id: string, now: int) returns (a: Answer)
      modifies this
      ensures action !in {"add", "remove", "enable", "disable", "list", "check"} ==>
        a == Answer(400, None) && monitors == old(monitors) && history == old(history)
      ensures action == "list" ==> a == Listed(old(monitors)) && monitors == old(monitors) && history == old(history)
      ensures action in {"remove", "enable", "disable", "check"} && !Present(planId) ==> a == Answer(400, None)
    {
      if action == "add" {
        a := Add(planId, sourceUrl, checkInterval, id, now);
      } else if action == "remove" {
        a := Remove(planId);
      } else if action == "enable" || action == "disable" {
        a := SetEnabled(planId, action == "enable");
      } else if action == "list" {
        a := Listed(monitors);
      } else if action == "check" {
        a := CheckOne(planId, plans, fetched, id, now);
      } else {
        a := Answer(400, None);
      }
    }

    /** `GET` without a plan: the statistics and the recent changes. */
    method Overview() returns (s: Stats, recent: seq<Monitor>)
      ensures s == StatsOf(monitors) && recent == RecentChanges(monitors)
    {
      s := StatsOf(monitors);
      recent := RecentChanges(monitors);
    }

    /** `GET ?planId=`: the plan's first monitor and its history, newest
        first. */
    method ForPlan(planId: string) returns (m: Option<Monitor>, h: seq<HistoryEntry>)
      ensures var i := FindMonitor(monitors, planId); m == if i.Some? then Some(monitors[i.value]) else None
      ensures h == SortDesc(Filter((e: HistoryEntry) => e.planId == planId, history), (e: HistoryEntry) => e.recordedAt as real)
    {
      var i := FindMonitor(monitors, planId);
      m := if i.Some? then Some(monitors[i.value]) else None;
      h := SortDesc(Filter((e: HistoryEntry) => e.planId == planId, history), (e: HistoryEntry) => e.recordedAt as real);
    }
  }

  /** After `remove` no monitor of the plan is left, and `add` then
      succeeds again. */
  lemma Remove_Then_Add(monitors: seq<Monitor>, planId: string)
    ensures FindMonitor(Filter((m: Monitor) => m.planId != planId, monitors), planId).None?
  {
    var r := Filter((m: Monitor) => m.planId != planId, monitors);
    assert forall j :: 0 <= j < |r| ==> r[j].planId != planId;
  }
}
