/** The helpers of the scraper console, src/app/admin/scraper/page.tsx:
    retry back-off, the scrape queue, the job-log CSV export, the
    notification list, image extraction and selection, the cron describer,
    data diffs and the bounded histories. Ids, clocks and regular-expression
    matches are parameters; `localStorage` writes are not part of this
    model. */
module AdminScraper {
  import opened Common
  import opened Json
  import opened Sorting
  import Csv

  // ------------------------------------------------------------ back-off

  datatype RetrySettings = RetrySettings(maxRetries: nat, baseDelay: nat, maxDelay: nat, useExponentialBackoff: bool)

  function Pow2(n: nat): (r: nat)
    ensures r >= 1
  {
    if n == 0 then 1 else 2 * Pow2(n - 1)
  }

  lemma {:induction false} Pow2_Monotone(m: nat, n: nat)
    requires m <= n
    ensures Pow2(m) <= Pow2(n)
  {
    if m < n {
      Pow2_Monotone(m, n - 1);
    }
  }

  /** `calculateRetryDelay(retryCount)`. */
  function CalculateRetryDelay(s: RetrySettings, retryCount: nat): (r: nat)
    ensures !s.useExponentialBackoff ==> r == s.baseDelay
    ensures s.useExponentialBackoff ==> r <= s.maxDelay && r <= s.baseDelay * Pow2(retryCount)
    ensures s.useExponentialBackoff && s.baseDelay * Pow2(retryCount) <= s.maxDelay ==> r == s.baseDelay * Pow2(retryCount)
  {
    if !s.useExponentialBackoff then s.baseDelay
    else Min(s.baseDelay * Pow2(retryCount), s.maxDelay)
  }

  /** With back-off, a later retry never waits less. */
  lemma CalculateRetryDelay_Monotone(s: RetrySettings, m: nat, n: nat)
    requires m <= n
    ensures CalculateRetryDelay(s, m) <= CalculateRetryDelay(s, n)
  {
    Pow2_Monotone(m, n);
    assert s.baseDelay * Pow2(m) <= s.baseDelay * Pow2(n);
  }

  // --------------------------------------------------------------- queue

  datatype Priority = High | Normal | Low
  datatype QueueStatus = Queued | Processing | Done | Failed

  datatype QueueItem = QueueItem(id: string, url: string, priority: Priority, status: QueueStatus,
                                 retryCount: nat, maxRetries: nat, addedAt: int)

  /** `{ high: 0, normal: 1, low: 2 }`. */
  function Rank(p: Priority): int {
    match p
    case High => 0
    case Normal => 1
    case Low => 2
  }

  /** The sort key: a lower rank comes first. */
  function Urgency(q: QueueItem): real { -Rank(q.priority) as real }

  predicate ByPriority(s: seq<QueueItem>) {
    forall i, j :: 0 <= i < j < |s| ==> Rank(s[i].priority) <= Rank(s[j].priority)
  }

  /** `items.sort(by priority)`: the same items, high before normal before
      low. */
  function SortByPriority(items: seq<QueueItem>): (r: seq<QueueItem>)
    ensures multiset(r) == multiset(items)
    ensures ByPriority(r)
  {
    var r := SortDesc(items, Urgency);
    assert SortedDesc(r, Urgency);
    r
  }

  /** The priority sort is stable: the items of each priority keep the
      order they had. */
  lemma SortByPriority_Stable(items: seq<QueueItem>, k: real)
    ensures Keyed(SortByPriority(items), Urgency, k) == Keyed(items, Urgency, k)
  {
    SortDesc_Stable(items, Urgency, k);
  }

  /** The new items `addToQueue(urls, priority)` makes, with fresh `ids`. */
  function NewItems(urls: seq<string>, ids: seq<string>, priority: Priority, maxRetries: nat, now: int): (r: seq<QueueItem>)
    requires |ids| == |urls|
    ensures |r| == |urls|
    ensures forall i :: 0 <= i < |r| ==>
      r[i] == QueueItem(ids[i], Trim(urls[i]), priority, Queued, 0, maxRetries, now)
  {
    seq(|urls|, i requires 0 <= i < |urls| => QueueItem(ids[i], Trim(urls[i]), priority, Queued, 0, maxRetries, now))
  }

  /** `addToQueue`: the new items join the old ones and the whole queue is
      sorted by priority. */
  function AddToQueue(queue: seq<QueueItem>, urls: seq<string>, ids: seq<string>, priority: Priority,
                      maxRetries: nat, now: int): (r: seq<QueueItem>)
    requires |ids| == |urls|
    ensures multiset(r) == multiset(NewItems(urls, ids, priority, maxRetries, now)) + multiset(queue)
    ensures ByPriority(r)
    ensures |r| == |queue| + |urls|
  {
    SortByPriority(NewItems(urls, ids, priority, maxRetries, now) + queue)
  }

  /** Every added item is in the queue, queued and not yet retried. */
  lemma AddToQueue_Added(queue: seq<QueueItem>, urls: seq<string>, ids: seq<string>, priority: Priority,
                         maxRetries: nat, now: int, i: int)
    requires |ids| == |urls| && 0 <= i < |urls|
    ensures var item := NewItems(urls, ids, priority, maxRetries, now)[i];
      item in AddToQueue(queue, urls, ids, priority, maxRetries, now) && item.status == Queued && item.retryCount == 0
  {
    var added := NewItems(urls, ids, priority, maxRetries, now);
    var r := AddToQueue(queue, urls, ids, priority, maxRetries, now);
    assert added[i] in multiset(added + queue);
    assert added[i] in multiset(r);
  }

  /** `updateQueuePriority(id, priority)`. */
  function UpdateQueuePriority(queue: seq<QueueItem>, id: string, priority: Priority): (r: seq<QueueItem>)
    ensures ByPriority(r)
    ensures multiset(r) == multiset(MapSeq((q: QueueItem) => if q.id == id then q.(priority := priority) else q, queue))
  {
    SortByPriority(MapSeq((q: QueueItem) => if q.id == id then q.(priority := priority) else q, queue))
  }

  /** Only the target item's priority changes: the other items are kept as
      they were and the target keeps everything but its priority. */
  lemma UpdateQueuePriority_Only(queue: seq<QueueItem>, id: string, priority: Priority, q: QueueItem)
    ensures q in queue && q.id != id ==> q in UpdateQueuePriority(queue, id, priority)
    ensures q in queue && q.id == id ==> q.(priority := priority) in UpdateQueuePriority(queue, id, priority)
    ensures |UpdateQueuePriority(queue, id, priority)| == |queue|
  {
    var f := (q: QueueItem) => if q.id == id then q.(priority := priority) else q;
    var mapped := MapSeq(f, queue);
    var r := UpdateQueuePriority(queue, id, priority);
    assert |multiset(r)| == |multiset(mapped)|;
    if q in queue {
      var i :| 0 <= i < |queue| && queue[i] == q;
      assert mapped[i] == f(q);
      assert f(q) in multiset(mapped);
      assert f(q) in multiset(r);
    }
  }

  /** `removeFromQueue(id)`. */
  function RemoveFromQueue(queue: seq<QueueItem>, id: string): (r: seq<QueueItem>)
    ensures forall q :: q in r <==> q in queue && q.id != id
  {
    var keep := (q: QueueItem) => q.id != id;
    assert forall q :: q in Filter(keep, queue) <==> q in queue && q.id != id by {
      forall q ensures q in Filter(keep, queue) <==> q in queue && q.id != id {
        Filter_Mem(keep, queue, q);
      }
    }
    Filter(keep, queue)
  }

  datatype QueueStats = QueueStats(total: nat, queued: nat, processing: nat, done: nat, failed: nat, highPriority: nat)

  function CountStatus(s: seq<QueueItem>, st: QueueStatus): nat {
    Count((q: QueueItem) => q.status == st, s)
  }

  function CountHighQueued(s: seq<QueueItem>): nat {
    Count((q: QueueItem) => q.priority == High && q.status == Queued, s)
  }

  /** The four status counts partition the queue. */
  lemma {:induction false} Statuses_Partition(s: seq<QueueItem>)
    ensures CountStatus(s, Queued) + CountStatus(s, Processing) + CountStatus(s, Done) + CountStatus(s, Failed) == |s|
    ensures CountHighQueued(s) <= CountStatus(s, Queued)
  {
    if s != [] {
      Statuses_Partition(s[1..]);
      assert s == [s[0]] + s[1..];
      Count_Append((q: QueueItem) => q.status == Queued, [s[0]], s[1..]);
      Count_Append((q: QueueItem) => q.status == Processing, [s[0]], s[1..]);
      Count_Append((q: QueueItem) => q.status == Done, [s[0]], s[1..]);
      Count_Append((q: QueueItem) => q.status == Failed, [s[0]], s[1..]);
      Count_Append((q: QueueItem) => q.priority == High && q.status == Queued, [s[0]], s[1..]);
    }
  }

  /** `getQueueStats()`. */
  function GetQueueStats(queue: seq<QueueItem>): (r: QueueStats)
    ensures r.queued + r.processing + r.done + r.failed == r.total == |queue|
    ensures r.highPriority <= r.queued
  {
    Statuses_Partition(queue);
    QueueStats(|queue|, CountStatus(queue, Queued), CountStatus(queue, Processing), CountStatus(queue, Done),
               CountStatus(queue, Failed), CountHighQueued(queue))
  }

  // -------------------------------------------------------- CSV job log

  datatype Job = Job(id: string, url: string, status: string, startedAt: Option<string>,
                     completedAt: Option<string>, error: Option<string>)

  const LogHeaders: seq<string> := ["ID", "URL", "狀態", "開始時間", "結束時間", "錯誤"]

  function JobRow(j: Job): (r: seq<string>)
    ensures |r| == |LogHeaders|
  {
    [j.id, j.url, j.status, j.startedAt.GetOr(""), j.completedAt.GetOr(""), j.error.GetOr("")]
  }

  /** `exportLogs('csv')`: the header line unquoted, then one quoted record
      per job. */
  function ExportLogsCsv(jobs: seq<Job>): (r: string)
  {
    Join([Join(LogHeaders, ",")] + Csv.EncodeRows(MapSeq(JobRow, jobs)), "\n")
  }

  /** After the header line, the job records read back exactly. */
  lemma ExportLogsCsv_Reads(jobs: seq<Job>)
    requires jobs != []
    ensures ExportLogsCsv(jobs) == Join(LogHeaders, ",") + "\n" + Csv.EncodeDoc(MapSeq(JobRow, jobs))
    ensures Csv.ReadDoc(Csv.EncodeDoc(MapSeq(JobRow, jobs))) == Some(MapSeq(JobRow, jobs))
  {
    var rows := MapSeq(JobRow, jobs);
    var enc := Csv.EncodeRows(rows);
    assert [Join(LogHeaders, ",")] + enc == [Join(LogHeaders, ",")] + enc;
    assert ([Join(LogHeaders, ",")] + enc)[1..] == enc;
    Csv.ReadDoc_EncodeDoc(rows);
  }

  // ------------------------------------------------------- notifications

  datatype Notification = Notification(id: string, kind: string, title: string, message: string,
                                       planId: Option<string>, read: bool, createdAt: int)

  const MaxNotifications := 50

  function Unread(ns: seq<Notification>): nat {
    Count((n: Notification) => !n.read, ns)
  }

  class NotificationCenter {
    var notifications: seq<Notification>
    var unreadCount: int

    constructor ()
      ensures notifications == [] && unreadCount == 0
    {
      notifications := [];
      unreadCount := 0;
    }

    /** `addNotification`: newest first, at most 50 kept, and the badge goes
        up by one. */
    method AddNotification(id: string, kind: string, title: string, message: string, planId: Option<string>, now: int)
      modifies this
      ensures notifications == Take([Notification(id, kind, title, message, planId, false, now)] + old(notifications), MaxNotifications)
      ensures unreadCount == old(unreadCount) + 1
      ensures |notifications| <= MaxNotifications
    {
      var n := Notification(id, kind, title, message, planId, false, now);
      notifications := Take([n] + notifications, MaxNotifications);
      unreadCount := unreadCount + 1;
    }

    /** `markNotificationRead(id)`: the badge is recounted. */
    method MarkRead(id: string)
      modifies this
      ensures notifications == MapSeq((n: Notification) => if n.id == id then n.(read := true) else n, old(notifications))
      ensures unreadCount == Unread(notifications)
    {
      notifications := MapSeq((n: Notification) => if n.id == id then n.(read := true) else n, notifications);
      unreadCount := Unread(notifications);
    }

    /** `markAllNotificationsRead()`. */
    method MarkAllRead()
      modifies this
      ensures notifications == MapSeq((n: Notification) => n.(read := true), old(notifications))
      ensures unreadCount == 0 == Unread(notifications)
    {
      notifications := MapSeq((n: Notification) => n.(read := true), notifications);
      AllRead_NoUnread(notifications);
      unreadCount := 0;
    }

    /** `clearAllNotifications()`. */
    method ClearAll()
      modifies this
      ensures notifications == [] && unreadCount == 0
    {
      notifications := [];
      unreadCount := 0;
    }
  }

  lemma {:induction false} AllRead_NoUnread(ns: seq<Notification>)
    requires forall i :: 0 <= i < |ns| ==> ns[i].read
    ensures Unread(ns) == 0
  {
    if ns != [] {
      AllRead_NoUnread(ns[1..]);
      assert ns == [ns[0]] + ns[1..];
      Count_Append((n: Notification) => !n.read, [ns[0]], ns[1..]);
    }
  }

  /** While fewer than 50 notifications are kept, adding one keeps the
      badge equal to the number of unread notifications. */
  lemma AddNotification_Badge(ns: seq<Notification>, n: Notification)
    requires |ns| < MaxNotifications && !n.read
    ensures Unread(Take([n] + ns, MaxNotifications)) == Unread(ns) + 1
  {
    assert Take([n] + ns, MaxNotifications) == [n] + ns;
    Count_Append((x: Notification) => !x.read, [n], ns);
  }

  // ------------------------------------------------------------- images

  const ImageSkipPatterns: seq<string> :=
    ["icon", "logo", "avatar", "emoji", "btn", "button", "arrow", "sprite", "1x1", "pixel", "tracking"]

  predicate Keepable(url: string) {
    forall k :: 0 <= k < |ImageSkipPatterns| ==> !Contains(Lower(url), ImageSkipPatterns[k])
  }

  /** `extractImagesFromContent`: the URLs the three patterns matched, in
      match order, deduplicated and without icons and the like. */
  function ExtractImagesFromContent(matches: seq<string>): (r: seq<string>)
    ensures NoDup(r)
    ensures forall u :: u in r <==> u in matches && Keepable(u)
  {
    var unique := Dedup(matches);
    Filter_NoDup(Keepable, unique);
    assert forall u :: u in Filter(Keepable, unique) <==> u in matches && Keepable(u) by {
      forall u ensures u in Filter(Keepable, unique) <==> u in matches && Keepable(u) {
        Filter_Mem(Keepable, unique, u);
      }
    }
    Filter(Keepable, unique)
  }

  /** The selected image indexes of a job (`prev[jobId] || new Set()`). */
  function Selected(sel: map<string, set<int>>, jobId: string): set<int> {
    if jobId in sel then sel[jobId] else {}
  }

  /** `toggleImageSelect(jobId, imgIndex)`. */
  function ToggleImageSelect(sel: map<string, set<int>>, jobId: string, idx: int): (r: map<string, set<int>>)
    ensures idx in Selected(r, jobId) <==> idx !in Selected(sel, jobId)
    ensures Selected(r, jobId) - {idx} == Selected(sel, jobId) - {idx}
    ensures forall j :: j != jobId ==> Selected(r, j) == Selected(sel, j)
  {
    var current := Selected(sel, jobId);
    sel[jobId := if idx in current then current - {idx} else current + {idx}]
  }

  /** Toggling the same image twice restores the selection. */
  lemma ToggleImageSelect_Involution(sel: map<string, set<int>>, jobId: string, idx: int, j: string)
    ensures Selected(ToggleImageSelect(ToggleImageSelect(sel, jobId, idx), jobId, idx), j) == Selected(sel, j)
  {
    var once := ToggleImageSelect(sel, jobId, idx);
    var twice := ToggleImageSelect(once, jobId, idx);
    if j == jobId {
      assert Selected(twice, j) - {idx} == Selected(sel, j) - {idx};
      assert idx in Selected(twice, j) <==> idx in Selected(sel, j);
    }
  }

  // --------------------------------------------------------------- cron

  const WeekDays: seq<string> := ["日", "一", "二", "三", "四", "五", "六"]

  function PadStart2(s: string): (r: string)
    ensures |r| >= 2 || |r| == |s| + 1 || |r| == |s| + 2
  {
    if |s| >= 2 then s else if |s| == 1 then "0" + s else "00"
  }

  /** The value of `c` as a digit of base `radix` (10 or 16), or -1 when it
      is not one. */
  function DigitValue(c: char, radix: int): (v: int)
    ensures -1 <= v < 16 && (radix != 16 ==> v < 10)
    ensures radix != 16 ==> (v >= 0 <==> '0' <= c <= '9')
  {
    if '0' <= c <= '9' then c as int - 48
    else if radix == 16 && 'a' <= c <= 'f' then c as int - 87
    else if radix == 16 && 'A' <= c <= 'F' then c as int - 55
    else -1
  }

  /** The length of the run of base-`radix` digits that starts `s`. */
  function DigitRun(s: string, radix: int): (n: nat)
    ensures n <= |s|
    ensures forall i :: 0 <= i < n ==> DigitValue(s[i], radix) >= 0
    ensures n < |s| ==> DigitValue(s[n], radix) < 0
  {
    if s != [] && DigitValue(s[0], radix) >= 0 then 1 + DigitRun(s[1..], radix) else 0
  }

  /** The number a run of digits spells, most significant first. */
  function RunValue(s: string, radix: int): int {
    if s == [] then 0 else radix * RunValue(s[..|s| - 1], radix) + DigitValue(s[|s| - 1], radix)
  }

  /** The unsigned part of `parseInt`: a `0x` or `0X` prefix selects base
      16, and the longest run of digits that follows is read, the rest of
      the text being ignored; `NaN` (None) when that run is empty. */
  function ParseUnsigned(u: string): (r: Option<nat>)
    ensures u == [] || !('0' <= u[0] <= '9') ==> r.None?
  {
    var hex := |u| >= 2 && u[0] == '0' && (u[1] == 'x' || u[1] == 'X');
    var radix := if hex then 16 else 10;
    var body := if hex then u[2..] else u;
    var n := DigitRun(body, radix);
    if n == 0 then None
    else
      RunValue_NonNeg(body[..n], radix);
      Some(RunValue(body[..n], radix))
  }

  /** A run of digits spells a non-negative number. */
  lemma {:induction false} RunValue_NonNeg(d: string, radix: int)
    requires radix == 10 || radix == 16
    requires forall i :: 0 <= i < |d| ==> DigitValue(d[i], radix) >= 0
    ensures RunValue(d, radix) >= 0
  {
    if d != [] {
      RunValue_NonNeg(d[..|d| - 1], radix);
    }
  }

  /** JavaScript's `parseInt(s)` with no radix: leading white space and one
      sign are skipped and the rest is read as `ParseUnsigned` says; `NaN`
      (None) when no digit follows. */
  function ParseInt(s: string): (r: Option<int>)
    ensures s != [] && !IsSpace(s[0]) && s[0] != '+' && s[0] != '-' && !('0' <= s[0] <= '9') ==> r.None?
  {
    var t := TrimStart(s);
    var signed := t != [] && (t[0] == '-' || t[0] == '+');
    var u := if signed then t[1..] else t;
    TrimStart_Unspaced(s);
    assert s != [] && !IsSpace(s[0]) ==> u == s || signed;
    match ParseUnsigned(u)
    case None => None
    case Some(n) => if signed && t[0] == '-' then Some(0 - n) else Some(n)
  }

  /** A text that does not open with white space is its own trim. */
  lemma TrimStart_Unspaced(s: string)
    ensures s != [] && !IsSpace(s[0]) ==> TrimStart(s) == s
  {
  }

  /** A decimal run read by `parseInt` is the number `ParseNat` reads. */
  lemma {:induction false} RunValue_Decimal(d: string)
    requires forall i :: 0 <= i < |d| ==> '0' <= d[i] <= '9'
    ensures RunValue(d, 10) == ParseNat(d)
  {
    if d != [] {
      RunValue_Decimal(d[..|d| - 1]);
    }
  }

  /** `parseInt` reads the leading decimal digits of a text and ignores
      what follows them (unless the text opens with `0x`). */
  lemma ParseInt_DecimalPrefix(d: string, rest: string)
    requires d != [] && forall i :: 0 <= i < |d| ==> '0' <= d[i] <= '9'
    requires rest == [] || !('0' <= rest[0] <= '9')
    requires !(d == "0" && rest != [] && (rest[0] == 'x' || rest[0] == 'X'))
    ensures ParseInt(d + rest) == Some(ParseNat(d))
  {
    var s := d + rest;
    assert s[0] == d[0];
    if |d| >= 2 {
      assert s[1] == d[1];
    } else if rest != [] {
      assert |d| == 1 && s[1] == rest[0];
      assert d[0] == '0' ==> d == ['0'];
    }
    assert !(|s| >= 2 && s[0] == '0' && (s[1] == 'x' || s[1] == 'X'));
    DecimalRun(d, rest);
    assert s[..|d|] == d;
    RunValue_Decimal(d);
    assert ParseUnsigned(s) == Some(ParseNat(d));
    ParseInt_Unsigned(s);
  }

  /** Text opening with neither white space nor a sign is read as an
      unsigned number. */
  lemma ParseInt_Unsigned(s: string)
    requires s != [] && !IsSpace(s[0]) && s[0] != '-' && s[0] != '+'
    ensures ParseUnsigned(s).Some? ==> ParseInt(s) == Some(ParseUnsigned(s).value)
  {
    TrimStart_Unspaced(s);
  }

  /** The decimal run at the start of `d + rest` is `d`. */
  lemma {:induction false} DecimalRun(d: string, rest: string)
    requires forall i :: 0 <= i < |d| ==> '0' <= d[i] <= '9'
    requires rest == [] || !('0' <= rest[0] <= '9')
    ensures DigitRun(d + rest, 10) == |d|
  {
    if d != [] {
      DecimalRun(d[1..], rest);
      assert (d + rest)[1..] == d[1..] + rest;
    } else {
      assert d + rest == rest;
    }
  }

  /** `days[parseInt(dayOfWeek)]`: a day name for 0 to 6, `undefined` for
      any other number and for `NaN`. */
  function DayName(dayOfWeek: string): string {
    match ParseInt(dayOfWeek)
    case Some(n) => if 0 <= n < 7 then WeekDays[n] else "undefined"
    case None => "undefined"
  }

  /** A day-of-week field that opens with a digit from 0 to 6 followed by
      anything but a digit, such as the range `1-5`, is named by that
      digit. */
  lemma DayName_Prefix(c: char, rest: string)
    requires '0' <= c <= '6'
    requires rest == [] || !('0' <= rest[0] <= '9')
    requires c == '0' ==> rest == [] || (rest[0] != 'x' && rest[0] != 'X')
    ensures DayName([c] + rest) == WeekDays[c as int - 48]
  {
    ParseInt_DecimalPrefix([c], rest);
    assert ParseNat([c]) == c as int - 48 by {
      assert [c][..0] == [];
    }
  }

  const InvalidCron := "無效格式"

  lemma Split_Many(s: string, sep: char)
    requires |Split(s, sep)| > 1
    ensures sep in s
  {}

  /** `parseCron(cron)`. */
  function ParseCron(cron: string): (r: string)
    ensures |Split(cron, ' ')| != 5 ==> r == InvalidCron
    ensures r == InvalidCron <==> |Split(cron, ' ')| != 5
    ensures |Split(cron, ' ')| == 5 && Split(cron, ' ')[0] == "0" && Split(cron, ' ')[1] == "*" ==> r == "每小時整點"
  {
    var parts := Split(cron, ' ');
    if |parts| != 5 then InvalidCron
    else
      var minute := parts[0];
      var hour := parts[1];
      var dayOfMonth := parts[2];
      var month := parts[3];
      var dayOfWeek := parts[4];
      Split_Many(cron, ' ');
      if minute == "0" && hour == "*" then "每小時整點"
      else if minute == "0" && StartsWith(hour, "*/") then "每 " + hour[2..] + " 小時"
      else if minute == "0" && dayOfMonth == "*" && month == "*" && dayOfWeek == "*" then "每天 " + hour + ":00"
      else if dayOfWeek != "*" then "每週" + DayName(dayOfWeek) + " " + hour + ":" + PadStart2(minute)
      else
        assert cron[0] != InvalidCron[0] || ' ' in cron;
        cron
  }

  /** A weekly schedule on the hour is shown under the day its day-of-week
      field opens with: `0 9 * * 1-5` reads as Monday at 9:00, the rest of
      a range being ignored. */
  lemma ParseCron_Weekdays(hour: string, c: char, rest: string)
    requires ' ' !in hour && hour != "*" && !StartsWith(hour, "*/")
    requires ' ' !in rest && '0' <= c <= '6'
    requires rest == [] || !('0' <= rest[0] <= '9')
    requires c == '0' ==> rest == [] || (rest[0] != 'x' && rest[0] != 'X')
    ensures ParseCron(Join(["0", hour, "*", "*", [c] + rest], " ")) == "每週" + WeekDays[c as int - 48] + " " + hour + ":00"
  {
    var dow := [c] + rest;
    var fields := ["0", hour, "*", "*", dow];
    assert ' ' !in dow;
    Split_JoinParts(fields, ' ');
    assert dow != "*" by {
      assert dow[0] == c;
    }
    WeeklyFields(Join(fields, " "), hour, dow);
    DayName_Prefix(c, rest);
    OnTheHour("每週" + WeekDays[c as int - 48] + " " + hour);
  }

  /** Five fields with minute 0, a plain hour, any day of the month and
      month, and a day of the week: the weekly text. */
  lemma WeeklyFields(cron: string, hour: string, dow: string)
    requires Split(cron, ' ') == ["0", hour, "*", "*", dow]
    requires hour != "*" && !StartsWith(hour, "*/") && dow != "*"
    ensures ParseCron(cron) == "每週" + DayName(dow) + " " + hour + ":" + PadStart2("0")
  {
    var parts := Split(cron, ' ');
    assert parts[0] == "0" && parts[1] == hour && parts[4] == dow;
  }

  /** `${…}:${'0'.padStart(2, '0')}` is the text followed by `:00`. */
  lemma OnTheHour(shown: string)
    ensures shown + ":" + PadStart2("0") == shown + ":00"
  {
    assert PadStart2("0") == "00";
  }

  // ---------------------------------------------------------- data diff

  /** The compared fields, in order. */
  const DiffFields: seq<string> := ["title", "priceOriginal", "priceDiscount", "description", "vendorName"]

  datatype Change = Change(field: string, before: Option<Json>, after: Option<Json>)

  function Field(data: map<string, Json>, f: string): Option<Json> {
    if f in data then Some(data[f]) else None
  }

  /** The changes among the first `n` compared fields. */
  function DiffUpTo(before: map<string, Json>, after: map<string, Json>, n: nat): (r: seq<Change>)
    requires n <= |DiffFields|
    ensures forall c :: c in r <==>
      (exists i :: 0 <= i < n && Field(before, DiffFields[i]) != Field(after, DiffFields[i])
                   && c == Change(DiffFields[i], Field(before, DiffFields[i]), Field(after, DiffFields[i])))
  {
    if n == 0 then []
    else
      var f := DiffFields[n - 1];
      var prev := DiffUpTo(before, after, n - 1);
      if Field(before, f) != Field(after, f) then prev + [Change(f, Field(before, f), Field(after, f))] else prev
  }

  /** `getDataDiff(oldData, newData)`. */
  method GetDataDiff(before: map<string, Json>, after: map<string, Json>) returns (diff: seq<Change>)
    ensures diff == DiffUpTo(before, after, |DiffFields|)
    ensures |diff| <= |DiffFields|
  {
    diff := [];
    for i := 0 to |DiffFields|
      invariant diff == DiffUpTo(before, after, i)
      invariant |diff| <= i
    {
      var f := DiffFields[i];
      if Field(before, f) != Field(after, f) {
        diff := diff + [Change(f, Field(before, f), Field(after, f))];
      }
    }
  }

  /** A field is reported exactly when it differs. */
  lemma GetDataDiff_Exact(before: map<string, Json>, after: map<string, Json>, k: int)
    requires 0 <= k < |DiffFields|
    ensures (exists c :: c in DiffUpTo(before, after, |DiffFields|) && c.field == DiffFields[k])
       <==> Field(before, DiffFields[k]) != Field(after, DiffFields[k])
  {
    var r := DiffUpTo(before, after, |DiffFields|);
    if Field(before, DiffFields[k]) != Field(after, DiffFields[k]) {
      assert Change(DiffFields[k], Field(before, DiffFields[k]), Field(after, DiffFields[k])) in r;
    }
  }

  // ---------------------------------------------------- bounded history

  datatype Snapshot = Snapshot(data: map<string, Json>, timestamp: int)

  /** `recordJobHistory`: the last nine earlier snapshots and the new one. */
  function RecordJobHistory(history: map<string, seq<Snapshot>>, jobId: string, data: map<string, Json>, now: int)
    : (r: map<string, seq<Snapshot>>)
    ensures jobId in r && 1 <= |r[jobId]| <= 10 && r[jobId][|r[jobId]| - 1] == Snapshot(data, now)
    ensures forall j :: j != jobId ==> (j in r <==> j in history) && (j in r ==> r[j] == history[j])
    ensures jobId in history && |history[jobId]| < 10 ==> r[jobId] == history[jobId] + [Snapshot(data, now)]
  {
    var prev := if jobId in history then history[jobId] else [];
    history[jobId := JsSlice(prev, -9, |prev|) + [Snapshot(data, now)]]
  }

  datatype PricePoint = PricePoint(id: string, planId: string, price: int, originalPrice: Option<int>, recordedAt: int, source: string)

  /** A plan's price history after a check: the newest 30 entries. */
  function AppendPrice(history: seq<PricePoint>, entry: PricePoint): (r: seq<PricePoint>)
    ensures |r| <= 30 && r != [] && r[|r| - 1] == entry
    ensures |history| < 30 ==> r == history + [entry]
  {
    JsSlice(history + [entry], -30, |history| + 1)
  }

  /** The change feed after a change: newest first, at most 100. */
  function PushChange<T>(changes: seq<T>, change: T): (r: seq<T>)
    ensures |r| <= 100 && r != [] && r[0] == change
    ensures |changes| < 100 ==> r == [change] + changes
  {
    Take([change] + changes, 100)
  }
}
