// The performance dashboard: the agent and time-range filter, the date
// buckets of the charts, and how the server's counts are added into them.
module Dashboard {
  import opened Wrappers

  const ALL_AGENTS := "all"
  const DEFAULT_RANGE := "week"
  /** The date of the server's all-time entries. */
  const ALL_DATE := "ALL"

  // ---------------------------------------------------------------------
  // The filter.

  /**
   * The agent the filter starts with: every agent for a manager, the user's
   * own id otherwise; a missing id leaves it empty (JavaScript `|| ""`).
   */
  function InitialAgent(isManager: bool, userId: Option<string>): (r: string)
    ensures isManager ==> r == ALL_AGENTS
    ensures !isManager ==> r == userId.GetOr("")
    ensures r == "" <==> !isManager && (userId.None? || userId.value == "")
  {
    if isManager then ALL_AGENTS else userId.GetOr("")
  }

  /** The dashboard's filter. */
  class DashboardFilter {
    var agent: string
    var timeRange: string

    constructor (isManager: bool, userId: Option<string>)
      ensures agent == InitialAgent(isManager, userId) && timeRange == DEFAULT_RANGE
    {
      agent := InitialAgent(isManager, userId);
      timeRange := DEFAULT_RANGE;
    }

    /**
     * The user effect sets the same agent again and keeps the range. Its
     * `undefined` for a missing id is falsy like the empty string, so the
     * query treats the two alike.
     */
    method UserLoaded(isManager: bool, userId: Option<string>)
      modifies this`agent
      ensures agent == InitialAgent(isManager, userId)
    {
      agent := if isManager then ALL_AGENTS else userId.GetOr("");
    }

    /** Confirming the filter form replaces both fields. */
    method HandleConfirmFilter(newAgent: string, newRange: string)
      modifies this
      ensures agent == newAgent && timeRange == newRange
    {
      agent, timeRange := newAgent, newRange;
    }

    /** The dashboard query runs only with an agent and a range. */
    predicate QueryEnabled()
      reads this
    {
      agent != "" && timeRange != ""
    }
  }

  // ---------------------------------------------------------------------
  // Date keys.

  /** Ranges of a quarter or a year are bucketed by month, the others by day. */
  predicate UseMonthKey(range: string) {
    range == "year" || range == "quarter"
  }

  /** `s.slice(0, 7)`: the `YYYY-MM` part of an ISO date. */
  function MonthOf(s: string): (r: string)
    ensures |r| <= 7 && r <= s
    ensures |s| >= 7 ==> |r| == 7
    ensures |s| <= 7 ==> r == s
  {
    if |s| <= 7 then s else s[..7]
  }

  /**
   * `getDateKey`: the bucket of a server date. `"ALL"` stands for today,
   * `today` being the ISO date (`YYYY-MM-DD`) of the clock's now.
   */
  function DateKey(date: string, range: string, today: string): (r: string)
    ensures UseMonthKey(range) ==> |r| <= 7 && r <= (if date == ALL_DATE then today else date)
    ensures !UseMonthKey(range) && date != ALL_DATE ==> r == date
    ensures !UseMonthKey(range) && date == ALL_DATE ==> r == today
  {
    var day := if date == ALL_DATE then today else date;
    if UseMonthKey(range) then MonthOf(day) else day
  }

  /** Keying a key again gives the same key. */
  lemma DateKeyIdempotent(date: string, range: string, today: string)
    requires DateKey(date, range, today) != ALL_DATE
    ensures DateKey(DateKey(date, range, today), range, today) == DateKey(date, range, today)
  {
  }

  /** Two days of one month share the month's bucket. */
  lemma SameMonthSameBucket(d1: string, d2: string, range: string, today: string)
    requires UseMonthKey(range) && d1 != ALL_DATE && d2 != ALL_DATE
    requires |d1| >= 7 && |d2| >= 7 && d1[..7] == d2[..7]
    ensures DateKey(d1, range, today) == DateKey(d2, range, today)
  {
  }

  /** By day, different dates keep different buckets. */
  lemma DaysKeptApart(d1: string, d2: string, range: string, today: string)
    requires !UseMonthKey(range) && d1 != ALL_DATE && d2 != ALL_DATE && d1 != d2
    ensures DateKey(d1, range, today) != DateKey(d2, range, today)
  {
  }

  // ---------------------------------------------------------------------
  // Buckets and the server's entries.

  /** One bucket's figures. */
  datatype Bucket = Bucket(workingHours: real, casesCount: nat, closedCases: nat, pendingCases: nat, completionRate: real)
  {
    function CountOf(kind: CountKind): nat {
      match kind
      case Pending => pendingCases
      case Closed => closedCases
      case All => casesCount
    }
  }

  const EMPTY_BUCKET := Bucket(0.0, 0, 0, 0, 0.0)

  type Buckets = map<string, Bucket>

  /** The three counts of a daily entry. */
  datatype CountKind = Pending | Closed | All

  /** An entry of `activeWorkTimes`; its value already parsed. */
  datatype WorkTime = WorkTime(date: string, value: real)
  /** An entry of `daily`; a missing count is `None`. */
  datatype DailyCount = DailyCount(date: string, pending: Option<nat>, closed: Option<nat>, all: Option<nat>)
  {
    /** The count added to its bucket, `item.x || 0`. */
    function Count(kind: CountKind): nat {
      match kind
      case Pending => pending.GetOr(0)
      case Closed => closed.GetOr(0)
      case All => all.GetOr(0)
    }
  }
  /** An entry of `total`. */
  datatype TotalCount = TotalCount(date: string, closed: Option<nat>, all: nat)
  /** The server's dashboard payload; a missing list is empty. */
  datatype DashboardData = DashboardData(activeWorkTimes: seq<WorkTime>, daily: seq<DailyCount>, total: seq<TotalCount>)

  /** The buckets before any entry is added: one empty bucket per key. */
  function InitialBuckets(keys: seq<string>): (r: Buckets)
    ensures r.Keys == set k | k in keys
    ensures forall k :: k in r ==> r[k] == EMPTY_BUCKET
  {
    map k | k in keys :: EMPTY_BUCKET
  }

  /** The resolution rate of a total: closed over all, 0 when there are none. */
  function Rate(t: TotalCount): (r: real)
    ensures r >= 0.0
    ensures t.all == 0 ==> r == 0.0
    ensures t.closed.GetOr(0) <= t.all ==> r <= 1.0
    ensures t.all != 0 ==> r * (t.all as real) == t.closed.GetOr(0) as real
  {
    if t.all != 0 then t.closed.GetOr(0) as real / t.all as real else 0.0
  }

  // One entry added to the buckets: `None` when its key has no bucket, where
  // `groupedData[dateKey]` is undefined and the update throws.

  function HoursAdded(g: Buckets, item: WorkTime, range: string, today: string): (r: Option<Buckets>)
    ensures item.date == ALL_DATE ==> r == Some(g)
    ensures r.None? <==> item.date != ALL_DATE && DateKey(item.date, range, today) !in g
  {
    if item.date == ALL_DATE then Some(g)
    else
      var key := DateKey(item.date, range, today);
      if key !in g then None
      else Some(g[key := g[key].(workingHours := g[key].workingHours + item.value)])
  }

  function CountsAdded(g: Buckets, item: DailyCount, range: string, today: string): (r: Option<Buckets>)
    ensures r.None? <==> DateKey(item.date, range, today) !in g
  {
    var key := DateKey(item.date, range, today);
    if key !in g then None
    else
      var b := g[key];
      Some(g[key := b.(pendingCases := b.pendingCases + item.Count(Pending),
                       closedCases := b.closedCases + item.Count(Closed),
                       casesCount := b.casesCount + item.Count(All))])
  }

  function RateSet(g: Buckets, item: TotalCount, range: string, today: string): (r: Option<Buckets>)
    ensures r.None? <==> DateKey(item.date, range, today) !in g
  {
    var key := DateKey(item.date, range, today);
    if key !in g then None
    else Some(g[key := g[key].(completionRate := Rate(item))])
  }

  // The three `forEach` passes, entry by entry in order.

  function AddWorkTimes(g: Buckets, items: seq<WorkTime>, range: string, today: string): Option<Buckets>
  {
    if items == [] then Some(g)
    else match AddWorkTimes(g, items[..|items| - 1], range, today)
      case None => None
      case Some(g') => HoursAdded(g', items[|items| - 1], range, today)
  }

  function AddDailyCounts(g: Buckets, items: seq<DailyCount>, range: string, today: string): Option<Buckets>
  {
    if items == [] then Some(g)
    else match AddDailyCounts(g, items[..|items| - 1], range, today)
      case None => None
      case Some(g') => CountsAdded(g', items[|items| - 1], range, today)
  }

  function ApplyTotals(g: Buckets, items: seq<TotalCount>, range: string, today: string): Option<Buckets>
  {
    if items == [] then Some(g)
    else match ApplyTotals(g, items[..|items| - 1], range, today)
      case None => None
      case Some(g') => RateSet(g', items[|items| - 1], range, today)
  }

  // What each bucket should hold, stated entry list by entry list.

  /** The hours of the entries in bucket `key`; all-time entries count nowhere. */
  function HoursFor(items: seq<WorkTime>, key: string, range: string, today: string): real
  {
    if items == [] then 0.0
    else
      var last := items[|items| - 1];
      HoursFor(items[..|items| - 1], key, range, today) +
        (if last.date != ALL_DATE && DateKey(last.date, range, today) == key then last.value else 0.0)
  }

  /** The sum of one count over the daily entries of bucket `key`. */
  function CountFor(items: seq<DailyCount>, kind: CountKind, key: string, range: string, today: string): nat
  {
    if items == [] then 0
    else
      var last := items[|items| - 1];
      CountFor(items[..|items| - 1], kind, key, range, today) +
        (if DateKey(last.date, range, today) == key then last.Count(kind) else 0)
  }

  /** The rate of the last total of bucket `key`, if there is one. */
  function LastRateFor(items: seq<TotalCount>, key: string, range: string, today: string): Option<real>
  {
    if items == [] then None
    else
      var last := items[|items| - 1];
      if DateKey(last.date, range, today) == key then Some(Rate(last))
      else LastRateFor(items[..|items| - 1], key, range, today)
  }

  /** Every work time that is not all-time has a bucket. */
  predicate WorkTimesKeyed(g: Buckets, items: seq<WorkTime>, range: string, today: string) {
    forall i :: 0 <= i < |items| && items[i].date != ALL_DATE ==> DateKey(items[i].date, range, today) in g
  }

  predicate DailyKeyed(g: Buckets, items: seq<DailyCount>, range: string, today: string) {
    forall i :: 0 <= i < |items| ==> DateKey(items[i].date, range, today) in g
  }

  predicate TotalsKeyed(g: Buckets, items: seq<TotalCount>, range: string, today: string) {
    forall i :: 0 <= i < |items| ==> DateKey(items[i].date, range, today) in g
  }

  /**
   * The hours pass succeeds iff every dated entry has a bucket; each bucket
   * then gains the hours of its entries and nothing else changes.
   */
  lemma {:induction false} WorkTimesAreSums(g: Buckets, items: seq<WorkTime>, range: string, today: string)
    ensures AddWorkTimes(g, items, range, today).Some? <==> WorkTimesKeyed(g, items, range, today)
    ensures AddWorkTimes(g, items, range, today).Some? ==>
              var r := AddWorkTimes(g, items, range, today).value;
              r.Keys == g.Keys &&
              forall k :: k in g ==>
                r[k] == g[k].(workingHours := g[k].workingHours + HoursFor(items, k, range, today))
    decreases |items|
  {
    if items != [] {
      var init := items[..|items| - 1];
      var last := items[|items| - 1];
      WorkTimesAreSums(g, init, range, today);
      assert WorkTimesKeyed(g, items, range, today) <==>
        WorkTimesKeyed(g, init, range, today) &&
        (last.date != ALL_DATE ==> DateKey(last.date, range, today) in g) by {
        assert forall i :: 0 <= i < |init| ==> init[i] == items[i];
      }
    }
  }

  /**
   * The daily pass succeeds iff every entry has a bucket; each bucket then
   * gains the pending, closed and all counts of its entries (missing ones
   * as 0) and nothing else changes.
   */
  lemma {:induction false} DailyBucketsAreSums(g: Buckets, items: seq<DailyCount>, range: string, today: string)
    ensures AddDailyCounts(g, items, range, today).Some? <==> DailyKeyed(g, items, range, today)
    ensures AddDailyCounts(g, items, range, today).Some? ==>
              var r := AddDailyCounts(g, items, range, today).value;
              r.Keys == g.Keys &&
              forall k :: k in g ==>
                r[k].workingHours == g[k].workingHours && r[k].completionRate == g[k].completionRate &&
                forall kind: CountKind :: r[k].CountOf(kind) == g[k].CountOf(kind) + CountFor(items, kind, k, range, today)
    decreases |items|
  {
    if items != [] {
      var init := items[..|items| - 1];
      var last := items[|items| - 1];
      DailyBucketsAreSums(g, init, range, today);
      assert DailyKeyed(g, items, range, today) <==>
        DailyKeyed(g, init, range, today) && DateKey(last.date, range, today) in g by {
        assert forall i :: 0 <= i < |init| ==> init[i] == items[i];
      }
      var prev := AddDailyCounts(g, init, range, today);
      if prev.Some? && DateKey(last.date, range, today) in prev.value {
        CountsAddedBuckets(prev.value, last, range, today);
      }
    }
  }

  /** One daily entry adds its three counts to its own bucket and changes nothing else. */
  lemma CountsAddedBuckets(g: Buckets, item: DailyCount, range: string, today: string)
    requires DateKey(item.date, range, today) in g
    ensures var r := CountsAdded(g, item, range, today).value;
            r.Keys == g.Keys &&
            forall k :: k in g ==>
              r[k].workingHours == g[k].workingHours && r[k].completionRate == g[k].completionRate &&
              forall kind: CountKind :: r[k].CountOf(kind) ==
                g[k].CountOf(kind) + (if DateKey(item.date, range, today) == k then item.Count(kind) else 0)
  {
  }

  /**
   * The totals pass succeeds iff every entry has a bucket; a bucket's rate
   * is then that of its last total (an earlier one is overwritten), and a
   * bucket with no total keeps its rate.
   */
  lemma {:induction false} LastTotalWins(g: Buckets, items: seq<TotalCount>, range: string, today: string)
    ensures ApplyTotals(g, items, range, today).Some? <==> TotalsKeyed(g, items, range, today)
    ensures ApplyTotals(g, items, range, today).Some? ==>
              var r := ApplyTotals(g, items, range, today).value;
              r.Keys == g.Keys &&
              forall k :: k in g ==>
                r[k] == g[k].(completionRate := LastRateFor(items, k, range, today).GetOr(g[k].completionRate))
    decreases |items|
  {
    if items != [] {
      var init := items[..|items| - 1];
      LastTotalWins(g, init, range, today);
      assert TotalsKeyed(g, items, range, today) <==>
        TotalsKeyed(g, init, range, today) && DateKey(items[|items| - 1].date, range, today) in g by {
        assert forall i :: 0 <= i < |init| ==> init[i] == items[i];
      }
    }
  }

  /** An all-time work entry changes no bucket. */
  lemma AllTimeEntrySkipped(g: Buckets, items: seq<WorkTime>, value: real, range: string, today: string)
    ensures AddWorkTimes(g, items + [WorkTime(ALL_DATE, value)], range, today) == AddWorkTimes(g, items, range, today)
  {
    assert (items + [WorkTime(ALL_DATE, value)])[..|items|] == items;
  }

  // ---------------------------------------------------------------------
  // The labels: `Object.keys(groupedData).sort()`.

  /** The default sort's order: code unit by code unit, a proper prefix first. */
  predicate Below(a: string, b: string)
    decreases |a|
  {
    if a == [] then b != []
    else if b == [] then false
    else if a[0] != b[0] then a[0] < b[0]
    else Below(a[1..], b[1..])
  }

  lemma {:induction false} BelowIrreflexive(a: string)
    ensures !Below(a, a)
    decreases |a|
  {
    if a != [] {
      BelowIrreflexive(a[1..]);
    }
  }

  lemma {:induction false} BelowTransitive(a: string, b: string, c: string)
    requires Below(a, b) && Below(b, c)
    ensures Below(a, c)
    decreases |a|
  {
    if a != [] && b != [] && c != [] && a[0] == b[0] && b[0] == c[0] {
      BelowTransitive(a[1..], b[1..], c[1..]);
    }
  }

  lemma {:induction false} BelowTotal(a: string, b: string)
    requires a != b
    ensures Below(a, b) || Below(b, a)
    decreases |a|
  {
    if a != [] && b != [] && a[0] == b[0] {
      assert a == [a[0]] + a[1..] && b == [b[0]] + b[1..];
      BelowTotal(a[1..], b[1..]);
    }
  }

  /** Ascending with no repeats. */
  predicate StrictlySorted(s: seq<string>) {
    forall i, j :: 0 <= i < j < |s| ==> Below(s[i], s[j])
  }

  /** Puts a key into its place in a sorted list, unless it is there already. */
  function InsertKey(x: string, s: seq<string>): (r: seq<string>)
    requires StrictlySorted(s)
    ensures StrictlySorted(r)
    ensures forall y :: y in r <==> y == x || y in s
  {
    if s == [] then [x]
    else if x == s[0] then s
    else if Below(x, s[0]) then
      assert forall j :: 0 < j < |s| ==> Below(x, s[j]) by {
        forall j | 0 < j < |s| { BelowTransitive(x, s[0], s[j]); }
      }
      [x] + s
    else
      BelowTotal(x, s[0]);
      var rest := InsertKey(x, s[1..]);
      assert forall y :: y in rest ==> Below(s[0], y);
      [s[0]] + rest
  }

  /** The keys once each, in ascending order. */
  function SortKeys(keys: seq<string>): (r: seq<string>)
    ensures StrictlySorted(r)
    ensures forall y :: y in r <==> y in keys
  {
    if keys == [] then []
    else InsertKey(keys[|keys| - 1], SortKeys(keys[..|keys| - 1]))
  }

  /**
   * There is one ascending list of a set of keys: the labels do not depend
   * on the order in which the buckets were made.
   */
  lemma {:induction false} SortedListUnique(a: seq<string>, b: seq<string>)
    requires StrictlySorted(a) && StrictlySorted(b)
    requires forall y :: y in a <==> y in b
    ensures a == b
    decreases |a|
  {
    assert |a| > 0 ==> a[0] in b;
    assert |b| > 0 ==> b[0] in a;
    if a != [] {
      if a[0] != b[0] {
        var i :| 0 <= i < |a| && a[i] == b[0];
        var j :| 0 <= j < |b| && b[j] == a[0];
        assert Below(a[0], b[0]) && Below(b[0], a[0]);
        BelowTransitive(a[0], b[0], a[0]);
        BelowIrreflexive(a[0]);
        assert false;
      } else {
        forall y
          ensures y in a[1..] <==> y in b[1..]
        {
          if y in a[1..] {
            var i :| 1 <= i < |a| && a[i] == y;
            assert Below(a[0], y);
            BelowIrreflexive(y);
            assert y in b;
            var j :| 0 <= j < |b| && b[j] == y;
            assert j != 0;
            assert y == b[1..][j - 1];
          }
          if y in b[1..] {
            var j :| 1 <= j < |b| && b[j] == y;
            assert Below(b[0], y);
            BelowIrreflexive(y);
            assert y in a;
            var i :| 0 <= i < |a| && a[i] == y;
            assert i != 0;
            assert y == a[1..][i - 1];
          }
        }
        SortedListUnique(a[1..], b[1..]);
      }
    }
  }

  /** Keys made in any order, and any number of times, give the same labels. */
  lemma LabelsIgnoreKeyOrder(keys1: seq<string>, keys2: seq<string>)
    requires forall y :: y in keys1 <==> y in keys2
    ensures SortKeys(keys1) == SortKeys(keys2)
  {
    SortedListUnique(SortKeys(keys1), SortKeys(keys2));
  }

  // ---------------------------------------------------------------------
  // The charts.

  /**
   * The four series beside their labels: the hours (kept under the
   * source's `completionRate` key), the closed and pending counts, and the
   * resolution rate (kept under its `statusTouches` key).
   */
  datatype Metrics = Metrics(labels: seq<string>, workingHours: seq<real>, closedCases: seq<nat>,
                             pendingCases: seq<nat>, resolutionRate: seq<real>)

  /** Every label has its figure at the same index of every series. */
  predicate Aligned(m: Metrics, g: Buckets) {
    |m.workingHours| == |m.labels| && |m.closedCases| == |m.labels| &&
    |m.pendingCases| == |m.labels| && |m.resolutionRate| == |m.labels| &&
    forall i :: 0 <= i < |m.labels| ==>
      m.labels[i] in g &&
      m.workingHours[i] == g[m.labels[i]].workingHours &&
      m.closedCases[i] == g[m.labels[i]].closedCases &&
      m.pendingCases[i] == g[m.labels[i]].pendingCases &&
      m.resolutionRate[i] == g[m.labels[i]].completionRate
  }

  /** The labels and the series read off the finished buckets. */
  function Charts(g: Buckets, labels: seq<string>): (r: Metrics)
    requires forall l :: l in labels ==> l in g
    ensures r.labels == labels && Aligned(r, g)
  {
    Metrics(labels,
            seq(|labels|, i requires 0 <= i < |labels| => g[labels[i]].workingHours),
            seq(|labels|, i requires 0 <= i < |labels| => g[labels[i]].closedCases),
            seq(|labels|, i requires 0 <= i < |labels| => g[labels[i]].pendingCases),
            seq(|labels|, i requires 0 <= i < |labels| => g[labels[i]].completionRate))
  }

  /**
   * `calculateMetrics` on the buckets `keys` that the clock's range yields:
   * hours, then daily counts, then totals; `None` where a pass throws.
   */
  function MetricsOf(keys: seq<string>, data: DashboardData, range: string, today: string): Option<Metrics>
  {
    var g0 := InitialBuckets(keys);
    match AddWorkTimes(g0, data.activeWorkTimes, range, today)
    case None => None
    case Some(g1) =>
      match AddDailyCounts(g1, data.daily, range, today)
      case None => None
      case Some(g2) =>
        match ApplyTotals(g2, data.total, range, today)
        case None => None
        case Some(g3) =>
          WorkTimesAreSums(g0, data.activeWorkTimes, range, today);
          DailyBucketsAreSums(g1, data.daily, range, today);
          LastTotalWins(g2, data.total, range, today);
          Some(Charts(g3, SortKeys(keys)))
  }

  /** Every entry the passes look up has a bucket. */
  predicate AllKeyed(keys: seq<string>, data: DashboardData, range: string, today: string) {
    var g := InitialBuckets(keys);
    WorkTimesKeyed(g, data.activeWorkTimes, range, today) &&
    DailyKeyed(g, data.daily, range, today) &&
    TotalsKeyed(g, data.total, range, today)
  }

  /**
   * The charts exist iff every entry has a bucket. Their labels are then the
   * bucket keys in ascending order, and at each label the series hold the
   * hours of its dated entries, the sums of its closed and pending counts
   * and the rate of its last total, or 0.
   */
  lemma MetricsMeaning(keys: seq<string>, data: DashboardData, range: string, today: string)
    ensures MetricsOf(keys, data, range, today).Some? <==> AllKeyed(keys, data, range, today)
    ensures MetricsOf(keys, data, range, today).Some? ==>
              var m := MetricsOf(keys, data, range, today).value;
              StrictlySorted(m.labels) && (forall y :: y in m.labels <==> y in keys) &&
              |m.workingHours| == |m.labels| && |m.closedCases| == |m.labels| &&
              |m.pendingCases| == |m.labels| && |m.resolutionRate| == |m.labels| &&
              forall i :: 0 <= i < |m.labels| ==>
                m.workingHours[i] == HoursFor(data.activeWorkTimes, m.labels[i], range, today) &&
                m.closedCases[i] == CountFor(data.daily, Closed, m.labels[i], range, today) &&
                m.pendingCases[i] == CountFor(data.daily, Pending, m.labels[i], range, today) &&
                m.resolutionRate[i] == LastRateFor(data.total, m.labels[i], range, today).GetOr(0.0)
  {
    var g0 := InitialBuckets(keys);
    WorkTimesAreSums(g0, data.activeWorkTimes, range, today);
    var r1 := AddWorkTimes(g0, data.activeWorkTimes, range, today);
    if r1.Some? {
      var g1 := r1.value;
      DailyBucketsAreSums(g1, data.daily, range, today);
      assert DailyKeyed(g1, data.daily, range, today) == DailyKeyed(g0, data.daily, range, today);
      var r2 := AddDailyCounts(g1, data.daily, range, today);
      if r2.Some? {
        var g2 := r2.value;
        LastTotalWins(g2, data.total, range, today);
        assert TotalsKeyed(g2, data.total, range, today) == TotalsKeyed(g0, data.total, range, today);
        var r3 := ApplyTotals(g2, data.total, range, today);
        if r3.Some? {
          var g3 := r3.value;
          var m := MetricsOf(keys, data, range, today).value;
          forall i | 0 <= i < |m.labels|
            ensures m.closedCases[i] == CountFor(data.daily, Closed, m.labels[i], range, today)
            ensures m.pendingCases[i] == CountFor(data.daily, Pending, m.labels[i], range, today)
          {
            var k := m.labels[i];
            assert g2[k].CountOf(Closed) == g1[k].CountOf(Closed) + CountFor(data.daily, Closed, k, range, today);
            assert g2[k].CountOf(Pending) == g1[k].CountOf(Pending) + CountFor(data.daily, Pending, k, range, today);
          }
        }
      }
    }
  }

  /** Once a prefix of the entries fails, the whole list fails. */
  lemma {:induction false} WorkTimesStopFor(g: Buckets, items: seq<WorkTime>, n: nat, range: string, today: string)
    requires n <= |items| && AddWorkTimes(g, items[..n], range, today).None?
    ensures AddWorkTimes(g, items, range, today).None?
    decreases |items| - n
  {
    if n == |items| {
      assert items[..n] == items;
    } else {
      var init := items[..|items| - 1];
      assert init[..n] == items[..n];
      WorkTimesStopFor(g, init, n, range, today);
    }
  }

  /** Once a prefix of the entries fails, the whole list fails. */
  lemma {:induction false} DailyCountsStopFor(g: Buckets, items: seq<DailyCount>, n: nat, range: string, today: string)
    requires n <= |items| && AddDailyCounts(g, items[..n], range, today).None?
    ensures AddDailyCounts(g, items, range, today).None?
    decreases |items| - n
  {
    if n == |items| {
      assert items[..n] == items;
    } else {
      var init := items[..|items| - 1];
      assert init[..n] == items[..n];
      DailyCountsStopFor(g, init, n, range, today);
    }
  }

  /** Once a prefix of the entries fails, the whole list fails. */
  lemma {:induction false} TotalsStopFor(g: Buckets, items: seq<TotalCount>, n: nat, range: string, today: string)
    requires n <= |items| && ApplyTotals(g, items[..n], range, today).None?
    ensures ApplyTotals(g, items, range, today).None?
    decreases |items| - n
  {
    if n == |items| {
      assert items[..n] == items;
    } else {
      var init := items[..|items| - 1];
      assert init[..n] == items[..n];
      TotalsStopFor(g, init, n, range, today);
    }
  }

  /** The hours pass: a loop over the work times. */
  method AddWorkTimesLoop(g0: Buckets, items: seq<WorkTime>, range: string, today: string)
    returns (result: Option<Buckets>)
    ensures result == AddWorkTimes(g0, items, range, today)
  {
    var g := g0;
    var i := 0;
    while i < |items|
      invariant i <= |items|
      invariant AddWorkTimes(g0, items[..i], range, today) == Some(g)
    {
      assert items[..i + 1][..i] == items[..i];
      var next := HoursAdded(g, items[i], range, today);
      if next.None? {
        WorkTimesStopFor(g0, items, i + 1, range, today);
        return None;
      }
      g, i := next.value, i + 1;
    }
    assert items[..i] == items;
    result := Some(g);
  }

  /** The daily pass: a loop over the daily counts. */
  method AddDailyCountsLoop(g0: Buckets, items: seq<DailyCount>, range: string, today: string)
    returns (result: Option<Buckets>)
    ensures result == AddDailyCounts(g0, items, range, today)
  {
    var g := g0;
    var i := 0;
    while i < |items|
      invariant i <= |items|
      invariant AddDailyCounts(g0, items[..i], range, today) == Some(g)
    {
      assert items[..i + 1][..i] == items[..i];
      var next := CountsAdded(g, items[i], range, today);
      if next.None? {
        DailyCountsStopFor(g0, items, i + 1, range, today);
        return None;
      }
      g, i := next.value, i + 1;
    }
    assert items[..i] == items;
    result := Some(g);
  }

  /** The totals pass: a loop over the totals. */
  method ApplyTotalsLoop(g0: Buckets, items: seq<TotalCount>, range: string, today: string)
    returns (result: Option<Buckets>)
    ensures result == ApplyTotals(g0, items, range, today)
  {
    var g := g0;
    var i := 0;
    while i < |items|
      invariant i <= |items|
      invariant ApplyTotals(g0, items[..i], range, today) == Some(g)
    {
      assert items[..i + 1][..i] == items[..i];
      var next := RateSet(g, items[i], range, today);
      if next.None? {
        TotalsStopFor(g0, items, i + 1, range, today);
        return None;
      }
      g, i := next.value, i + 1;
    }
    assert items[..i] == items;
    result := Some(g);
  }

  /**
   * `calculateMetrics`: the three `forEach` passes in order, each stopping
   * the whole at an entry without a bucket, then the sorted labels and the
   * series.
   */
  method CalculateMetrics(keys: seq<string>, data: DashboardData, range: string, today: string)
    returns (result: Option<Metrics>)
    ensures result == MetricsOf(keys, data, range, today)
  {
    var g0 := InitialBuckets(keys);
    var r1 := AddWorkTimesLoop(g0, data.activeWorkTimes, range, today);
    if r1.None? {
      return None;
    }
    var r2 := AddDailyCountsLoop(r1.value, data.daily, range, today);
    if r2.None? {
      return None;
    }
    var r3 := ApplyTotalsLoop(r2.value, data.total, range, today);
    if r3.None? {
      return None;
    }
    WorkTimesAreSums(g0, data.activeWorkTimes, range, today);
    DailyBucketsAreSums(r1.value, data.daily, range, today);
    LastTotalWins(r2.value, data.total, range, today);
    result := Some(Charts(r3.value, SortKeys(keys)));
  }
}
