/** The analytics of `get_project_summary` and `get_dashboard_data`, computed
    over the project's record lists already fetched from the store: totals,
    per-phase figures, the cost breakdown by category, the daily and monthly
    trends, the status indicator and the most recent entries. */
module Summaries {
  import opened Wrappers
  import opened Text
  import opened Calendar
  import opened Sums
  import opened Grouping
  import opened Records

  function Amounts(es: seq<CostEntry>): (amounts: seq<real>) {
    seq(|es|, i requires 0 <= i < |es| => es[i].Amount())
  }

  function CategoryKeys(es: seq<CostEntry>): (keys: seq<string>) {
    seq(|es|, i requires 0 <= i < |es| => es[i].CategoryKey())
  }

  /** `str(entry_date)` of each entry: the daily trend's keys. */
  function DayKeys(es: seq<CostEntry>): (keys: seq<string>) {
    seq(|es|, i requires 0 <= i < |es| => IsoDate(es[i].entryDate))
  }

  function MonthKeys(es: seq<CostEntry>): (keys: seq<string>) {
    seq(|es|, i requires 0 <= i < |es| => MonthKey(es[i].entryDate))
  }

  function PhaseKeys(es: seq<CostEntry>): (keys: seq<Option<string>>) {
    seq(|es|, i requires 0 <= i < |es| => es[i].phaseId)
  }

  /** `sum(entry.get("total_amount", 0) for entry in cost_entries)` */
  function TotalSpent(es: seq<CostEntry>): (t: real)
    ensures (forall i :: 0 <= i < |es| ==> es[i].Amount() >= 0.0) ==> t >= 0.0
  {
    assert forall i :: 0 <= i < |es| ==> Amounts(es)[i] == es[i].Amount();
    Sum(Amounts(es))
  }

  /** The total over two lists of entries joined is the sum of their totals. */
  lemma TotalSpentAppend(a: seq<CostEntry>, b: seq<CostEntry>)
    ensures TotalSpent(a + b) == TotalSpent(a) + TotalSpent(b)
  {
    assert Amounts(a + b) == Amounts(a) + Amounts(b);
    SumAppend(Amounts(a), Amounts(b));
  }

  /** `(part / whole * 100) if whole > 0 else 0`: the share of `whole` that
      `part` is, in percent, and 0 for a budget that is not positive. */
  function Percent(part: real, whole: real): (u: real)
    ensures whole > 0.0 ==> u * whole == part * 100.0
    ensures whole <= 0.0 ==> u == 0.0
  {
    if whole > 0.0 then part / whole * 100.0 else 0.0
  }

  datatype StatusIndicator = OnTrack | Warning | OverBudget {
    function Label(): (text: string) {
      match this
      case OnTrack => "on_track"
      case Warning => "warning"
      case OverBudget => "over_budget"
    }

    function Rank(): (rank: nat) {
      match this
      case OnTrack => 0
      case Warning => 1
      case OverBudget => 2
    }
  }

  /** The status indicator for a budget utilisation in percent; both
      thresholds belong to the milder status. */
  function Classify(utilization: real): (s: StatusIndicator)
    ensures s == OnTrack <==> utilization <= 75.0
    ensures s == Warning <==> 75.0 < utilization <= 90.0
    ensures s == OverBudget <==> utilization > 90.0
  {
    if utilization <= 75.0 then OnTrack
    else if utilization <= 90.0 then Warning
    else OverBudget
  }

  /** More utilisation never gives a milder status. */
  lemma ClassifyMonotone(u: real, v: real)
    requires u <= v
    ensures Classify(u).Rank() <= Classify(v).Rank()
  {
  }

  /** The status in terms of what was spent against the budget: on track up to
      three quarters of a positive budget, a warning up to nine tenths, over
      budget beyond; always on track when the budget is not positive. */
  lemma StatusOfSpending(spent: real, budget: real)
    ensures budget <= 0.0 ==> Classify(Percent(spent, budget)) == OnTrack
    ensures budget > 0.0 ==>
      (Classify(Percent(spent, budget)) == OnTrack <==> 4.0 * spent <= 3.0 * budget)
    ensures budget > 0.0 ==>
      (Classify(Percent(spent, budget)) == OverBudget <==> 10.0 * spent > 9.0 * budget)
  {
    if budget > 0.0 {
      var u := Percent(spent, budget);
      ScaleBelow(u, 75.0, budget, spent * 100.0);
      ScaleBelow(u, 90.0, budget, spent * 100.0);
    }
  }

  /** Multiplying by a positive number keeps a comparison. */
  lemma ScaleBelow(u: real, c: real, b: real, p: real)
    requires b > 0.0 && u * b == p
    ensures u <= c <==> p <= c * b
  {
    if u <= c {
      assert (c - u) * b >= 0.0;
    } else {
      assert (u - c) * b > 0.0;
    }
  }

  /** One row of `phases_summary`. */
  datatype PhaseSummary = PhaseSummary(
    id: string,
    name: string,
    budgetAllocated: real,
    amountSpent: real,
    budgetRemaining: real,
    utilizationPercentage: real,
    status: PhaseStatus)

  /** What the entries booked against `phase` add up to. */
  function PhaseSpent(phase: Phase, es: seq<CostEntry>): (r: real)
    ensures Some(phase.id) !in PhaseKeys(es) ==> r == 0.0
    ensures r + SumOutside(PhaseKeys(es), Amounts(es), [Some(phase.id)]) == TotalSpent(es)
  {
    var keys, amounts, k := PhaseKeys(es), Amounts(es), Some(phase.id);
    assert k !in keys ==> SumWhere(keys, amounts, k) == 0.0 by {
      if k !in keys {
        SumWhereAbsent(keys, amounts, k);
      }
    }
    assert SumWhere(keys, amounts, k) + SumOutside(keys, amounts, [k]) == Sum(amounts) by {
      Partition(keys, amounts, [k]);
      assert [k][..0] == [];
    }
    SumWhere(keys, amounts, k)
  }

  /** The row for one phase: it spends exactly the entries whose phase id is
      the phase's, spent and remaining add up to the budget allocated, and
      utilisation is spent against a positive budget in percent, else 0. */
  function SummarizePhase(phase: Phase, es: seq<CostEntry>): (r: PhaseSummary)
    ensures r.id == phase.id && r.name == phase.name && r.status == phase.status
    ensures r.budgetAllocated == phase.Budget() && r.amountSpent == PhaseSpent(phase, es)
    ensures r.amountSpent + r.budgetRemaining == r.budgetAllocated
    ensures r.budgetAllocated > 0.0 ==> r.utilizationPercentage * r.budgetAllocated == r.amountSpent * 100.0
    ensures r.budgetAllocated <= 0.0 ==> r.utilizationPercentage == 0.0
  {
    var budget := phase.Budget();
    var spent := PhaseSpent(phase, es);
    PhaseSummary(phase.id, phase.name, budget, spent, budget - spent, Percent(spent, budget), phase.status)
  }

  /** The `phases_summary.append(...)` loop: one row per phase, in order. */
  method SummarizePhases(phases: seq<Phase>, es: seq<CostEntry>) returns (rows: seq<PhaseSummary>)
    ensures |rows| == |phases|
    ensures forall i :: 0 <= i < |phases| ==> rows[i] == SummarizePhase(phases[i], es)
  {
    rows := [];
    for i := 0 to |phases|
      invariant |rows| == i
      invariant forall j :: 0 <= j < i ==> rows[j] == SummarizePhase(phases[j], es)
    {
      rows := rows + [SummarizePhase(phases[i], es)];
    }
  }

  function PhaseIdKeys(phases: seq<Phase>): (keys: seq<Option<string>>) {
    seq(|phases|, i requires 0 <= i < |phases| => Some(phases[i].id))
  }

  /** What no listed phase accounts for: entries without a phase, or booked to
      a phase not in the list. */
  function Unassigned(phases: seq<Phase>, es: seq<CostEntry>): (r: real) {
    SumOutside(PhaseKeys(es), Amounts(es), PhaseIdKeys(phases))
  }

  function SpentAcross(rows: seq<PhaseSummary>): (r: real) {
    if rows == [] then 0.0 else SpentAcross(rows[..|rows| - 1]) + rows[|rows| - 1].amountSpent
  }

  lemma {:induction false} SpentAcrossIsGroupTotal(phases: seq<Phase>, es: seq<CostEntry>, rows: seq<PhaseSummary>)
    requires |rows| == |phases|
    requires forall i :: 0 <= i < |phases| ==> rows[i] == SummarizePhase(phases[i], es)
    ensures SpentAcross(rows) == GroupTotal(PhaseKeys(es), Amounts(es), PhaseIdKeys(phases))
  {
    if rows != [] {
      var n := |rows| - 1;
      assert PhaseIdKeys(phases[..n]) == PhaseIdKeys(phases)[..n];
      SpentAcrossIsGroupTotal(phases[..n], es, rows[..n]);
    }
  }

  /** Conservation across phases: when phase ids are distinct, the phases'
      spending plus what no phase accounts for is the project's total. */
  lemma PhaseSpendingConserved(phases: seq<Phase>, es: seq<CostEntry>, rows: seq<PhaseSummary>)
    requires Distinct(PhaseIdKeys(phases))
    requires |rows| == |phases|
    requires forall i :: 0 <= i < |phases| ==> rows[i] == SummarizePhase(phases[i], es)
    ensures SpentAcross(rows) + Unassigned(phases, es) == TotalSpent(es)
  {
    SpentAcrossIsGroupTotal(phases, es, rows);
    Partition(PhaseKeys(es), Amounts(es), PhaseIdKeys(phases));
  }

  /** The `ProjectSummary` response. */
  datatype Summary = Summary(
    project: Project,
    totalSpent: real,
    budgetRemaining: real,
    budgetUtilization: real,
    phasesSummary: seq<PhaseSummary>,
    costBreakdown: seq<Bucket>,
    trendData: seq<Bucket>,
    statusIndicator: StatusIndicator)

  /** `s` is the summary of `project` over its fetched entries and phases. */
  ghost predicate IsSummaryOf(s: Summary, project: Project, es: seq<CostEntry>, phases: seq<Phase>) {
    && s.project == project
    && s.totalSpent == TotalSpent(es)
    && s.budgetRemaining == project.totalBudget - s.totalSpent
    && s.budgetUtilization == Percent(s.totalSpent, project.totalBudget)
    && |s.phasesSummary| == |phases|
    && (forall i :: 0 <= i < |phases| ==> s.phasesSummary[i] == SummarizePhase(phases[i], es))
    && IsGroupingOf(s.costBreakdown, CategoryKeys(es), Amounts(es))
    && IsTrendOf(s.trendData, DayKeys(es), Amounts(es))
    && s.statusIndicator == Classify(s.budgetUtilization)
  }

  /** The body of `get_project_summary` once the project, its entries and its
      phases are fetched. */
  method Summarize(project: Project, es: seq<CostEntry>, phases: seq<Phase>) returns (s: Summary)
    ensures IsSummaryOf(s, project, es, phases)
  {
    var totalSpent := TotalSpent(es);
    var rows := SummarizePhases(phases, es);
    var breakdown := Accumulate(CategoryKeys(es), Amounts(es));
    var trend := Trend(DayKeys(es), Amounts(es));
    var utilization := Percent(totalSpent, project.totalBudget);
    s := Summary(project, totalSpent, project.totalBudget - totalSpent, utilization,
                 rows, breakdown, trend, Classify(utilization));
  }

  /** What a summary promises as a whole: the breakdown by category and the
      daily trend each add up to the total spent, budget remaining and total
      spent add up to the budget, and the daily trend has one point per day,
      in chronological order. */
  lemma SummaryConserves(s: Summary, project: Project, es: seq<CostEntry>, phases: seq<Phase>)
    requires IsSummaryOf(s, project, es, phases)
    ensures Total(s.costBreakdown) == s.totalSpent
    ensures Total(s.trendData) == s.totalSpent
    ensures s.budgetRemaining + s.totalSpent == project.totalBudget
    ensures Distinct(KeysOf(s.costBreakdown)) && Distinct(KeysOf(s.trendData))
  {
    GroupingConserves(s.costBreakdown, CategoryKeys(es), Amounts(es));
    GroupingConserves(s.trendData, DayKeys(es), Amounts(es));
  }

  /** The daily trend runs in date order: a point precedes another exactly
      when its day is earlier (for entries with valid dates). */
  lemma TrendIsChronological(t: seq<Bucket>, es: seq<CostEntry>, i: nat, j: nat, d: Date, e: Date)
    requires IsTrendOf(t, DayKeys(es), Amounts(es))
    requires i < |t| && j < |t| && Valid(d) && Valid(e)
    requires t[i].key == IsoDate(d) && t[j].key == IsoDate(e)
    ensures i < j <==> Before(d, e)
  {
    IsoDateOrder(d, e);
    IsoDateOrder(e, d);
    if i < j {
      assert LexLess(t[i].key, t[j].key);
    } else if j < i {
      assert LexLess(t[j].key, t[i].key);
      LexAsymmetric(t[j].key, t[i].key);
    } else {
      LexIrreflexive(t[i].key);
    }
  }

  /** Timestamps non-increasing along the list. */
  predicate NewestFirst(es: seq<CostEntry>) {
    forall i, j :: 0 <= i < j < |es| ==> es[i].createdAt >= es[j].createdAt
  }

  const RecentCount := 10

  /** The entries created at time `t`, in their order in `es`. */
  function WithTime(es: seq<CostEntry>, t: int): (r: seq<CostEntry>)
    ensures forall i :: 0 <= i < |r| ==> r[i].createdAt == t
    ensures |r| <= |es|
  {
    if es == [] then []
    else
      var init, last := es[..|es| - 1], es[|es| - 1];
      assert es == init + [last];
      var r := WithTime(init, t);
      if last.createdAt == t then r + [last] else r
  }

  lemma {:induction false} WithTimeAppend(a: seq<CostEntry>, b: seq<CostEntry>, t: int)
    ensures WithTime(a + b, t) == WithTime(a, t) + WithTime(b, t)
    decreases |b|
  {
    if b == [] {
      assert a + b == a;
    } else {
      var init := b[..|b| - 1];
      assert (a + b)[..|a + b| - 1] == a + init;
      assert (a + b)[|a + b| - 1] == b[|b| - 1];
      WithTimeAppend(a, init, t);
    }
  }

  /** No entry created at `t`, nothing selected. */
  lemma {:induction false} WithTimeNone(es: seq<CostEntry>, t: int)
    requires forall i :: 0 <= i < |es| ==> es[i].createdAt != t
    ensures WithTime(es, t) == []
  {
    if es != [] {
      WithTimeNone(es[..|es| - 1], t);
    }
  }

  /** Stability: for every creation time, the entries created then appear in
      `s` in the same order as in `es`. */
  ghost predicate KeepsTies(s: seq<CostEntry>, es: seq<CostEntry>) {
    forall t :: WithTime(s, t) == WithTime(es, t)
  }

  /** `sorted(entries, key=created_at, reverse=True)[:10]`: the newest ten
      entries (all, when fewer), newest first; every entry left out is no
      newer than any entry kept. */
  ghost predicate IsRecentOf(r: seq<CostEntry>, es: seq<CostEntry>) {
    && |r| == (if |es| < RecentCount then |es| else RecentCount)
    && NewestFirst(r)
    && multiset(r) <= multiset(es)
    && (forall e, i :: e in multiset(es) - multiset(r) && 0 <= i < |r| ==> e.createdAt <= r[i].createdAt)
    && (forall t :: WithTime(r, t) <= WithTime(es, t))
  }

  /** Where `x` goes in a newest-first list: after every entry at least as
      new, so that entries with equal timestamps keep their order. */
  method NewestFirstPoint(s: seq<CostEntry>, x: CostEntry) returns (k: nat)
    requires NewestFirst(s)
    ensures k <= |s|
    ensures forall m :: 0 <= m < k ==> s[m].createdAt >= x.createdAt
    ensures forall m :: k <= m < |s| ==> s[m].createdAt < x.createdAt
  {
    k := 0;
    while k < |s| && s[k].createdAt >= x.createdAt
      invariant 0 <= k <= |s|
      invariant forall m :: 0 <= m < k ==> s[m].createdAt >= x.createdAt
    {
      k := k + 1;
    }
  }

  lemma InsertNewestFirst(s: seq<CostEntry>, k: nat, x: CostEntry)
    requires NewestFirst(s) && k <= |s|
    requires forall m :: 0 <= m < k ==> s[m].createdAt >= x.createdAt
    requires forall m :: k <= m < |s| ==> s[m].createdAt < x.createdAt
    ensures NewestFirst(s[..k] + [x] + s[k..])
  {
    var s' := s[..k] + [x] + s[k..];
    assert forall p :: 0 <= p < |s'| ==> s'[p] == if p < k then s[p] else if p == k then x else s[p - 1];
  }

  /** Putting `x` in front of every strictly older entry adds it after the
      entries created at the same time. */
  lemma StableInsert(s: seq<CostEntry>, k: nat, x: CostEntry)
    requires k <= |s|
    requires forall m :: k <= m < |s| ==> s[m].createdAt < x.createdAt
    ensures forall t :: WithTime(s[..k] + [x] + s[k..], t) == WithTime(s, t) + WithTime([x], t)
  {
    forall t
      ensures WithTime(s[..k] + [x] + s[k..], t) == WithTime(s, t) + WithTime([x], t)
    {
      StableInsertAt(s, k, x, t);
    }
  }

  lemma StableInsertAt(s: seq<CostEntry>, k: nat, x: CostEntry, t: int)
    requires k <= |s|
    requires forall m :: k <= m < |s| ==> s[m].createdAt < x.createdAt
    ensures WithTime(s[..k] + [x] + s[k..], t) == WithTime(s, t) + WithTime([x], t)
  {
    WithTimeAppend(s[..k] + [x], s[k..], t);
    WithTimeAppend(s[..k], [x], t);
    assert s == s[..k] + s[k..];
    WithTimeAppend(s[..k], s[k..], t);
    if t == x.createdAt {
      WithTimeNone(s[k..], t);
    } else {
      assert WithTime([x], t) == WithTime([], t) by {
        assert [x][..0] == [];
      }
    }
  }

  /** Stable insertion sort, newest first: `sorted(..., reverse=True)`. */
  method SortNewestFirst(es: seq<CostEntry>) returns (s: seq<CostEntry>)
    ensures NewestFirst(s)
    ensures multiset(s) == multiset(es)
    ensures KeepsTies(s, es)
  {
    s := [];
    var i := 0;
    while i < |es|
      invariant 0 <= i <= |es|
      invariant NewestFirst(s)
      invariant multiset(s) == multiset(es[..i])
      invariant KeepsTies(s, es[..i])
    {
      var x := es[i];
      var k := NewestFirstPoint(s, x);
      InsertNewestFirst(s, k, x);
      StableInsert(s, k, x);
      assert s[..k] + s[k..] == s;
      assert es[..i + 1] == es[..i] + [x];
      forall t
        ensures WithTime(es[..i + 1], t) == WithTime(es[..i], t) + WithTime([x], t)
      {
        WithTimeAppend(es[..i], [x], t);
      }
      s := s[..k] + [x] + s[k..];
      i := i + 1;
    }
    assert es[..i] == es;
  }

  /** A prefix of a newest-first list holds entries at least as new as every
      entry after it. */
  lemma NewestPrefix(sorted: seq<CostEntry>, n: nat)
    requires NewestFirst(sorted) && n <= |sorted|
    ensures multiset(sorted) - multiset(sorted[..n]) == multiset(sorted[n..])
    ensures forall e, i :: e in multiset(sorted) - multiset(sorted[..n]) && 0 <= i < n ==> e.createdAt <= sorted[i].createdAt
  {
    assert sorted == sorted[..n] + sorted[n..];
    assert multiset(sorted) == multiset(sorted[..n]) + multiset(sorted[n..]);
    forall e, i | e in multiset(sorted[n..]) && 0 <= i < n
      ensures e.createdAt <= sorted[i].createdAt
    {
      var p :| 0 <= p < |sorted| - n && sorted[n..][p] == e;
      assert sorted[n + p] == e;
    }
  }

  /** Among entries created at the same time, a prefix of a stable sort
      keeps the ones stored first. */
  lemma TiesPrefix(sorted: seq<CostEntry>, n: nat, es: seq<CostEntry>)
    requires KeepsTies(sorted, es) && n <= |sorted|
    ensures forall t :: WithTime(sorted[..n], t) <= WithTime(es, t)
  {
    assert sorted == sorted[..n] + sorted[n..];
    forall t
      ensures WithTime(sorted[..n], t) <= WithTime(es, t)
    {
      WithTimeAppend(sorted[..n], sorted[n..], t);
    }
  }

  /** The first ten entries of a stable newest-first sort are the recent
      entries. */
  lemma RecentPrefix(sorted: seq<CostEntry>, n: nat, es: seq<CostEntry>)
    requires NewestFirst(sorted) && multiset(sorted) == multiset(es) && KeepsTies(sorted, es)
    requires n == if |sorted| < RecentCount then |sorted| else RecentCount
    ensures IsRecentOf(sorted[..n], es)
  {
    NewestPrefix(sorted, n);
    TiesPrefix(sorted, n, es);
    assert multiset(sorted[..n]) <= multiset(sorted) by {
      assert sorted == sorted[..n] + sorted[n..];
    }
  }

  /** The `recent_entries` loop of `get_dashboard_data`. */
  method RecentEntries(es: seq<CostEntry>) returns (r: seq<CostEntry>)
    ensures IsRecentOf(r, es)
  {
    var sorted := SortNewestFirst(es);
    var n := if |sorted| < RecentCount then |sorted| else RecentCount;
    RecentPrefix(sorted, n, es);
    r := sorted[..n];
  }

  /** The `get_dashboard_data` response. */
  datatype DashboardData = DashboardData(summary: Summary, monthlyTrend: seq<Bucket>, recentEntries: seq<CostEntry>)

  ghost predicate IsDashboardOf(d: DashboardData, project: Project, es: seq<CostEntry>, phases: seq<Phase>) {
    && IsSummaryOf(d.summary, project, es, phases)
    && IsTrendOf(d.monthlyTrend, MonthKeys(es), Amounts(es))
    && IsRecentOf(d.recentEntries, es)
  }

  /** The body of `get_dashboard_data` once the project's records are fetched. */
  method Dashboard(project: Project, es: seq<CostEntry>, phases: seq<Phase>) returns (d: DashboardData)
    ensures IsDashboardOf(d, project, es, phases)
  {
    var summary := Summarize(project, es, phases);
    var monthly := Trend(MonthKeys(es), Amounts(es));
    var recent := RecentEntries(es);
    d := DashboardData(summary, monthly, recent);
  }

  /** The monthly trend adds up to the summary's total and has one point per
      month key. */
  lemma MonthlyTrendConserves(d: DashboardData, project: Project, es: seq<CostEntry>, phases: seq<Phase>)
    requires IsDashboardOf(d, project, es, phases)
    ensures Total(d.monthlyTrend) == d.summary.totalSpent
    ensures Distinct(KeysOf(d.monthlyTrend))
  {
    GroupingConserves(d.monthlyTrend, MonthKeys(es), Amounts(es));
  }
}
