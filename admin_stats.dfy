/**
 * The dashboard statistics hook: the counting done over the rows of the
 * three queries (applications, form templates, update posts), the thirty-day
 * histogram of new applications, and the hook's state (the statistics shown,
 * the error message and the loading flag).
 *
 * Dates are day numbers (the calendar day of a timestamp); "today" is an input.
 */
module AdminStats {
  import opened Wrappers

  datatype Application = Application(status: string, createdDay: int)

  datatype FormTemplate = FormTemplate(isActive: bool)

  datatype UpdatePost = UpdatePost(isPublished: bool)

  /** One query's reply: an error, and the rows (`null` rows count as none). */
  datatype QueryResult<T> = QueryResult(error: Option<string>, data: Option<seq<T>>)

  datatype StatusStats = StatusStats(pending: int, approved: int, rejected: int, revisionRequested: int)

  datatype DailyStats = DailyStats(day: int, count: int)

  datatype Stats = Stats(
    totalApplications: int,
    pendingApplications: int,
    approvedApplications: int,
    rejectedApplications: int,
    activeForms: int,
    totalForms: int,
    publishedUpdates: int,
    draftUpdates: int,
    dailyApplications: seq<DailyStats>,
    statusDistribution: StatusStats)

  const ZeroStatus: StatusStats := StatusStats(0, 0, 0, 0)
  const InitialStats: Stats := Stats(0, 0, 0, 0, 0, 0, 0, 0, [], ZeroStatus)

  const Pending: string := "pending"
  const Approved: string := "approved"
  const Rejected: string := "rejected"
  const RevisionRequested: string := "revision_requested"

  const StatsError: string := "\U{0130}statistikler y\U{00FC}klenirken hata olu\U{015F}tu"

  /** The histogram covers today and the 29 days before it. */
  const WindowDays: nat := 30

  function Rows<T>(r: QueryResult<T>): seq<T> {
    r.data.GetOr([])
  }

  // ---------------------------------------------------------------------
  // Status distribution

  /** The number of applications with the given status. */
  function CountStatus(apps: seq<Application>, status: string): nat {
    if |apps| == 0 then 0
    else CountStatus(apps[..|apps| - 1], status) + (if apps[|apps| - 1].status == status then 1 else 0)
  }

  function Distribution(apps: seq<Application>): StatusStats {
    StatusStats(CountStatus(apps, Pending), CountStatus(apps, Approved),
                CountStatus(apps, Rejected), CountStatus(apps, RevisionRequested))
  }

  predicate IsKnownStatus(s: string) {
    s == Pending || s == Approved || s == Rejected || s == RevisionRequested
  }

  /** One `forEach` step: a known status bumps its own counter, anything else is ignored. */
  function Bump(d: StatusStats, status: string): StatusStats {
    if status == Pending then d.(pending := d.pending + 1)
    else if status == Approved then d.(approved := d.approved + 1)
    else if status == Rejected then d.(rejected := d.rejected + 1)
    else if status == RevisionRequested then d.(revisionRequested := d.revisionRequested + 1)
    else d
  }

  /** The `forEach` that fills `statusDistribution`. */
  method CountStatuses(apps: seq<Application>) returns (d: StatusStats)
    ensures d == Distribution(apps)
  {
    d := ZeroStatus;
    var i := 0;
    while i < |apps|
      invariant 0 <= i <= |apps|
      invariant d == Distribution(apps[..i])
    {
      assert apps[..i + 1][..i] == apps[..i];
      d := Bump(d, apps[i].status);
      i := i + 1;
    }
    assert apps[..|apps|] == apps;
  }

  /** The four counters never count an application twice; with only known statuses they count all of them. */
  lemma {:induction false} DistributionBounded(apps: seq<Application>)
    ensures var d := Distribution(apps);
            d.pending + d.approved + d.rejected + d.revisionRequested <= |apps|
    ensures (forall i :: 0 <= i < |apps| ==> IsKnownStatus(apps[i].status)) ==>
              var d := Distribution(apps);
              d.pending + d.approved + d.rejected + d.revisionRequested == |apps|
  {
    if |apps| > 0 {
      DistributionBounded(apps[..|apps| - 1]);
    }
  }

  // ---------------------------------------------------------------------
  // Daily histogram

  function CountOnDay(apps: seq<Application>, day: int): nat {
    if |apps| == 0 then 0
    else CountOnDay(apps[..|apps| - 1], day) + (if apps[|apps| - 1].createdDay == day then 1 else 0)
  }

  /** The applications created on one of the `n` days starting at `first`. */
  function CountInDays(apps: seq<Application>, first: int, n: nat): nat {
    if |apps| == 0 then 0
    else CountInDays(apps[..|apps| - 1], first, n)
         + (if first <= apps[|apps| - 1].createdDay < first + n then 1 else 0)
  }

  /** The per-day counts of the `n` days starting at `first`, added up. */
  function DaySum(apps: seq<Application>, first: int, n: nat): nat {
    if n == 0 then 0 else DaySum(apps, first, n - 1) + CountOnDay(apps, first + n - 1)
  }

  function SumCounts(daily: seq<DailyStats>): int {
    if |daily| == 0 then 0 else SumCounts(daily[..|daily| - 1]) + daily[|daily| - 1].count
  }

  /** The first day of the window that ends today. */
  function WindowStart(today: int): int {
    today - (WindowDays - 1)
  }

  /** Bucket `k` of the sorted histogram: day `WindowStart(today) + k` and its count. */
  predicate IsHistogram(daily: seq<DailyStats>, apps: seq<Application>, today: int) {
    && |daily| == WindowDays
    && forall k :: 0 <= k < |daily| ==>
         daily[k] == DailyStats(WindowStart(today) + k, CountOnDay(apps, WindowStart(today) + k))
  }

  /**
   * The `dailyMap` loops and the sort: thirty zero buckets ending today, one
   * increment per application whose day has a bucket, and the buckets listed
   * by ascending date.
   */
  method DailyHistogram(apps: seq<Application>, today: int) returns (daily: seq<DailyStats>)
    ensures IsHistogram(daily, apps, today)
    ensures forall i, j :: 0 <= i < j < |daily| ==> daily[i].day < daily[j].day
  {
    var dailyMap: map<int, int> := map[];
    for i := 0 to WindowDays
      invariant forall day :: day in dailyMap <==> today - i < day <= today
      invariant forall day :: day in dailyMap ==> dailyMap[day] == 0
    {
      dailyMap := dailyMap[today - i := 0];
    }
    for j := 0 to |apps|
      invariant forall day :: day in dailyMap <==> WindowStart(today) <= day <= today
      invariant forall day :: day in dailyMap ==> dailyMap[day] == CountOnDay(apps[..j], day)
    {
      assert apps[..j + 1][..j] == apps[..j];
      var day := apps[j].createdDay;
      if day in dailyMap {
        dailyMap := dailyMap[day := dailyMap[day] + 1];
      }
    }
    assert apps[..|apps|] == apps;
    daily := [];
    for k := 0 to WindowDays
      invariant |daily| == k
      invariant forall m :: 0 <= m < k ==>
                  daily[m] == DailyStats(WindowStart(today) + m, CountOnDay(apps, WindowStart(today) + m))
    {
      var day := WindowStart(today) + k;
      daily := daily + [DailyStats(day, dailyMap[day])];
    }
  }

  lemma {:induction false} DaySumIsCountInDays(apps: seq<Application>, first: int, n: nat)
    ensures DaySum(apps, first, n) == CountInDays(apps, first, n)
  {
    if |apps| > 0 {
      var init := apps[..|apps| - 1];
      DaySumIsCountInDays(init, first, n);
      DaySumStep(apps, first, n);
    } else if n > 0 {
      DaySumIsCountInDays(apps, first, n - 1);
    }
  }

  /** Adding the last application to every day's count adds it once to the window's total. */
  lemma {:induction false} DaySumStep(apps: seq<Application>, first: int, n: nat)
    requires |apps| > 0
    ensures DaySum(apps, first, n) ==
              DaySum(apps[..|apps| - 1], first, n) + (if first <= apps[|apps| - 1].createdDay < first + n then 1 else 0)
  {
    if n > 0 {
      DaySumStep(apps, first, n - 1);
    }
  }

  lemma {:induction false} CountInDaysBounded(apps: seq<Application>, first: int, n: nat)
    ensures CountInDays(apps, first, n) <= |apps|
  {
    if |apps| > 0 {
      CountInDaysBounded(apps[..|apps| - 1], first, n);
    }
  }

  lemma {:induction false} HistogramPrefixSum(daily: seq<DailyStats>, apps: seq<Application>, today: int, n: nat)
    requires IsHistogram(daily, apps, today)
    requires n <= |daily|
    ensures SumCounts(daily[..n]) == DaySum(apps, WindowStart(today), n)
  {
    if n > 0 {
      assert daily[..n][..n - 1] == daily[..n - 1];
      HistogramPrefixSum(daily, apps, today, n - 1);
    }
  }

  /** The buckets add up to the applications created in the window, never more than all applications. */
  lemma HistogramTotal(daily: seq<DailyStats>, apps: seq<Application>, today: int)
    requires IsHistogram(daily, apps, today)
    ensures SumCounts(daily) == CountInDays(apps, WindowStart(today), WindowDays)
    ensures SumCounts(daily) <= |apps|
  {
    HistogramPrefixSum(daily, apps, today, |daily|);
    assert daily[..|daily|] == daily;
    DaySumIsCountInDays(apps, WindowStart(today), WindowDays);
    CountInDaysBounded(apps, WindowStart(today), WindowDays);
  }

  /** An application dated outside the window is in no bucket. */
  lemma OutsideWindowNotCounted(daily: seq<DailyStats>, apps: seq<Application>, today: int, day: int)
    requires IsHistogram(daily, apps, today)
    requires day < WindowStart(today) || day > today
    ensures forall k :: 0 <= k < |daily| ==> daily[k].day != day
  {
  }

  // ---------------------------------------------------------------------
  // Forms and update posts

  function CountActive(forms: seq<FormTemplate>): nat {
    if |forms| == 0 then 0 else (if forms[0].isActive then 1 else 0) + CountActive(forms[1..])
  }

  function CountPublished(posts: seq<UpdatePost>): nat {
    if |posts| == 0 then 0 else (if posts[0].isPublished then 1 else 0) + CountPublished(posts[1..])
  }

  function CountDrafts(posts: seq<UpdatePost>): nat {
    if |posts| == 0 then 0 else (if posts[0].isPublished then 0 else 1) + CountDrafts(posts[1..])
  }

  lemma {:induction false} PublishedAndDraftsPartition(posts: seq<UpdatePost>)
    ensures CountPublished(posts) + CountDrafts(posts) == |posts|
  {
    if |posts| > 0 {
      PublishedAndDraftsPartition(posts[1..]);
    }
  }

  lemma {:induction false} ActiveFormsBounded(forms: seq<FormTemplate>)
    ensures CountActive(forms) <= |forms|
  {
    if |forms| > 0 {
      ActiveFormsBounded(forms[1..]);
    }
  }

  // ---------------------------------------------------------------------
  // The statistics and the hook

  /** `s` is what `setStats` receives for these rows. */
  predicate Summarizes(s: Stats, apps: seq<Application>, forms: seq<FormTemplate>, posts: seq<UpdatePost>, today: int) {
    && s.statusDistribution == Distribution(apps)
    && s.totalApplications == |apps|
    && s.pendingApplications == s.statusDistribution.pending
    && s.approvedApplications == s.statusDistribution.approved
    && s.rejectedApplications == s.statusDistribution.rejected
    && s.activeForms == CountActive(forms)
    && s.totalForms == |forms|
    && s.publishedUpdates == CountPublished(posts)
    && s.draftUpdates == CountDrafts(posts)
    && IsHistogram(s.dailyApplications, apps, today)
  }

  /** What the dashboard can rely on about any statistics computed from rows. */
  lemma SummaryProperties(s: Stats, apps: seq<Application>, forms: seq<FormTemplate>, posts: seq<UpdatePost>, today: int)
    requires Summarizes(s, apps, forms, posts, today)
    ensures var d := s.statusDistribution;
            d.pending + d.approved + d.rejected + d.revisionRequested <= s.totalApplications
    ensures s.publishedUpdates + s.draftUpdates == |posts|
    ensures s.activeForms <= s.totalForms
    ensures SumCounts(s.dailyApplications) <= s.totalApplications
    ensures forall i, j :: 0 <= i < j < |s.dailyApplications| ==> s.dailyApplications[i].day < s.dailyApplications[j].day
  {
    DistributionBounded(apps);
    PublishedAndDraftsPartition(posts);
    ActiveFormsBounded(forms);
    HistogramTotal(s.dailyApplications, apps, today);
  }

  predicate AnyFailed(a: QueryResult<Application>, f: QueryResult<FormTemplate>, u: QueryResult<UpdatePost>) {
    a.error.Some? || f.error.Some? || u.error.Some?
  }

  class AdminStatsHook {
    var stats: Stats
    var isLoading: bool
    var error: Option<string>

    constructor ()
      ensures stats == InitialStats && isLoading && error.None?
    {
      stats, isLoading, error := InitialStats, true, None;
    }

    /**
     * `fetchStats` once the three queries have answered: any query error
     * sets the fixed message and keeps the previous statistics; otherwise the
     * statistics summarise the rows and the error is cleared. Loading ends
     * either way.
     */
    method FetchStats(applicationsRes: QueryResult<Application>, formsRes: QueryResult<FormTemplate>,
                      updatesRes: QueryResult<UpdatePost>, today: int)
      modifies this
      ensures !isLoading
      ensures AnyFailed(applicationsRes, formsRes, updatesRes) ==> error == Some(StatsError) && stats == old(stats)
      ensures !AnyFailed(applicationsRes, formsRes, updatesRes) ==>
                error.None? && Summarizes(stats, Rows(applicationsRes), Rows(formsRes), Rows(updatesRes), today)
    {
      isLoading := true;
      error := None;
      if AnyFailed(applicationsRes, formsRes, updatesRes) {
        error := Some(StatsError);
        isLoading := false;
        return;
      }
      var applications := Rows(applicationsRes);
      var forms := Rows(formsRes);
      var updates := Rows(updatesRes);
      var statusDistribution := CountStatuses(applications);
      var dailyApplications := DailyHistogram(applications, today);
      stats := Stats(
        |applications|,
        statusDistribution.pending,
        statusDistribution.approved,
        statusDistribution.rejected,
        CountActive(forms),
        |forms|,
        CountPublished(updates),
        CountDrafts(updates),
        dailyApplications,
        statusDistribution);
      isLoading := false;
    }
  }
}
