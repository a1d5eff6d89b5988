/**
 * The status pie chart on the dashboard: the status distribution becomes one
 * slice per status with a positive count, in the distribution's key order,
 * each with its fixed label and colour; a distribution whose counts add up to
 * zero shows the empty-state card instead of the chart.
 */
module CategoryPieChart {
  import AdminStats

  /** The keys of the distribution object, in its insertion order. */
  datatype StatusKey = PendingKey | ApprovedKey | RejectedKey | RevisionRequestedKey

  const KeyCount: nat := 4

  function KeyName(k: StatusKey): string {
    match k
    case PendingKey => "pending"
    case ApprovedKey => "approved"
    case RejectedKey => "rejected"
    case RevisionRequestedKey => "revision_requested"
  }

  function Label(k: StatusKey): string {
    match k
    case PendingKey => "Beklemede"
    case ApprovedKey => "Onaylanan"
    case RejectedKey => "Reddedilen"
    case RevisionRequestedKey => "Revizyon"
  }

  function Fill(k: StatusKey): string {
    match k
    case PendingKey => "hsl(45, 93%, 47%)"
    case ApprovedKey => "hsl(152, 69%, 50%)"
    case RejectedKey => "hsl(0, 84%, 60%)"
    case RevisionRequestedKey => "hsl(217, 91%, 60%)"
  }

  /** The position of a key in the distribution object. */
  function Rank(k: StatusKey): nat {
    match k
    case PendingKey => 0
    case ApprovedKey => 1
    case RejectedKey => 2
    case RevisionRequestedKey => 3
  }

  /** The key at position `r` of the distribution object. */
  function KeyAt(r: nat): (k: StatusKey)
    requires r < KeyCount
    ensures Rank(k) == r
  {
    if r == 0 then PendingKey else if r == 1 then ApprovedKey else if r == 2 then RejectedKey else RevisionRequestedKey
  }

  lemma KeyAtRank(k: StatusKey)
    ensures Rank(k) < KeyCount && KeyAt(Rank(k)) == k
  {
  }

  function Value(d: AdminStats.StatusStats, k: StatusKey): int {
    match k
    case PendingKey => d.pending
    case ApprovedKey => d.approved
    case RejectedKey => d.rejected
    case RevisionRequestedKey => d.revisionRequested
  }

  datatype Slice = Slice(key: StatusKey, name: string, value: int, labelText: string, fill: string)

  function SliceOf(k: StatusKey, v: int): Slice {
    Slice(k, KeyName(k), v, Label(k), Fill(k))
  }

  /** The `filter` on positive values, over the keys from position `r` on. */
  function PositiveKeysFrom(d: AdminStats.StatusStats, r: nat): seq<StatusKey>
    decreases KeyCount - r
  {
    if r >= KeyCount then []
    else (if Value(d, KeyAt(r)) > 0 then [KeyAt(r)] else []) + PositiveKeysFrom(d, r + 1)
  }

  /** `chartData`: the positive entries, in key order, each mapped to its slice. */
  function ChartData(d: AdminStats.StatusStats): seq<Slice> {
    var ks := PositiveKeysFrom(d, 0);
    seq(|ks|, i requires 0 <= i < |ks| => SliceOf(ks[i], Value(d, ks[i])))
  }

  /** The `reduce` over the distribution's values. */
  function Total(d: AdminStats.StatusStats): int {
    d.pending + d.approved + d.rejected + d.revisionRequested
  }

  datatype ChartView = EmptyState | PieView(slices: seq<Slice>)

  /** What the component renders. */
  function View(d: AdminStats.StatusStats): ChartView {
    if Total(d) == 0 then EmptyState else PieView(ChartData(d))
  }

  predicate NonNegative(d: AdminStats.StatusStats) {
    d.pending >= 0 && d.approved >= 0 && d.rejected >= 0 && d.revisionRequested >= 0
  }

  /** The filter keeps exactly the keys from position `r` on with a positive value. */
  lemma {:induction false} PositiveKeysMembers(d: AdminStats.StatusStats, r: nat)
    ensures forall k :: k in PositiveKeysFrom(d, r) <==> r <= Rank(k) && Value(d, k) > 0
    decreases KeyCount - r
  {
    if r < KeyCount {
      PositiveKeysMembers(d, r + 1);
      forall k
        ensures k in PositiveKeysFrom(d, r) <==> r <= Rank(k) && Value(d, k) > 0
      {
        KeyAtRank(k);
      }
    } else {
      forall k
        ensures Rank(k) < KeyCount
      {
        KeyAtRank(k);
      }
    }
  }

  /** Every key kept from position `r` on sits at position `r` or later. */
  lemma {:induction false} PositiveKeysAbove(d: AdminStats.StatusStats, r: nat)
    ensures forall i :: 0 <= i < |PositiveKeysFrom(d, r)| ==> r <= Rank(PositiveKeysFrom(d, r)[i])
    decreases KeyCount - r
  {
    if r < KeyCount {
      PositiveKeysAbove(d, r + 1);
    }
  }

  /** Keys in strictly increasing position. */
  predicate Ascending(ks: seq<StatusKey>) {
    forall i, j :: 0 <= i < j < |ks| ==> Rank(ks[i]) < Rank(ks[j])
  }

  /** A key placed before ascending keys that all sit later keeps them ascending. */
  lemma AscendingCons(k: StatusKey, rest: seq<StatusKey>)
    requires Ascending(rest)
    requires forall i :: 0 <= i < |rest| ==> Rank(k) < Rank(rest[i])
    ensures Ascending([k] + rest)
  {
    var ks := [k] + rest;
    forall i, j | 0 <= i < j < |ks|
      ensures Rank(ks[i]) < Rank(ks[j])
    {
      assert ks[j] == rest[j - 1];
      if i > 0 {
        assert ks[i] == rest[i - 1];
      }
    }
  }

  /** The filter keeps the keys in their order. */
  lemma {:induction false} PositiveKeysOrdered(d: AdminStats.StatusStats, r: nat)
    ensures Ascending(PositiveKeysFrom(d, r))
    decreases KeyCount - r
  {
    if r < KeyCount {
      var rest := PositiveKeysFrom(d, r + 1);
      PositiveKeysOrdered(d, r + 1);
      if Value(d, KeyAt(r)) > 0 {
        PositiveKeysAbove(d, r + 1);
        AscendingCons(KeyAt(r), rest);
        assert PositiveKeysFrom(d, r) == [KeyAt(r)] + rest;
      } else {
        assert PositiveKeysFrom(d, r) == rest;
      }
    }
  }

  /** No key is kept from position `r` on exactly when none of those keys has a positive value. */
  lemma {:induction false} PositiveKeysEmpty(d: AdminStats.StatusStats, r: nat)
    ensures PositiveKeysFrom(d, r) == [] <==> forall k :: r <= Rank(k) ==> Value(d, k) <= 0
    decreases KeyCount - r
  {
    PositiveKeysMembers(d, r);
    if PositiveKeysFrom(d, r) != [] {
      assert PositiveKeysFrom(d, r)[0] in PositiveKeysFrom(d, r);
    }
  }

  /** The chart shows exactly the statuses with a positive count. */
  lemma ChartDataExactlyPositive(d: AdminStats.StatusStats)
    ensures forall k :: SliceOf(k, Value(d, k)) in ChartData(d) <==> Value(d, k) > 0
  {
    var ks := PositiveKeysFrom(d, 0);
    var r := ChartData(d);
    PositiveKeysMembers(d, 0);
    forall k
      ensures SliceOf(k, Value(d, k)) in r <==> Value(d, k) > 0
    {
      if Value(d, k) > 0 {
        KeyAtRank(k);
        assert k in ks;
        var i :| 0 <= i < |ks| && ks[i] == k;
        assert r[i] == SliceOf(k, Value(d, k));
      }
      if SliceOf(k, Value(d, k)) in r {
        var i :| 0 <= i < |r| && r[i] == SliceOf(k, Value(d, k));
        assert r[i].key == ks[i];
        assert ks[i] in ks;
      }
    }
  }

  /** Each slice carries its key's name, positive count, label and colour. */
  lemma ChartDataSlicesMatchKeys(d: AdminStats.StatusStats)
    ensures forall s :: s in ChartData(d) ==> s == SliceOf(s.key, Value(d, s.key)) && s.value > 0
  {
    var ks := PositiveKeysFrom(d, 0);
    var r := ChartData(d);
    PositiveKeysMembers(d, 0);
    forall s | s in r
      ensures s == SliceOf(s.key, Value(d, s.key)) && s.value > 0
    {
      var i :| 0 <= i < |r| && r[i] == s;
      assert ks[i] in ks;
    }
  }

  /** The slices come in the order pending, approved, rejected, revision requested. */
  lemma ChartDataOrdered(d: AdminStats.StatusStats)
    ensures forall i, j :: 0 <= i < j < |ChartData(d)| ==> Rank(ChartData(d)[i].key) < Rank(ChartData(d)[j].key)
  {
    var ks := PositiveKeysFrom(d, 0);
    PositiveKeysOrdered(d, 0);
    assert forall i :: 0 <= i < |ks| ==> ChartData(d)[i].key == ks[i];
  }

  /** With counts that are never negative the empty state appears exactly when there are no slices. */
  lemma EmptyStateIffNoSlices(d: AdminStats.StatusStats)
    requires NonNegative(d)
    ensures View(d) == EmptyState <==> ChartData(d) == []
    ensures View(d).PieView? ==> |View(d).slices| > 0
  {
    PositiveKeysEmpty(d, 0);
    assert |ChartData(d)| == |PositiveKeysFrom(d, 0)|;
    if Total(d) != 0 {
      var k :| Value(d, k) > 0;
      assert !(forall k' :: 0 <= Rank(k') ==> Value(d, k') <= 0);
    }
  }

  /** Counts that cancel out show the empty state although a slice exists. */
  lemma CancellingCountsShowEmptyState()
    ensures var d := AdminStats.StatusStats(1, -1, 0, 0);
            View(d) == EmptyState && |ChartData(d)| == 1 && ChartData(d)[0].key == PendingKey
  {
    var d := AdminStats.StatusStats(1, -1, 0, 0);
    PositiveKeysEmpty(d, 1);
    assert PositiveKeysFrom(d, 0) == [PendingKey] + PositiveKeysFrom(d, 1);
  }

  /**
   * For the distribution the statistics hook computes: the counts are never
   * negative, the chart's total never exceeds the applications, and the empty
   * state appears exactly when no application has one of the four statuses.
   */
  lemma DistributionChart(apps: seq<AdminStats.Application>)
    ensures var d := AdminStats.Distribution(apps);
            NonNegative(d) && Total(d) <= |apps|
    ensures View(AdminStats.Distribution(apps)) == EmptyState <==>
              forall i :: 0 <= i < |apps| ==> !AdminStats.IsKnownStatus(apps[i].status)
  {
    AdminStats.DistributionBounded(apps);
    NoKnownStatusIffZero(apps);
  }

  lemma {:induction false} NoKnownStatusIffZero(apps: seq<AdminStats.Application>)
    ensures Total(AdminStats.Distribution(apps)) == 0 <==>
              forall i :: 0 <= i < |apps| ==> !AdminStats.IsKnownStatus(apps[i].status)
  {
    if |apps| > 0 {
      var init := apps[..|apps| - 1];
      NoKnownStatusIffZero(init);
      assert forall i :: 0 <= i < |init| ==> init[i] == apps[i];
    }
  }
}
