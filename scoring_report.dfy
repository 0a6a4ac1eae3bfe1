/** `scoringMetrics`, second half: the report assembled from the tallies of the
    current and the previous scoring period. `calculateMeanMedian` is the
    parameter `stats`, whose `mean` is the value `parseFloat` reads back from the
    two-decimal text. */
module ScoringReport {
  import opened Wrappers
  import opened Text
  import opened Fields
  import opened Records
  import opened Seqs
  import opened Dicts
  import opened Scoring

  /** What `calculateMeanMedian` gives for a list of scores. */
  datatype MeanMedian = MeanMedian(mean: real, median: real)

  const BucketLabels: seq<string> := ["Negativo (< 0)", "0 a 24", "25 a 49", "50 a 74", "75 a 99", "100 ou mais"]

  // ------------------------------------------------------------------
  // Keys of two periods
  // ------------------------------------------------------------------

  /** `s` lists no key twice. */
  ghost predicate Distinct(s: seq<string>)
  {
    forall i, j :: 0 <= i < j < |s| ==> s[i] != s[j]
  }

  /** `Array.from(new Set(s))`: the keys of `s` at their first occurrence. */
  function Dedup(s: seq<string>): (r: seq<string>)
    ensures forall k :: k in r <==> k in s
    ensures Distinct(r)
  {
    if s == [] then []
    else
      var r := Dedup(s[..|s| - 1]);
      assert forall k :: k in s <==> k in s[..|s| - 1] || k == s[|s| - 1];
      if s[|s| - 1] in r then r else r + [s[|s| - 1]]
  }

  /** `new Set([...Object.keys(curr), ...Object.keys(prev)])`. */
  function KeysOfBoth<V>(c: Dict<V>, p: Dict<V>): (ks: seq<string>)
    requires Valid(c) && Valid(p)
    ensures forall k :: k in ks <==> k in c.vals || k in p.vals
    ensures Distinct(ks)
  {
    Dedup(c.keys + p.keys)
  }

  // ------------------------------------------------------------------
  // Plan rows
  // ------------------------------------------------------------------

  datatype PlanScoreRow = PlanScoreRow(plan: string, vol: nat, meanCurr: real, meanPrev: real, avgDays: Option<real>)

  function PlanMeanCurr(r: PlanScoreRow): real { r.meanCurr }

  /** The row of `plan`: volume and mean of the current period (0 when the plan has
      no lead there), mean of the previous one, and the average days to a sale,
      `null` when no lead of the plan has a later sale. */
  function PlanRowOf(c: Dict<PlanData>, p: Dict<PlanData>, stats: seq<real> -> MeanMedian, plan: string): PlanScoreRow
  {
    var avgDays := if plan in c.vals && c.vals[plan].countDays > 0
                   then Some(c.vals[plan].daysSum as real / c.vals[plan].countDays as real) else None;
    PlanScoreRow(plan,
                 if plan in c.vals then c.vals[plan].vol else 0,
                 if plan in c.vals then stats(c.vals[plan].scores).mean else 0.0,
                 if plan in p.vals then stats(p.vals[plan].scores).mean else 0.0,
                 avgDays)
  }

  /** Plans whose lowercased name holds `gratuito`, `trial` or `engehall_curso`. */
  predicate Excluded(plan: string)
  {
    var n := ToLower(plan);
    Contains(n, "gratuito") || Contains(n, "trial") || Contains(n, "engehall_curso")
  }

  /** The filter of `planRows`. */
  predicate KeepPlan(r: PlanScoreRow)
  {
    !Excluded(r.plan) && (r.vol > 0 || r.meanPrev > 0.0)
  }

  /** One row per plan of either period. */
  function PlanRowsAll(c: Dict<PlanData>, p: Dict<PlanData>, stats: seq<real> -> MeanMedian): (rs: seq<PlanScoreRow>)
    requires Valid(c) && Valid(p)
  {
    var ks := KeysOfBoth(c, p);
    seq(|ks|, i requires 0 <= i < |ks| => PlanRowOf(c, p, stats, ks[i]))
  }

  /** `planRows`: the kept rows, highest current mean first. */
  function PlanRows(c: Dict<PlanData>, p: Dict<PlanData>, stats: seq<real> -> MeanMedian): (rs: seq<PlanScoreRow>)
    requires Valid(c) && Valid(p)
  {
    SortDesc(Filter(PlanRowsAll(c, p, stats), KeepPlan), PlanMeanCurr)
  }

  /** The mean of the scores under `k`, 0 when there are none. */
  function MeanUnder(es: seq<Entry>, g: GroupBy, k: string, stats: seq<real> -> MeanMedian): real
  {
    if Vol(es, g, k) > 0 then stats(ScoresUnder(es, g, k)).mean else 0.0
  }

  /** The row of plan `k`, read off the entries of both periods. */
  ghost function PlanReading(esC: seq<Entry>, esP: seq<Entry>, trans: map<string, int>,
                             stats: seq<real> -> MeanMedian, k: string): PlanScoreRow
  {
    var n := CountDays(esC, k, trans);
    PlanScoreRow(k, Vol(esC, ByPlan, k), MeanUnder(esC, ByPlan, k, stats), MeanUnder(esP, ByPlan, k, stats),
                 if n > 0 then Some(DaysSum(esC, k, trans) as real / n as real) else None)
  }

  /** The row built from the two `planData` tables is the row the entries call for. */
  lemma PlanRowReading(c: Dict<PlanData>, p: Dict<PlanData>, esC: seq<Entry>, esP: seq<Entry>,
                       trans: map<string, int>, stats: seq<real> -> MeanMedian, k: string)
    requires PlanTable(c, esC, trans) && PlanTable(p, esP, trans)
    ensures PlanRowOf(c, p, stats, k) == PlanReading(esC, esP, trans, stats, k)
  {
    assert PlanEntry(c, esC, trans, k) && PlanEntry(p, esP, trans, k);
    if k !in c.vals {
      CountDaysAtMostVol(esC, k, trans);
    }
  }

  /** Row `r` is the reading of its plan, passes the filter and has leads in one of the periods. */
  ghost predicate PlanRowAgrees(r: PlanScoreRow, esC: seq<Entry>, esP: seq<Entry>,
                                trans: map<string, int>, stats: seq<real> -> MeanMedian)
  {
    && r == PlanReading(esC, esP, trans, stats, r.plan)
    && KeepPlan(r)
    && (Vol(esC, ByPlan, r.plan) > 0 || Vol(esP, ByPlan, r.plan) > 0)
  }

  /** `planRows` after the entries of both periods. */
  ghost predicate PlanRowsFor(rows: seq<PlanScoreRow>, esC: seq<Entry>, esP: seq<Entry>,
                              trans: map<string, int>, stats: seq<real> -> MeanMedian)
  {
    && SortedDesc(rows, PlanMeanCurr)
    && (forall i, j :: 0 <= i < j < |rows| ==> rows[i].plan != rows[j].plan)
    && (forall i :: 0 <= i < |rows| ==> PlanRowAgrees(rows[i], esC, esP, trans, stats))
    && (forall k :: (Vol(esC, ByPlan, k) > 0 || Vol(esP, ByPlan, k) > 0) && KeepPlan(PlanReading(esC, esP, trans, stats, k))
          ==> PlanReading(esC, esP, trans, stats, k) in rows)
  }

  lemma PlanRowsSound(c: Dict<PlanData>, p: Dict<PlanData>, esC: seq<Entry>, esP: seq<Entry>,
                      trans: map<string, int>, stats: seq<real> -> MeanMedian)
    requires PlanTable(c, esC, trans) && PlanTable(p, esP, trans)
    ensures PlanRowsFor(PlanRows(c, p, stats), esC, esP, trans, stats)
  {
    PlanRowsMatch(c, p, esC, esP, trans, stats);
    PlanRowsCover(c, p, esC, esP, trans, stats);
    PlanRowsOnce(c, p, stats);
  }

  function PlanName(r: PlanScoreRow): string { r.plan }

  /** Each plan has at most one row, as the keys of both tables are listed once. */
  lemma PlanRowsOnce(c: Dict<PlanData>, p: Dict<PlanData>, stats: seq<real> -> MeanMedian)
    requires Valid(c) && Valid(p)
    ensures DistinctBy(PlanRows(c, p, stats), PlanName)
  {
    var all := PlanRowsAll(c, p, stats);
    assert DistinctBy(all, PlanName);
    FilterDistinct(all, KeepPlan, PlanName);
    SortDistinct(Filter(all, KeepPlan), PlanMeanCurr, PlanName);
  }

  lemma PlanRowsMatch(c: Dict<PlanData>, p: Dict<PlanData>, esC: seq<Entry>, esP: seq<Entry>,
                      trans: map<string, int>, stats: seq<real> -> MeanMedian)
    requires PlanTable(c, esC, trans) && PlanTable(p, esP, trans)
    ensures var rows := PlanRows(c, p, stats);
      forall i :: 0 <= i < |rows| ==> PlanRowAgrees(rows[i], esC, esP, trans, stats)
  {
    var kept := Filter(PlanRowsAll(c, p, stats), KeepPlan);
    var rows := PlanRows(c, p, stats);
    forall i | 0 <= i < |rows| ensures PlanRowAgrees(rows[i], esC, esP, trans, stats) {
      assert rows[i] in multiset(kept);
      PlanRowsAllReading(c, p, esC, esP, trans, stats, rows[i]);
    }
  }

  /** Every row built for a key of either table is that key's reading, and the key
      has leads in one of the periods. */
  lemma PlanRowsAllReading(c: Dict<PlanData>, p: Dict<PlanData>, esC: seq<Entry>, esP: seq<Entry>,
                           trans: map<string, int>, stats: seq<real> -> MeanMedian, r: PlanScoreRow)
    requires PlanTable(c, esC, trans) && PlanTable(p, esP, trans)
    requires r in PlanRowsAll(c, p, stats)
    ensures r == PlanReading(esC, esP, trans, stats, r.plan)
    ensures Vol(esC, ByPlan, r.plan) > 0 || Vol(esP, ByPlan, r.plan) > 0
  {
    var all := PlanRowsAll(c, p, stats);
    var m :| 0 <= m < |all| && all[m] == r;
    var k := KeysOfBoth(c, p)[m];
    PlanRowReading(c, p, esC, esP, trans, stats, k);
    assert PlanEntry(c, esC, trans, k) && PlanEntry(p, esP, trans, k);
  }

  lemma PlanRowsCover(c: Dict<PlanData>, p: Dict<PlanData>, esC: seq<Entry>, esP: seq<Entry>,
                      trans: map<string, int>, stats: seq<real> -> MeanMedian)
    requires PlanTable(c, esC, trans) && PlanTable(p, esP, trans)
    ensures var rows := PlanRows(c, p, stats);
      forall k :: (Vol(esC, ByPlan, k) > 0 || Vol(esP, ByPlan, k) > 0) && KeepPlan(PlanReading(esC, esP, trans, stats, k))
        ==> PlanReading(esC, esP, trans, stats, k) in rows
  {
    forall k | (Vol(esC, ByPlan, k) > 0 || Vol(esP, ByPlan, k) > 0) && KeepPlan(PlanReading(esC, esP, trans, stats, k))
      ensures PlanReading(esC, esP, trans, stats, k) in PlanRows(c, p, stats)
    {
      PlanKeyCovered(c, p, esC, esP, trans, stats, k);
    }
  }

  /** A plan with leads in either period whose reading passes the filter has its row. */
  lemma PlanKeyCovered(c: Dict<PlanData>, p: Dict<PlanData>, esC: seq<Entry>, esP: seq<Entry>,
                       trans: map<string, int>, stats: seq<real> -> MeanMedian, k: string)
    requires PlanTable(c, esC, trans) && PlanTable(p, esP, trans)
    requires Vol(esC, ByPlan, k) > 0 || Vol(esP, ByPlan, k) > 0
    requires KeepPlan(PlanReading(esC, esP, trans, stats, k))
    ensures PlanReading(esC, esP, trans, stats, k) in PlanRows(c, p, stats)
  {
    var ks := KeysOfBoth(c, p);
    var all := PlanRowsAll(c, p, stats);
    var kept := Filter(all, KeepPlan);
    var rows := PlanRows(c, p, stats);
    assert PlanEntry(c, esC, trans, k) && PlanEntry(p, esP, trans, k);
    var m :| 0 <= m < |ks| && ks[m] == k;
    PlanRowReading(c, p, esC, esP, trans, stats, k);
    assert all[m] in kept;
    assert all[m] in multiset(rows);
  }

  // ------------------------------------------------------------------
  // Origin and profession rows
  // ------------------------------------------------------------------

  datatype GroupScoreRow = GroupScoreRow(key: string, vol: nat, meanCurr: real, meanPrev: real)

  function GroupMeanCurr(r: GroupScoreRow): real { r.meanCurr }

  predicate KeepGroup(r: GroupScoreRow) { r.vol > 0 }

  /** The row of `key` in `originRows` or `profRows`. */
  function GroupRowOf(c: Dict<Group>, p: Dict<Group>, stats: seq<real> -> MeanMedian, key: string): GroupScoreRow
  {
    GroupScoreRow(key,
                  if key in c.vals then c.vals[key].vol else 0,
                  if key in c.vals then stats(c.vals[key].scores).mean else 0.0,
                  if key in p.vals then stats(p.vals[key].scores).mean else 0.0)
  }

  function GroupRowsAll(c: Dict<Group>, p: Dict<Group>, stats: seq<real> -> MeanMedian): (rs: seq<GroupScoreRow>)
    requires Valid(c) && Valid(p)
  {
    var ks := KeysOfBoth(c, p);
    seq(|ks|, i requires 0 <= i < |ks| => GroupRowOf(c, p, stats, ks[i]))
  }

  /** `originRows` and `profRows`: the keys with current leads, highest current mean first. */
  function GroupRows(c: Dict<Group>, p: Dict<Group>, stats: seq<real> -> MeanMedian): (rs: seq<GroupScoreRow>)
    requires Valid(c) && Valid(p)
  {
    SortDesc(Filter(GroupRowsAll(c, p, stats), KeepGroup), GroupMeanCurr)
  }

  /** The row of key `k`, read off the entries of both periods. */
  function GroupReading(esC: seq<Entry>, esP: seq<Entry>, g: GroupBy, stats: seq<real> -> MeanMedian, k: string): GroupScoreRow
  {
    GroupScoreRow(k, Vol(esC, g, k), MeanUnder(esC, g, k, stats), MeanUnder(esP, g, k, stats))
  }

  lemma GroupRowReading(c: Dict<Group>, p: Dict<Group>, esC: seq<Entry>, esP: seq<Entry>,
                        g: GroupBy, stats: seq<real> -> MeanMedian, k: string)
    requires GroupTable(c, esC, g) && GroupTable(p, esP, g)
    ensures GroupRowOf(c, p, stats, k) == GroupReading(esC, esP, g, stats, k)
  {
    assert GroupEntry(c, esC, g, k) && GroupEntry(p, esP, g, k);
  }

  /** `originRows` or `profRows` after the entries of both periods: sorted, one row
      for every key with current leads and no other. */
  ghost predicate GroupRowsFor(rows: seq<GroupScoreRow>, esC: seq<Entry>, esP: seq<Entry>, g: GroupBy,
                               stats: seq<real> -> MeanMedian)
  {
    && SortedDesc(rows, GroupMeanCurr)
    && (forall i, j :: 0 <= i < j < |rows| ==> rows[i].key != rows[j].key)
    && (forall i :: 0 <= i < |rows| ==>
          rows[i] == GroupReading(esC, esP, g, stats, rows[i].key) && Vol(esC, g, rows[i].key) > 0)
    && (forall k :: Vol(esC, g, k) > 0 ==> GroupReading(esC, esP, g, stats, k) in rows)
  }

  lemma GroupRowsSound(c: Dict<Group>, p: Dict<Group>, esC: seq<Entry>, esP: seq<Entry>,
                       g: GroupBy, stats: seq<real> -> MeanMedian)
    requires GroupTable(c, esC, g) && GroupTable(p, esP, g)
    ensures GroupRowsFor(GroupRows(c, p, stats), esC, esP, g, stats)
  {
    GroupRowsMatch(c, p, esC, esP, g, stats);
    GroupRowsCover(c, p, esC, esP, g, stats);
    GroupRowsOnce(c, p, stats);
  }

  function GroupKey(r: GroupScoreRow): string { r.key }

  /** Each key has at most one row, as the keys of both tables are listed once. */
  lemma GroupRowsOnce(c: Dict<Group>, p: Dict<Group>, stats: seq<real> -> MeanMedian)
    requires Valid(c) && Valid(p)
    ensures DistinctBy(GroupRows(c, p, stats), GroupKey)
  {
    var all := GroupRowsAll(c, p, stats);
    assert DistinctBy(all, GroupKey);
    FilterDistinct(all, KeepGroup, GroupKey);
    SortDistinct(Filter(all, KeepGroup), GroupMeanCurr, GroupKey);
  }

  lemma GroupRowsMatch(c: Dict<Group>, p: Dict<Group>, esC: seq<Entry>, esP: seq<Entry>,
                       g: GroupBy, stats: seq<real> -> MeanMedian)
    requires GroupTable(c, esC, g) && GroupTable(p, esP, g)
    ensures var rows := GroupRows(c, p, stats);
      forall i :: 0 <= i < |rows| ==>
        rows[i] == GroupReading(esC, esP, g, stats, rows[i].key) && Vol(esC, g, rows[i].key) > 0
  {
    var all := GroupRowsAll(c, p, stats);
    var kept := Filter(all, KeepGroup);
    var rows := GroupRows(c, p, stats);
    forall i | 0 <= i < |rows|
      ensures rows[i] == GroupReading(esC, esP, g, stats, rows[i].key) && Vol(esC, g, rows[i].key) > 0
    {
      assert rows[i] in multiset(kept);
      var j :| 0 <= j < |kept| && kept[j] == rows[i];
      var m :| 0 <= m < |all| && all[m] == kept[j];
      GroupRowReading(c, p, esC, esP, g, stats, KeysOfBoth(c, p)[m]);
    }
  }

  lemma GroupRowsCover(c: Dict<Group>, p: Dict<Group>, esC: seq<Entry>, esP: seq<Entry>,
                       g: GroupBy, stats: seq<real> -> MeanMedian)
    requires GroupTable(c, esC, g) && GroupTable(p, esP, g)
    ensures var rows := GroupRows(c, p, stats);
      forall k :: Vol(esC, g, k) > 0 ==> GroupReading(esC, esP, g, stats, k) in rows
  {
    var ks := KeysOfBoth(c, p);
    var all := GroupRowsAll(c, p, stats);
    var kept := Filter(all, KeepGroup);
    var rows := GroupRows(c, p, stats);
    forall k | Vol(esC, g, k) > 0 ensures GroupReading(esC, esP, g, stats, k) in rows {
      assert GroupEntry(c, esC, g, k);
      var m :| 0 <= m < |ks| && ks[m] == k;
      GroupRowReading(c, p, esC, esP, g, stats, k);
      assert all[m] in kept;
      assert all[m] in multiset(rows);
    }
  }

  // ------------------------------------------------------------------
  // Distribution and rates
  // ------------------------------------------------------------------

  /** `total > 0 ? (n / total) * 100 : 0`. */
  function Percent(n: int, total: int): (r: real)
    ensures total <= 0 ==> r == 0.0
    ensures total > 0 ==> r * total as real == n as real * 100.0
  {
    if total > 0 then (n as real / total as real) * 100.0 else 0.0
  }

  /** One band of `distribution`. */
  datatype Band = Band(name: string, curr: int, currPerc: real, prevPerc: real)

  function BandCurr(b: Band): real { b.curr as real }

  function BandPerc(b: Band): real { b.currPerc }

  /** `distribution`: each band's label, current count and the share of it in each period. */
  function Distribution(c: PeriodStats, p: PeriodStats): (d: seq<Band>)
    requires |c.bucketCounts| == 6 && |p.bucketCounts| == 6
    ensures |d| == 6
  {
    seq(6, i requires 0 <= i < 6 =>
      Band(BucketLabels[i], c.bucketCounts[i], Percent(c.bucketCounts[i], c.totalCount),
           Percent(p.bucketCounts[i], p.totalCount)))
  }

  /** Sum of a sequence of six. */
  lemma SumBySix<T>(s: seq<T>, f: T -> real)
    requires |s| == 6
    ensures SumBy(s, f) == f(s[0]) + f(s[1]) + f(s[2]) + f(s[3]) + f(s[4]) + f(s[5])
  {
    var s1 := s[1..]; var s2 := s1[1..]; var s3 := s2[1..]; var s4 := s3[1..]; var s5 := s4[1..];
    assert s5[1..] == [];
    assert SumBy(s5, f) == f(s[5]);
    assert SumBy(s4, f) == f(s[4]) + SumBy(s5, f);
    assert SumBy(s3, f) == f(s[3]) + SumBy(s4, f);
    assert SumBy(s2, f) == f(s[2]) + SumBy(s3, f);
    assert SumBy(s1, f) == f(s[1]) + SumBy(s2, f);
  }

  lemma SumSix(s: seq<int>)
    requires |s| == 6
    ensures Sum(s) == s[0] + s[1] + s[2] + s[3] + s[4] + s[5]
  {
    var s1 := s[1..]; var s2 := s1[1..]; var s3 := s2[1..]; var s4 := s3[1..]; var s5 := s4[1..];
    assert s5[1..] == [];
    assert Sum(s5) == s[5];
    assert Sum(s4) == s[4] + Sum(s5);
    assert Sum(s3) == s[3] + Sum(s4);
    assert Sum(s2) == s[2] + Sum(s3);
    assert Sum(s1) == s[1] + Sum(s2);
  }

  /** Shares of one total add up. */
  lemma PercentAdd(a: int, b: int, total: int)
    ensures Percent(a, total) + Percent(b, total) == Percent(a + b, total)
  {
    if total > 0 {
      var t := total as real;
      assert (a as real / t) + (b as real / t) == (a + b) as real / t;
    }
  }

  /** When the band counts add up to `totalCount`, as `calcStats` makes them
      (`Bucketed`), the counts of `distribution` do too, and its shares add up to
      100 whenever there is a lead. */
  lemma DistributionTotals(c: PeriodStats, p: PeriodStats)
    requires |c.bucketCounts| == 6 && |p.bucketCounts| == 6 && Sum(c.bucketCounts) == c.totalCount
    ensures SumBy(Distribution(c, p), BandCurr) == c.totalCount as real
    ensures c.totalCount > 0 ==> SumBy(Distribution(c, p), BandPerc) == 100.0
  {
    var d := Distribution(c, p);
    var b := c.bucketCounts;
    var t := c.totalCount;
    SumBySix(d, BandCurr);
    SumBySix(d, BandPerc);
    SumSix(b);
    assert forall i :: 0 <= i < 6 ==> d[i].currPerc == Percent(b[i], t);
    PercentAdd(b[0], b[1], t);
    PercentAdd(b[0] + b[1], b[2], t);
    PercentAdd(b[0] + b[1] + b[2], b[3], t);
    PercentAdd(b[0] + b[1] + b[2] + b[3], b[4], t);
    PercentAdd(b[0] + b[1] + b[2] + b[3] + b[4], b[5], t);
    assert t > 0 ==> Percent(t, t) == 100.0;
  }

  /** `qualifiedRate`: the share of the three top bands. */
  lemma QualifiedRateBands(c: PeriodStats, p: PeriodStats, es: seq<Entry>, trans: map<string, int>)
    requires StatsOf(c, es, trans) && |p.bucketCounts| == 6
    ensures var d := Distribution(c, p);
      Percent(c.totalQualified, c.totalCount) == d[3].currPerc + d[4].currPerc + d[5].currPerc
  {
    QualifiedBuckets(es);
    var b := c.bucketCounts;
    PercentAdd(b[3], b[4], c.totalCount);
    PercentAdd(b[3] + b[4], b[5], c.totalCount);
  }

  // ------------------------------------------------------------------
  // The report
  // ------------------------------------------------------------------

  datatype Report = Report(
    currentLabel: string, prevLabel: string,
    meanCurr: real, meanPrev: real, medianCurr: real, medianPrev: real,
    qualifiedCurr: real, qualifiedPrev: real,
    distribution: seq<Band>,
    planRows: seq<PlanScoreRow>, originRows: seq<GroupScoreRow>, profRows: seq<GroupScoreRow>)

  /** The value `scoringMetrics` returns for the tallies of the two periods. */
  function Assemble(c: PeriodStats, p: PeriodStats, cp: Period, pp: Period, stats: seq<real> -> MeanMedian): Report
    requires |c.bucketCounts| == 6 && |p.bucketCounts| == 6
    requires Valid(c.planData) && Valid(p.planData) && Valid(c.originData) && Valid(p.originData)
    requires Valid(c.profData) && Valid(p.profData)
  {
    var sc, sp := stats(c.scores), stats(p.scores);
    Report(cp.name, pp.name, sc.mean, sp.mean, sc.median, sp.median,
           Percent(c.totalQualified, c.totalCount), Percent(p.totalQualified, p.totalCount),
           Distribution(c, p),
           PlanRows(c.planData, p.planData, stats),
           GroupRows(c.originData, p.originData, stats),
           GroupRows(c.profData, p.profData, stats))
  }

  /** The report of the entries `esC` of period `cp` and `esP` of period `pp`. */
  ghost predicate ReportOf(rep: Report, esC: seq<Entry>, esP: seq<Entry>, trans: map<string, int>,
                           cp: Period, pp: Period, stats: seq<real> -> MeanMedian)
  {
    && rep.currentLabel == cp.name && rep.prevLabel == pp.name
    && rep.meanCurr == stats(ScoresOf(esC)).mean && rep.meanPrev == stats(ScoresOf(esP)).mean
    && rep.medianCurr == stats(ScoresOf(esC)).median && rep.medianPrev == stats(ScoresOf(esP)).median
    && rep.qualifiedCurr == Percent(Qualified(esC), |esC|)
    && rep.qualifiedPrev == Percent(Qualified(esP), |esP|)
    && |rep.distribution| == 6
    && (forall i :: 0 <= i < 6 ==>
          rep.distribution[i] == Band(BucketLabels[i], BucketCount(esC, i),
                                      Percent(BucketCount(esC, i), |esC|), Percent(BucketCount(esP, i), |esP|)))
    && PlanRowsFor(rep.planRows, esC, esP, trans, stats)
    && GroupRowsFor(rep.originRows, esC, esP, ByOrigin, stats)
    && GroupRowsFor(rep.profRows, esC, esP, ByProfession, stats)
  }

  lemma AssembleReport(c: PeriodStats, p: PeriodStats, esC: seq<Entry>, esP: seq<Entry>, trans: map<string, int>,
                       cp: Period, pp: Period, stats: seq<real> -> MeanMedian)
    requires StatsOf(c, esC, trans) && StatsOf(p, esP, trans)
    ensures ReportOf(Assemble(c, p, cp, pp, stats), esC, esP, trans, cp, pp, stats)
  {
    PlanRowsSound(c.planData, p.planData, esC, esP, trans, stats);
    GroupRowsSound(c.originData, p.originData, esC, esP, ByOrigin, stats);
    GroupRowsSound(c.profData, p.profData, esC, esP, ByProfession, stats);
  }

  /** `scoringMetrics`: nothing without scoring rows or with fewer than two scoring
      periods; otherwise the report of the leads of `periods[0]` against those of
      `periods[1]`, matched against the earliest sale of every email. */
  method ScoringMetrics(rows: seq<Row>, txs: seq<Transaction>, periods: seq<Period>,
                        parseDate: Option<string> -> Option<int>, parseNumber: string -> Option<real>,
                        targets: seq<string>, stats: seq<real> -> MeanMedian)
    returns (r: Option<Report>)
    ensures r.None? <==> rows == [] || |periods| < 2
    ensures r.Some? ==>
      var leads := ReadLeads(rows, parseDate, parseNumber, targets);
      ReportOf(r.value, InPeriod(leads, periods[0]), InPeriod(leads, periods[1]), TransMap(Stamps(txs)),
               periods[0], periods[1], stats)
  {
    if rows == [] || |periods| < 2 {
      return None;
    }
    var trans := EarliestByEmail(txs);
    EarliestMapUnique(trans, Stamps(txs));
    var leads := ReadLeads(rows, parseDate, parseNumber, targets);
    var curr := CalcStats(leads, trans, periods[0]);
    var prev := CalcStats(leads, trans, periods[1]);
    AssembleReport(curr, prev, InPeriod(leads, periods[0]), InPeriod(leads, periods[1]), trans,
                   periods[0], periods[1], stats);
    r := Some(Assemble(curr, prev, periods[0], periods[1], stats));
  }
}
