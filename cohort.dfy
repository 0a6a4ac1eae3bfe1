/** `cohortDashData`: for each period, the signups created within it (the cohort)
    and how many days each valid one took to make a first sale. */
module Cohort {
  import opened Wrappers
  import opened Records
  import opened Seqs
  import opened Dicts
  import opened Ledger

  /** The speed histogram has one slot per day from 0 to 30. */
  const SpeedDays: nat := 31

  /** `rawUsers.filter(...)`: the signups created within `p`. */
  function Cohort(users: seq<User>, p: Period): (c: seq<User>)
    ensures |c| <= |users|
    ensures forall k :: 0 <= k < |c| ==> c[k] in users && InRange(c[k], p)
    ensures forall k :: 0 <= k < |users| && InRange(users[k], p) ==> users[k] in c
  {
    Filter(users, CreatedIn(p))
  }

  /** The cohort holds each signup created within `p` as often as `users` does,
      so its size counts duplicate rows. */
  lemma CohortCounts(users: seq<User>, p: Period)
    ensures forall u :: multiset(Cohort(users, p))[u] == if InRange(u, p) then multiset(users)[u] else 0
  {
    FilterCounts(users, CreatedIn(p));
  }

  /** The test of the cohort filter for period `p`. */
  function CreatedIn(p: Period): User -> bool
  {
    u => InRange(u, p)
  }

  /** A transaction that counts as the first sale of a signup created on day
      `created`: dated, with a positive amount, not before the signup. */
  predicate Qualifies(t: Transaction, created: int)
  {
    t.date.Some? && t.amount > 0.0 && t.date.value >= created
  }

  /** The test of `sortedTxs.find` for a signup created on day `created`. */
  function QualifiesOn(created: int): Transaction -> bool
  {
    t => Qualifies(t, created)
  }

  /** The sort key of `sortedTxs`: ascending by date, an undated one as day 0. */
  function Lateness(t: Transaction): real
  {
    -(t.date.GetOr(0) as real)
  }

  /** `sortedTxs.find(...)`: the date of the first qualifying transaction once the
      transactions are sorted by date. */
  function FirstSaleDay(ts: seq<Transaction>, created: int): Option<int>
  {
    var sorted := SortDesc(ts, Lateness);
    var i := FindFirst(sorted, QualifiesOn(created));
    if i < 0 then None else Some(sorted[i].date.value)
  }

  /** The first sale is the earliest qualifying transaction: there is one just when
      some transaction qualifies, and its date is one of theirs and no later than
      any of them. */
  lemma FirstSaleEarliest(ts: seq<Transaction>, created: int)
    ensures FirstSaleDay(ts, created).None? <==> forall t :: t in ts ==> !Qualifies(t, created)
    ensures FirstSaleDay(ts, created).Some? ==>
      var d := FirstSaleDay(ts, created).value;
      && d >= created
      && (exists t :: t in ts && Qualifies(t, created) && t.date.value == d)
      && (forall t :: t in ts && Qualifies(t, created) ==> d <= t.date.value)
  {
    var sorted := SortDesc(ts, Lateness);
    var i := FindFirst(sorted, QualifiesOn(created));
    SameElements(ts, sorted);
    if i >= 0 {
      forall t | t in ts && Qualifies(t, created) ensures sorted[i].date.value <= t.date.value {
        EarliestAt(sorted, created, i, t);
      }
    }
  }

  /** A permutation has the same elements. */
  lemma SameElements<T>(s: seq<T>, t: seq<T>)
    requires multiset(s) == multiset(t)
    ensures forall x :: x in s <==> x in t
  {
    forall x ensures x in s <==> x in t {
      assert x in s <==> x in multiset(s);
      assert x in t <==> x in multiset(t);
    }
  }

  /** In transactions sorted by date, the first qualifying one is no later than any
      other qualifying one. */
  lemma EarliestAt(sorted: seq<Transaction>, created: int, i: int, t: Transaction)
    requires SortedDesc(sorted, Lateness)
    requires i == FindFirst(sorted, QualifiesOn(created)) && i >= 0
    requires t in sorted && Qualifies(t, created)
    ensures sorted[i].date.value <= t.date.value
  {
    var j :| 0 <= j < |sorted| && sorted[j] == t;
    assert QualifiesOn(created)(sorted[j]);
    if i < j {
      assert Lateness(sorted[i]) >= Lateness(sorted[j]);
    }
  }

  /** Days from signup to first sale of `u`, when `u` is valid and has one; the
      `diffDays >= 0` guard of the source always holds. */
  function DaysToConvert(u: User, txs: seq<Transaction>): Option<nat>
  {
    DaysFrom(u, TxsOf(txs, u.username))
  }

  /** Days from signup to first sale of `u` among its transactions `ts`. */
  function DaysFrom(u: User, ts: seq<Transaction>): Option<nat>
  {
    if IsValid(u) && u.created.Some? then
      match FirstSaleDay(ts, u.created.value)
      case None => None
      case Some(d) => if d - u.created.value >= 0 then Some(d - u.created.value) else None
    else None
  }

  /** The outcome of each member of `cohort`: its conversion days, or none. */
  function Outcomes(cohort: seq<User>, txs: seq<Transaction>): (outs: seq<Option<nat>>)
    ensures |outs| == |cohort|
    ensures forall k :: 0 <= k < |cohort| ==> outs[k] == DaysToConvert(cohort[k], txs)
  {
    seq(|cohort|, k requires 0 <= k < |cohort| => DaysToConvert(cohort[k], txs))
  }

  /** The conversion days among `outs`, in their order. */
  function Converted(outs: seq<Option<nat>>): (ds: seq<nat>)
    ensures |ds| <= |outs|
  {
    if outs == [] then []
    else
      var prefix := Converted(outs[..|outs| - 1]);
      match outs[|outs| - 1]
      case None => prefix
      case Some(n) => prefix + [n]
  }

  /** Each conversion day occurs as often as the outcomes hold it. */
  lemma {:induction false} ConvertedCounts(outs: seq<Option<nat>>)
    ensures forall n :: multiset(Converted(outs))[n] == multiset(outs)[Some(n)]
  {
    if outs != [] {
      ConvertedCounts(outs[..|outs| - 1]);
      assert outs == outs[..|outs| - 1] + [outs[|outs| - 1]];
    }
  }

  /** Conversion days of the converted members of `cohort`, in cohort order. */
  function ConversionDays(cohort: seq<User>, txs: seq<Transaction>): (ds: seq<nat>)
    ensures |ds| <= |cohort|
  {
    Converted(Outcomes(cohort, txs))
  }

  /** A member converts just when it is valid and some transaction of its own
      qualifies. */
  lemma ConvertsIff(u: User, txs: seq<Transaction>)
    ensures DaysToConvert(u, txs).Some? <==>
      IsValid(u) && u.created.Some? && exists t :: t in txs && t.username == u.username && Qualifies(t, u.created.value)
  {
    if IsValid(u) && u.created.Some? {
      var ts := TxsOf(txs, u.username);
      FirstSaleEarliest(ts, u.created.value);
      forall m | 0 <= m < |txs| && txs[m].username == u.username ensures txs[m] in ts {
        TxsComplete(txs, u.username, m);
      }
    }
  }

  /** The number of conversion days in `ds` that are at most `bound`. */
  function CountUpTo(ds: seq<nat>, bound: nat): nat
  {
    if ds == [] then 0
    else CountUpTo(ds[..|ds| - 1], bound) + (if ds[|ds| - 1] <= bound then 1 else 0)
  }

  /** The number of conversion days in `ds` equal to `day`. */
  function CountOf(ds: seq<nat>, day: nat): nat
  {
    if ds == [] then 0
    else CountOf(ds[..|ds| - 1], day) + (if ds[|ds| - 1] == day then 1 else 0)
  }

  /** Faster conversions are among the slower ones: `count0to7 <= count0to30 <= conversions`. */
  lemma {:induction false} CountUpToMonotone(ds: seq<nat>, a: nat, b: nat)
    requires a <= b
    ensures CountUpTo(ds, a) <= CountUpTo(ds, b) <= |ds|
  {
    if ds != [] {
      CountUpToMonotone(ds[..|ds| - 1], a, b);
    }
  }

  /** Counting outcome `outs[i]` appends its conversion days, if any. */
  lemma ConvertedStep(outs: seq<Option<nat>>, i: nat)
    requires i < |outs|
    ensures Converted(outs[..i + 1]) == Joined(Converted(outs[..i]), outs[i])
  {
    assert outs[..i + 1][..i] == outs[..i];
  }

  /** The counters of `cohortUsers.forEach` after the conversion days `ds`. */
  ghost predicate Counted(total: int, c7: int, c30: int, ds: seq<nat>)
  {
    total == |ds| && c7 == CountUpTo(ds, 7) && c30 == CountUpTo(ds, 30)
  }

  /** Counting a conversion after `n` days keeps the counters right. */
  lemma CountedStep(total: int, c7: int, c30: int, ds: seq<nat>, n: nat)
    requires Counted(total, c7, c30, ds)
    ensures Counted(total + 1, c7 + (if n <= 7 then 1 else 0), c30 + (if n <= 30 then 1 else 0), ds + [n])
  {
    assert (ds + [n])[..|ds|] == ds;
  }

  /** `dailySpeed` after the conversion days `ds`: the conversions of each of the
      first 31 days, adding up to `count0to30`. */
  ghost predicate Speeds(speed: seq<int>, ds: seq<nat>)
  {
    && |speed| == SpeedDays
    && (forall k :: 0 <= k < SpeedDays ==> speed[k] == CountOf(ds, k))
    && Sum(speed) == CountUpTo(ds, 30)
  }

  lemma SpeedsStep(speed: seq<int>, ds: seq<nat>, n: nat)
    requires Speeds(speed, ds)
    ensures Speeds(if n <= 30 then speed[n := speed[n] + 1] else speed, ds + [n])
  {
    assert (ds + [n])[..|ds|] == ds;
    if n <= 30 {
      SumBump(speed, n);
    }
  }

  /** `dailySpeed[diffDays]++` for a conversion after `n` days, which joins `ds`. */
  method Tick(speed: array<int>, ghost ds: seq<nat>, n: nat)
    requires n < speed.Length && Speeds(speed[..], ds)
    modifies speed
    ensures speed[..] == old(speed[..])[n := old(speed[n]) + 1]
    ensures Speeds(speed[..], ds + [n])
  {
    SpeedsStep(speed[..], ds, n);
    speed[n] := speed[n] + 1;
  }

  /** In every period, `count0to7 <= count0to30 <= conversions <= cohort size`. */
  lemma CohortCountsOrdered(users: seq<User>, txs: seq<Transaction>, p: Period)
    ensures var ds := ConversionDays(Cohort(users, p), txs);
      CountUpTo(ds, 7) <= CountUpTo(ds, 30) <= |ds| <= |Cohort(users, p)|
  {
    CountUpToMonotone(ConversionDays(Cohort(users, p), txs), 7, 30);
  }

  /** An entry of `processedPeriods`. */
  datatype CohortRow = CohortRow(name: string, leadVolume: nat, conversions: nat,
                                 perc7: real, perc30: real, dailySpeed: seq<int>)

  /** What a row promises about the cohort of its period. */
  ghost predicate RowOf(r: CohortRow, users: seq<User>, txs: seq<Transaction>, p: Period)
  {
    var cohort := Cohort(users, p);
    var ds := ConversionDays(cohort, txs);
    && r.name == p.name
    && r.leadVolume == (if cohort == [] then 1 else |cohort|)
    && r.conversions == |ds|
    && r.perc7 == CountUpTo(ds, 7) as real / r.leadVolume as real * 100.0
    && r.perc30 == CountUpTo(ds, 30) as real / r.leadVolume as real * 100.0
    && |r.dailySpeed| == SpeedDays
    && (forall k :: 0 <= k < SpeedDays ==> r.dailySpeed[k] == CountOf(ds, k))
    && Sum(r.dailySpeed) == CountUpTo(ds, 30)
  }

  /** The `cohortUsers.forEach` of one period: counts the conversions of `cohort`. */
  method CountCohort(cohort: seq<User>, transMap: Dict<seq<Transaction>>, txs: seq<Transaction>)
    returns (countTotal: int, count0to7: int, count0to30: int, speed: seq<int>)
    requires Grouped(transMap, txs)
    ensures Counted(countTotal, count0to7, count0to30, ConversionDays(cohort, txs))
    ensures Speeds(speed, ConversionDays(cohort, txs))
  {
    countTotal, count0to7, count0to30 := 0, 0, 0;
    var dailySpeed := new int[SpeedDays](_ => 0);
    assert dailySpeed[..] == Zeros(SpeedDays);
    ghost var outs := Outcomes(cohort, txs);
    var i := 0;
    while i < |cohort|
      invariant i <= |cohort|
      invariant Counted(countTotal, count0to7, count0to30, Converted(outs[..i]))
      invariant Speeds(dailySpeed[..], Converted(outs[..i]))
    {
      countTotal, count0to7, count0to30 := CountUser(cohort[i], transMap, txs, outs, i, countTotal, count0to7, count0to30, dailySpeed);
      i := i + 1;
    }
    assert outs[..i] == outs;
    speed := dailySpeed[..];
  }

  /** Counts signup `u`, whose outcome is `outs[i]`, after the outcomes before it. */
  method CountUser(u: User, transMap: Dict<seq<Transaction>>, txs: seq<Transaction>, ghost outs: seq<Option<nat>>,
                   ghost i: nat, countTotal: int, count0to7: int, count0to30: int, dailySpeed: array<int>)
    returns (total': int, c7': int, c30': int)
    requires Grouped(transMap, txs) && i < |outs| && outs[i] == DaysToConvert(u, txs)
    requires Counted(countTotal, count0to7, count0to30, Converted(outs[..i]))
    requires Speeds(dailySpeed[..], Converted(outs[..i]))
    modifies dailySpeed
    ensures Counted(total', c7', c30', Converted(outs[..i + 1])) && Speeds(dailySpeed[..], Converted(outs[..i + 1]))
  {
    var d := UserOutcome(u, transMap, txs);
    ConvertedStep(outs, i);
    total', c7', c30' := Record(d, Converted(outs[..i]), countTotal, count0to7, count0to30, dailySpeed);
  }

  /** The conversion days `ds` with outcome `d` counted. */
  function Joined(ds: seq<nat>, d: Option<nat>): seq<nat>
  {
    if d.Some? then ds + [d.value] else ds
  }

  /** Counts one outcome `d`: a conversion bumps `countTotal`, the counters of the
      windows it falls into and its day of `dailySpeed`. */
  method Record(d: Option<nat>, ghost ds: seq<nat>, countTotal: int, count0to7: int, count0to30: int,
                dailySpeed: array<int>)
    returns (total': int, c7': int, c30': int)
    requires Counted(countTotal, count0to7, count0to30, ds) && Speeds(dailySpeed[..], ds)
    modifies dailySpeed
    ensures Counted(total', c7', c30', Joined(ds, d)) && Speeds(dailySpeed[..], Joined(ds, d))
  {
    total', c7', c30' := countTotal, count0to7, count0to30;
    if d.Some? {
      var diffDays := d.value;
      CountedStep(countTotal, count0to7, count0to30, ds, diffDays);
      total' := total' + 1;
      if diffDays <= 7 {
        c7' := c7' + 1;
      }
      if diffDays <= 30 {
        c30' := c30' + 1;
        Tick(dailySpeed, ds, diffDays);
      } else {
        SpeedsStep(dailySpeed[..], ds, diffDays);
      }
    }
  }

  /** The row of period `p`: its cohort's counts, `leadVolume` at least 1. */
  method CohortRowOf(users: seq<User>, transMap: Dict<seq<Transaction>>, txs: seq<Transaction>, p: Period)
    returns (r: CohortRow)
    requires Grouped(transMap, txs)
    ensures RowOf(r, users, txs, p)
  {
    var cohort := Cohort(users, p);
    var countTotal, count0to7, count0to30, dailySpeed := CountCohort(cohort, transMap, txs);
    var leadVolume := if |cohort| == 0 then 1 else |cohort|;
    r := CohortRow(p.name, leadVolume, countTotal,
                   count0to7 as real / leadVolume as real * 100.0,
                   count0to30 as real / leadVolume as real * 100.0,
                   dailySpeed);
  }

  /** The conversion days of signup `u`, its transactions looked up in `transMap`. */
  method UserOutcome(u: User, transMap: Dict<seq<Transaction>>, txs: seq<Transaction>) returns (d: Option<nat>)
    requires Grouped(transMap, txs)
    ensures d == DaysToConvert(u, txs)
  {
    LookupIsFilter(transMap, txs, u.username);
    d := DaysFrom(u, Lookup(transMap, u.username));
  }

  /** `history`: an entry per period. */
  datatype HistoryPoint = HistoryPoint(name: string, perc7: real, perc30: real)

  /** `cohortDashData`: `history` and `speed`, a row per period in their order. */
  datatype CohortData = CohortData(history: seq<HistoryPoint>, speed: seq<CohortRow>)

  /** `speed` holds the rows of the first `|speed|` periods, in their order. */
  ghost predicate RowsOf(speed: seq<CohortRow>, users: seq<User>, txs: seq<Transaction>, periods: seq<Period>)
  {
    |speed| <= |periods| && forall j :: 0 <= j < |speed| ==> RowOf(speed[j], users, txs, periods[j])
  }

  lemma RowsOfStep(speed: seq<CohortRow>, row: CohortRow, users: seq<User>, txs: seq<Transaction>, periods: seq<Period>)
    requires RowsOf(speed, users, txs, periods) && |speed| < |periods|
    requires RowOf(row, users, txs, periods[|speed|])
    ensures RowsOf(speed + [row], users, txs, periods)
  {
    var s := speed + [row];
    forall j | 0 <= j < |s| ensures RowOf(s[j], users, txs, periods[j]) {
      if j < |speed| {
        assert s[j] == speed[j];
      }
    }
  }

  method CohortDashData(users: seq<User>, txs: seq<Transaction>, periods: seq<Period>)
    returns (r: CohortData)
    ensures |r.speed| == |periods| && |r.history| == |periods|
    ensures RowsOf(r.speed, users, txs, periods)
    ensures forall k :: 0 <= k < |periods| ==>
      r.history[k] == HistoryPoint(r.speed[k].name, r.speed[k].perc7, r.speed[k].perc30)
  {
    if |periods| == 0 {
      return CohortData([], []);
    }
    var transMap := GroupByUser(txs);
    var speed: seq<CohortRow> := [];
    var history: seq<HistoryPoint> := [];
    var k := 0;
    while k < |periods|
      invariant k <= |periods| && |speed| == k && |history| == k
      invariant RowsOf(speed, users, txs, periods)
      invariant forall j :: 0 <= j < k ==>
        history[j] == HistoryPoint(speed[j].name, speed[j].perc7, speed[j].perc30)
    {
      var row := CohortRowOf(users, transMap, txs, periods[k]);
      RowsOfStep(speed, row, users, txs, periods);
      speed := speed + [row];
      history := history + [HistoryPoint(row.name, row.perc7, row.perc30)];
      k := k + 1;
    }
    r := CohortData(history, speed);
  }

  /** Every member's speed histogram followed by the next, `flatMap(r => r.dailySpeed)`. */
  function AllSpeeds(rows: seq<CohortRow>): seq<int>
  {
    if rows == [] then [] else rows[0].dailySpeed + AllSpeeds(rows[1..])
  }

  /** `maxCohortVal`: 1 without rows, else the largest histogram slot, at least 1. */
  function MaxCohortVal(rows: seq<CohortRow>): (m: int)
    ensures m >= 1
    ensures rows == [] ==> m == 1
    ensures forall x :: x in AllSpeeds(rows) ==> x <= m
    ensures m == 1 || m in AllSpeeds(rows)
  {
    if rows == [] then 1 else MaxOr(AllSpeeds(rows), 1)
  }

  /** `maxCohortVal` bounds every slot of every row. */
  lemma MaxCohortBounds(rows: seq<CohortRow>, k: nat, day: nat)
    requires k < |rows| && day < |rows[k].dailySpeed|
    ensures rows[k].dailySpeed[day] <= MaxCohortVal(rows)
  {
    SpeedIn(rows, k, day);
  }

  lemma {:induction false} SpeedIn(rows: seq<CohortRow>, k: nat, day: nat)
    requires k < |rows| && day < |rows[k].dailySpeed|
    ensures rows[k].dailySpeed[day] in AllSpeeds(rows)
  {
    if k > 0 {
      SpeedIn(rows[1..], k - 1, day);
    } else {
      assert AllSpeeds(rows)[day] == rows[0].dailySpeed[day];
    }
  }
}
