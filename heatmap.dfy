/** `entityMetrics`: valid signups per profession and per UTM campaign, day by day
    over the current period, with the totals of both periods and the standout rows. */
module Heatmap {
  import opened Wrappers
  import opened Text
  import opened Records
  import opened Dicts
  import opened Seqs

  /** `dates[k]` is day `start + k`. */
  ghost predicate Consecutive(dates: seq<int>, start: int)
  {
    forall k :: 0 <= k < |dates| ==> dates[k] == start + k
  }

  ghost predicate Distinct(dates: seq<int>)
  {
    forall a, b :: 0 <= a < b < |dates| ==> dates[a] != dates[b]
  }

  /** The days of the current period, one per step of `currD.setDate(currD.getDate() + 1)`. */
  method DayRange(start: int, end: int) returns (dates: seq<int>)
    ensures |dates| == if start <= end then end - start + 1 else 0
    ensures Consecutive(dates, start)
  {
    dates := [];
    var d := start;
    while d <= end
      invariant d == start + |dates|
      invariant dates == [] || d <= end + 1
      invariant Consecutive(dates, start)
      decreases end - d
    {
      dates := dates + [d];
      d := d + 1;
    }
  }

  /** `dates.findIndex(date => same day as d)`. */
  function FindDay(dates: seq<int>, d: int): (r: int)
    ensures -1 <= r < |dates|
    ensures r >= 0 ==> dates[r] == d
    ensures r == -1 <==> forall j :: 0 <= j < |dates| ==> dates[j] != d
  {
    var r := FindFirst(dates, IsDay(d));
    assert forall j :: 0 <= j < |dates| ==> (IsDay(d)(dates[j]) <==> dates[j] == d);
    r
  }

  /** The test of `dates.findIndex` for day `d`. */
  function IsDay(d: int): int -> bool
  {
    x => x == d
  }

  /** Which column a breakdown is keyed by. */
  datatype Field = Profession | Campaign

  /** `u[keyField] || '(vazio)'`. */
  function RawKey(u: User, field: Field): (k: string)
    ensures k != ""
  {
    var v := if field == Profession then u.profession else u.campaign;
    if v == "" then "(vazio)" else v
  }

  /** `t.toLowerCase() === key.trim().toLowerCase()`. */
  predicate SameName(t: string, key: string)
  {
    ToLower(t) == ToLower(Trim(key))
  }

  /** The test of `TARGET_PROFESSIONS.find` for `key`. */
  function Names(key: string): string -> bool
  {
    t => SameName(t, key)
  }

  /** The spelling of the first target profession that `key` names, or `Outros`. */
  function NormalizeProfession(targets: seq<string>, key: string): (r: string)
    ensures r == "Outros" || r in targets
    ensures (exists j :: 0 <= j < |targets| && SameName(targets[j], key)) ==> SameName(r, key)
    ensures (forall j :: 0 <= j < |targets| ==> !SameName(targets[j], key)) ==> r == "Outros"
  {
    var i := FindFirst(targets, Names(key));
    assert forall j :: 0 <= j < |targets| ==> (Names(key)(targets[j]) <==> SameName(targets[j], key));
    if i >= 0 then targets[i] else "Outros"
  }

  /** The first match wins: no earlier target also matches. */
  lemma NormalizeProfessionFirst(targets: seq<string>, key: string, j: nat)
    requires j < |targets| && SameName(targets[j], key)
    requires forall k :: 0 <= k < j ==> !SameName(targets[k], key)
    ensures NormalizeProfession(targets, key) == targets[j]
  {
    FindFirstAt(targets, Names(key), j);
  }

  /** What one breakdown needs besides the signups. */
  datatype Agg = Agg(field: Field, targets: seq<string>, cur: Period, prev: Period, dates: seq<int>)

  /** The key a signup is counted under. */
  function KeyOf(u: User, ctx: Agg): (k: string)
    ensures ctx.field == Campaign ==> k == RawKey(u, Campaign)
    ensures ctx.field == Profession ==> k == "Outros" || k in ctx.targets
  {
    var raw := RawKey(u, ctx.field);
    if ctx.field == Profession then NormalizeProfession(ctx.targets, raw) else raw
  }

  /** A signup the breakdown looks at: it has a creation day and is valid. */
  predicate Counted(u: User)
  {
    u.created.Some? && IsValid(u)
  }

  function InPeriod(u: User, ctx: Agg, key: string, p: Period): nat
  {
    if Counted(u) && InRange(u, p) && KeyOf(u, ctx) == key then 1 else 0
  }

  function OnDay(u: User, ctx: Agg, key: string, day: int): nat
  {
    if Counted(u) && InRange(u, ctx.cur) && KeyOf(u, ctx) == key && u.created.value == day then 1 else 0
  }

  /** Valid signups under `key` created within `p`. */
  function CountKey(users: seq<User>, ctx: Agg, key: string, p: Period): nat
  {
    if users == [] then 0
    else CountKey(users[..|users| - 1], ctx, key, p) + InPeriod(users[|users| - 1], ctx, key, p)
  }

  /** Valid signups under `key` created on `day` of the current period. */
  function CountDay(users: seq<User>, ctx: Agg, key: string, day: int): nat
  {
    if users == [] then 0
    else CountDay(users[..|users| - 1], ctx, key, day) + OnDay(users[|users| - 1], ctx, key, day)
  }

  /** `AggregatedRow`: `daily[k]` counts the day `dates[k]`. */
  datatype AggregatedRow = AggregatedRow(name: string, total: nat, prev: nat, daily: seq<int>)

  /** The row the breakdown should hold for `key` after `users`. */
  function Entry(users: seq<User>, ctx: Agg, key: string): (r: AggregatedRow)
    ensures r.name == key && |r.daily| == |ctx.dates|
  {
    AggregatedRow(key, CountKey(users, ctx, key, ctx.cur), CountKey(users, ctx, key, ctx.prev),
                  seq(|ctx.dates|, j requires 0 <= j < |ctx.dates| => CountDay(users, ctx, key, ctx.dates[j])))
  }

  /** What a counted signup adds to its row: the current total and its day cell,
      and the previous total. */
  function AddUser(row: AggregatedRow, u: User, ctx: Agg): (r: AggregatedRow)
    requires u.created.Some? && |row.daily| == |ctx.dates|
    ensures r.name == row.name && |r.daily| == |ctx.dates|
  {
    var d := u.created.value;
    var row1 :=
      if Within(d, ctx.cur) then
        var idx := FindDay(ctx.dates, d);
        AggregatedRow(row.name, row.total + 1, row.prev,
                      if idx >= 0 then row.daily[idx := row.daily[idx] + 1] else row.daily)
      else row;
    if Within(d, ctx.prev) then row1.(prev := row1.prev + 1) else row1
  }

  lemma EntryStep(users: seq<User>, i: nat, ctx: Agg, key: string)
    requires i < |users| && Distinct(ctx.dates)
    ensures Entry(users[..i + 1], ctx, key)
         == if Counted(users[i]) && KeyOf(users[i], ctx) == key
            then AddUser(Entry(users[..i], ctx, key), users[i], ctx)
            else Entry(users[..i], ctx, key)
  {
    if Counted(users[i]) && KeyOf(users[i], ctx) == key {
      EntryAdd(users, i, ctx, key);
    } else {
      EntrySkip(users, i, ctx, key);
    }
  }

  /** A signup the row does not count leaves it as it was. */
  lemma EntrySkip(users: seq<User>, i: nat, ctx: Agg, key: string)
    requires i < |users| && !(Counted(users[i]) && KeyOf(users[i], ctx) == key)
    ensures Entry(users[..i + 1], ctx, key) == Entry(users[..i], ctx, key)
  {
    var us := users[..i + 1];
    assert us[..i] == users[..i];
    var e0 := Entry(users[..i], ctx, key);
    var e1 := Entry(us, ctx, key);
    assert e1.daily == e0.daily;
  }

  /** A signup the row counts adds what `AddUser` adds. */
  lemma EntryAdd(users: seq<User>, i: nat, ctx: Agg, key: string)
    requires i < |users| && Distinct(ctx.dates) && Counted(users[i]) && KeyOf(users[i], ctx) == key
    ensures Entry(users[..i + 1], ctx, key) == AddUser(Entry(users[..i], ctx, key), users[i], ctx)
  {
    var us := users[..i + 1];
    assert us[..i] == users[..i];
    var u := users[i];
    var e0 := Entry(users[..i], ctx, key);
    var e1 := Entry(us, ctx, key);
    var a := AddUser(e0, u, ctx);
    forall j | 0 <= j < |ctx.dates| ensures a.daily[j] == e1.daily[j] {
      DayAdd(users, i, ctx, key, j);
    }
    assert a.daily == e1.daily;
  }

  /** The day cell `j` of a counted signup's row after it is counted. */
  lemma DayAdd(users: seq<User>, i: nat, ctx: Agg, key: string, j: nat)
    requires i < |users| && Distinct(ctx.dates) && Counted(users[i]) && KeyOf(users[i], ctx) == key
    requires j < |ctx.dates|
    ensures AddUser(Entry(users[..i], ctx, key), users[i], ctx).daily[j] == CountDay(users[..i + 1], ctx, key, ctx.dates[j])
  {
    var us := users[..i + 1];
    assert us[..i] == users[..i];
    var u := users[i];
    var d := u.created.value;
    var e0 := Entry(users[..i], ctx, key);
    var a := AddUser(e0, u, ctx);
    assert e0.daily[j] == CountDay(users[..i], ctx, key, ctx.dates[j]);
    assert CountDay(us, ctx, key, ctx.dates[j]) == e0.daily[j] + OnDay(u, ctx, key, ctx.dates[j]);
    if Within(d, ctx.cur) {
      var idx := FindDay(ctx.dates, d);
      if ctx.dates[j] == d {
        assert idx == j;
      } else if idx >= 0 {
        assert a.daily[j] == e0.daily[j];
      }
    }
  }

  lemma {:induction false} NoneCounted(users: seq<User>, ctx: Agg, key: string)
    requires forall j :: 0 <= j < |users| && Counted(users[j]) ==> KeyOf(users[j], ctx) != key
    ensures forall p :: CountKey(users, ctx, key, p) == 0
    ensures forall day :: CountDay(users, ctx, key, day) == 0
  {
    if users != [] {
      NoneCounted(users[..|users| - 1], ctx, key);
    }
  }

  /** A key no counted signup had starts from an empty row. */
  lemma EntryAbsent(users: seq<User>, ctx: Agg, key: string)
    requires forall j :: 0 <= j < |users| && Counted(users[j]) ==> KeyOf(users[j], ctx) != key
    ensures Entry(users, ctx, key) == AggregatedRow(key, 0, 0, Zeros(|ctx.dates|))
  {
    NoneCounted(users, ctx, key);
    assert Entry(users, ctx, key).daily == Zeros(|ctx.dates|);
  }

  /** `dates` are exactly the days of the current period. */
  ghost predicate Fits(ctx: Agg)
  {
    && |ctx.dates| == (if ctx.cur.start <= ctx.cur.end then ctx.cur.end - ctx.cur.start + 1 else 0)
    && Consecutive(ctx.dates, ctx.cur.start)
  }

  /** The day cells of a row add up to its current total. */
  lemma {:induction false} DailySum(users: seq<User>, ctx: Agg, key: string)
    requires Fits(ctx)
    ensures Sum(Entry(users, ctx, key).daily) == Entry(users, ctx, key).total
    decreases |users|
  {
    if users == [] {
      assert Entry(users, ctx, key).daily == Zeros(|ctx.dates|);
    } else {
      DailySum(users[..|users| - 1], ctx, key);
      DailySumStep(users, ctx, key);
    }
  }

  /** Counting the last signup keeps the day cells adding up to the total. */
  lemma DailySumStep(users: seq<User>, ctx: Agg, key: string)
    requires users != [] && Fits(ctx)
    requires var e0 := Entry(users[..|users| - 1], ctx, key); Sum(e0.daily) == e0.total
    ensures Sum(Entry(users, ctx, key).daily) == Entry(users, ctx, key).total
  {
    var n := |users| - 1;
    assert users[..n + 1] == users;
    EntryStep(users, n, ctx, key);
    var u := users[n];
    var e0 := Entry(users[..n], ctx, key);
    if Counted(u) && KeyOf(u, ctx) == key {
      var d := u.created.value;
      var e1 := AddUser(e0, u, ctx);
      if Within(d, ctx.cur) {
        assert ctx.dates[d - ctx.cur.start] == d;
        var idx := FindDay(ctx.dates, d);
        assert e1.daily == e0.daily[idx := e0.daily[idx] + 1] && e1.total == e0.total + 1;
        SumBump(e0.daily, idx);
      } else {
        assert e1.daily == e0.daily && e1.total == e0.total;
      }
    }
  }

  /** `d` holds the rows of `users`: each stored row is the one its key should
      have, and every counted signup's key is stored. */
  ghost predicate Holds(d: Dict<AggregatedRow>, users: seq<User>, ctx: Agg)
  {
    && Valid(d)
    && (forall k :: k in d.vals ==> d.vals[k] == Entry(users, ctx, k))
    && (forall j :: 0 <= j < |users| && Counted(users[j]) ==> KeyOf(users[j], ctx) in d.vals)
  }

  /** The body of the `rawUsers.forEach` of `aggregate` for one signup. */
  function Visit(d: Dict<AggregatedRow>, u: User, ctx: Agg): (r: Dict<AggregatedRow>)
    requires Valid(d) && forall k :: k in d.vals ==> |d.vals[k].daily| == |ctx.dates|
    ensures Valid(r) && forall k :: k in r.vals ==> |r.vals[k].daily| == |ctx.dates|
  {
    if u.created.Some? && IsValid(u) then
      var key := KeyOf(u, ctx);
      var row := if key in d.vals then d.vals[key] else AggregatedRow(key, 0, 0, Zeros(|ctx.dates|));
      Put(d, key, AddUser(row, u, ctx))
    else d
  }

  lemma VisitStep(users: seq<User>, i: nat, ctx: Agg, d: Dict<AggregatedRow>)
    requires i < |users| && Distinct(ctx.dates) && Holds(d, users[..i], ctx)
    ensures Holds(Visit(d, users[i], ctx), users[..i + 1], ctx)
  {
    var u := users[i];
    var r := Visit(d, u, ctx);
    if Counted(u) && KeyOf(u, ctx) !in d.vals {
      EntryAbsent(users[..i], ctx, KeyOf(u, ctx));
    }
    forall k | k in r.vals ensures r.vals[k] == Entry(users[..i + 1], ctx, k) {
      EntryStep(users, i, ctx, k);
    }
    var us := users[..i + 1];
    forall j | 0 <= j < i + 1 && Counted(us[j]) ensures KeyOf(us[j], ctx) in r.vals {
      if j < i {
        assert us[j] == users[..i][j];
      }
    }
  }

  /** The `rawUsers.forEach` of `aggregate`: one row per key met, in first-seen order. */
  method Aggregate(users: seq<User>, ctx: Agg) returns (d: Dict<AggregatedRow>)
    requires Distinct(ctx.dates)
    ensures Holds(d, users, ctx)
  {
    d := Empty();
    var i := 0;
    while i < |users|
      invariant i <= |users| && Holds(d, users[..i], ctx)
    {
      VisitStep(users, i, ctx, d);
      d := Visit(d, users[i], ctx);
      i := i + 1;
    }
    assert users[..|users|] == users;
  }

  predicate Active(r: AggregatedRow) { r.total > 0 || r.prev > 0 }

  /** Not a placeholder name: `(vazio)`, `-` or blank. */
  predicate Named(r: AggregatedRow) { r.name != "(vazio)" && r.name != "-" && Trim(r.name) != "" }

  function TotalKey(r: AggregatedRow): real { r.total as real }

  /** `total - prev`. */
  function Growth(r: AggregatedRow): real { (r.total as int - r.prev as int) as real }

  /** Ascending growth, as a descending key. */
  function Decline(r: AggregatedRow): real { -Growth(r) }

  /** `topVolume`: the first of the rows sorted by total. */
  function TopVolume(valid: seq<AggregatedRow>): (t: Option<AggregatedRow>)
    requires SortedDesc(valid, TotalKey)
    ensures t.None? <==> valid == []
    ensures t.Some? ==> t.value in valid && forall r :: r in valid ==> r.total <= t.value.total
  {
    if |valid| > 0 then HeadIsMax(valid, TotalKey); Some(valid[0]) else None
  }

  /** `topGrowth`: the row with the largest rise, when some row rose. */
  function TopGrowth(valid: seq<AggregatedRow>): (t: Option<AggregatedRow>)
    ensures t.Some? ==> t.value in valid && Growth(t.value) > 0.0
    ensures t.Some? ==> forall r :: r in valid ==> Growth(r) <= Growth(t.value)
    ensures t.None? ==> forall r :: r in valid ==> Growth(r) <= 0.0
  {
    var s := SortDesc(valid, Growth);
    if |s| > 0 then
      SortHeadIsMax(valid, Growth);
      if Growth(s[0]) > 0.0 then Some(s[0]) else None
    else None
  }

  /** `topDrop`: the row with the largest fall, when some row fell. */
  function TopDrop(valid: seq<AggregatedRow>): (t: Option<AggregatedRow>)
    ensures t.Some? ==> t.value in valid && Growth(t.value) < 0.0
    ensures t.Some? ==> forall r :: r in valid ==> Growth(t.value) <= Growth(r)
    ensures t.None? ==> forall r :: r in valid ==> Growth(r) >= 0.0
  {
    var s := SortDesc(valid, Decline);
    if |s| > 0 then
      SortHeadIsMax(valid, Decline);
      if Growth(s[0]) < 0.0 then Some(s[0]) else None
    else None
  }

  /** `rows.flatMap(r => r.daily)`. */
  function AllDaily(rows: seq<AggregatedRow>): (cells: seq<int>)
    ensures forall i, j :: 0 <= i < |rows| && 0 <= j < |rows[i].daily| ==> rows[i].daily[j] in cells
  {
    if rows == [] then []
    else
      var rest := AllDaily(rows[1..]);
      assert forall i :: 1 <= i < |rows| ==> rows[i] == rows[1..][i - 1];
      assert forall j :: 0 <= j < |rows[0].daily| ==> (rows[0].daily + rest)[j] == rows[0].daily[j];
      rows[0].daily + rest
  }

  /** What `aggregate` returns. */
  datatype Breakdown = Breakdown(rows: seq<AggregatedRow>, topVolume: Option<AggregatedRow>,
                                 topGrowth: Option<AggregatedRow>, topDrop: Option<AggregatedRow>,
                                 maxDaily: int)

  /** `rows`: those with a count in either period, by current total. */
  function Rows(d: Dict<AggregatedRow>): seq<AggregatedRow>
    requires Valid(d)
  {
    SortDesc(Filter(Values(d), Active), TotalKey)
  }

  /** The rows, and the standouts among the named rows. */
  function Summarize(d: Dict<AggregatedRow>): Breakdown
    requires Valid(d)
  {
    Summary(Rows(d))
  }

  /** The breakdown of rows already sorted by current total. */
  function Summary(rows: seq<AggregatedRow>): Breakdown
    requires SortedDesc(rows, TotalKey)
  {
    var valid := Filter(rows, Named);
    FilterKeepsSorted(rows, Named, TotalKey);
    Breakdown(rows, TopVolume(valid), TopGrowth(valid), TopDrop(valid), MaxOr(AllDaily(rows), 1))
  }

  /** The standout rows of a breakdown: the largest total, rise and fall among the named rows. */
  ghost predicate Leaders(b: Breakdown)
  {
    && (b.topVolume.None? <==> (forall r :: r in b.rows ==> !Named(r)))
    && (b.topVolume.Some? ==>
          b.topVolume.value in b.rows && Named(b.topVolume.value)
          && forall r :: r in b.rows && Named(r) ==> r.total <= b.topVolume.value.total)
    && (b.topGrowth.Some? ==>
          b.topGrowth.value in b.rows && Named(b.topGrowth.value) && Growth(b.topGrowth.value) > 0.0
          && forall r :: r in b.rows && Named(r) ==> Growth(r) <= Growth(b.topGrowth.value))
    && (b.topGrowth.None? ==> forall r :: r in b.rows && Named(r) ==> Growth(r) <= 0.0)
    && (b.topDrop.Some? ==>
          b.topDrop.value in b.rows && Named(b.topDrop.value) && Growth(b.topDrop.value) < 0.0
          && forall r :: r in b.rows && Named(r) ==> Growth(b.topDrop.value) <= Growth(r))
    && (b.topDrop.None? ==> forall r :: r in b.rows && Named(r) ==> Growth(r) >= 0.0)
  }

  /** The heat scale of a breakdown: the largest day cell, or 1 when that is larger. */
  ghost predicate Scaled(b: Breakdown)
  {
    && b.maxDaily >= 1
    && (forall i, j :: 0 <= i < |b.rows| && 0 <= j < |b.rows[i].daily| ==> b.rows[i].daily[j] <= b.maxDaily)
    && (b.maxDaily == 1 || b.maxDaily in AllDaily(b.rows))
  }

  /** The standout rows and the heat scale of a breakdown. */
  ghost predicate Standouts(b: Breakdown)
  {
    Leaders(b) && Scaled(b)
  }

  lemma SummarizeStandouts(d: Dict<AggregatedRow>)
    requires Valid(d)
    ensures Standouts(Summarize(d))
    ensures SortedDesc(Summarize(d).rows, TotalKey)
  {
    SummaryLeaders(Rows(d));
    SummaryScaled(Rows(d));
  }

  lemma SummaryLeaders(rows: seq<AggregatedRow>)
    requires SortedDesc(rows, TotalKey)
    ensures Leaders(Summary(rows))
  {
    var valid := Filter(rows, Named);
    assert forall r :: r in rows && Named(r) <==> r in valid by {
      forall r | r in rows && Named(r) ensures r in valid {
        var k :| 0 <= k < |rows| && rows[k] == r;
      }
    }
  }

  lemma SummaryScaled(rows: seq<AggregatedRow>)
    requires SortedDesc(rows, TotalKey)
    ensures Scaled(Summary(rows))
  {
    var m := MaxOr(AllDaily(rows), 1);
    assert Summary(rows).maxDaily == m;
    forall i, j | 0 <= i < |rows| && 0 <= j < |rows[i].daily| ensures rows[i].daily[j] <= m {
      CellBelow(rows, i, j);
    }
  }

  /** No day cell of any row is above the largest of them all. */
  lemma CellBelow(rows: seq<AggregatedRow>, i: nat, j: nat)
    requires i < |rows| && j < |rows[i].daily|
    ensures rows[i].daily[j] <= MaxOr(AllDaily(rows), 1)
  {
    var cells := AllDaily(rows);
    assert rows[i].daily[j] in cells;
    var k :| 0 <= k < |cells| && cells[k] == rows[i].daily[j];
  }

  /** A counted signup of period `p` makes its key's count in `p` positive. */
  lemma {:induction false} CountKeyPositive(users: seq<User>, j: nat, ctx: Agg, p: Period)
    requires j < |users| && Counted(users[j]) && InRange(users[j], p)
    ensures CountKey(users, ctx, KeyOf(users[j], ctx), p) >= 1
  {
    var n := |users| - 1;
    if j < n {
      assert users[..n][j] == users[j];
      CountKeyPositive(users[..n], j, ctx, p);
    }
  }

  /** What `aggregate` promises about the signups it reads. */
  ghost predicate BreakdownOf(b: Breakdown, users: seq<User>, ctx: Agg)
  {
    && (forall r :: r in b.rows ==> r == Entry(users, ctx, r.name) && Active(r) && Sum(r.daily) == r.total)
    && (forall j :: 0 <= j < |users| && Counted(users[j]) && (InRange(users[j], ctx.cur) || InRange(users[j], ctx.prev))
          ==> exists r :: r in b.rows && r.name == KeyOf(users[j], ctx))
    && (forall i, j :: 0 <= i < j < |b.rows| ==> b.rows[i].name != b.rows[j].name)
    && SortedDesc(b.rows, TotalKey)
    && Standouts(b)
  }

  function RowName(r: AggregatedRow): string { r.name }

  /** The listed rows carry distinct names, as the dictionary's keys are distinct. */
  lemma RowsNamesOnce(d: Dict<AggregatedRow>, users: seq<User>, ctx: Agg)
    requires Holds(d, users, ctx)
    ensures DistinctBy(Rows(d), RowName)
  {
    var vs := Values(d);
    assert DistinctBy(vs, RowName);
    FilterDistinct(vs, Active, RowName);
    SortDistinct(Filter(vs, Active), TotalKey, RowName);
  }

  /** Every listed row is the row of its key, has a count, and its days add up. */
  lemma RowSound(d: Dict<AggregatedRow>, users: seq<User>, ctx: Agg, r: AggregatedRow)
    requires Fits(ctx) && Holds(d, users, ctx) && r in Rows(d)
    ensures r == Entry(users, ctx, r.name) && Active(r) && Sum(r.daily) == r.total
  {
    var vs := Values(d);
    var active := Filter(vs, Active);
    assert r in multiset(active);
    var k :| 0 <= k < |active| && active[k] == r;
    var m :| 0 <= m < |vs| && vs[m] == r;
    DailySum(users, ctx, r.name);
  }

  /** Every key with a signup in either period is listed. */
  lemma RowsComplete(d: Dict<AggregatedRow>, users: seq<User>, ctx: Agg, j: nat)
    requires Holds(d, users, ctx)
    requires j < |users| && Counted(users[j]) && (InRange(users[j], ctx.cur) || InRange(users[j], ctx.prev))
    ensures exists r :: r in Rows(d) && r.name == KeyOf(users[j], ctx)
  {
    var vs := Values(d);
    var active := Filter(vs, Active);
    var key := KeyOf(users[j], ctx);
    if InRange(users[j], ctx.cur) {
      CountKeyPositive(users, j, ctx, ctx.cur);
    } else {
      CountKeyPositive(users, j, ctx, ctx.prev);
    }
    var m :| 0 <= m < |d.keys| && d.keys[m] == key;
    assert vs[m] == Entry(users, ctx, key) && Active(vs[m]);
    assert vs[m] in active;
    assert vs[m] in multiset(Rows(d));
  }

  /** `aggregate(keyField, isProfession)`. */
  method AggregateField(users: seq<User>, ctx: Agg) returns (b: Breakdown)
    requires Fits(ctx)
    ensures BreakdownOf(b, users, ctx)
  {
    var d := Aggregate(users, ctx);
    b := Summarize(d);
    SummarizeStandouts(d);
    RowsNamesOnce(d, users, ctx);
    forall r | r in b.rows ensures r == Entry(users, ctx, r.name) && Active(r) && Sum(r.daily) == r.total {
      RowSound(d, users, ctx, r);
    }
    forall j | 0 <= j < |users| && Counted(users[j]) && (InRange(users[j], ctx.cur) || InRange(users[j], ctx.prev))
      ensures exists r :: r in b.rows && r.name == KeyOf(users[j], ctx)
    {
      RowsComplete(d, users, ctx, j);
    }
  }

  /** What `entityMetrics` returns: the days of the current period and the two breakdowns. */
  datatype Metrics = Metrics(dates: seq<int>, profession: Breakdown, campaign: Breakdown)

  /** `entityMetrics`: nothing without two periods; otherwise the profession breakdown,
      its keys folded onto `targets` (`TARGET_PROFESSIONS`), and the campaign breakdown. */
  method EntityMetrics(users: seq<User>, periods: seq<Period>, targets: seq<string>) returns (m: Option<Metrics>)
    ensures m.None? <==> |periods| < 2
    ensures m.Some? ==>
      var cur := periods[0];
      && |m.value.dates| == (if cur.start <= cur.end then cur.end - cur.start + 1 else 0)
      && Consecutive(m.value.dates, cur.start)
      && BreakdownOf(m.value.profession, users, Agg(Profession, targets, cur, periods[1], m.value.dates))
      && BreakdownOf(m.value.campaign, users, Agg(Campaign, targets, cur, periods[1], m.value.dates))
  {
    if |periods| < 2 {
      return None;
    }
    var cur := periods[0];
    var dates := DayRange(cur.start, cur.end);
    var profession := AggregateField(users, Agg(Profession, targets, cur, periods[1], dates));
    var campaign := AggregateField(users, Agg(Campaign, targets, cur, periods[1], dates));
    m := Some(Metrics(dates, profession, campaign));
  }
}
