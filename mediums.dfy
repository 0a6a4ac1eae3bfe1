/** `mediumTableData`: valid signups, Google signups and form-validation
    efficiency per UTM medium, current against previous period. */
module Mediums {
  import opened Records
  import opened Dicts
  import opened Seqs
  import Acquisition

  /** Which signups a table counts. */
  datatype Kind = AllValid | GoogleOnly | FormTotal | FormValidOnly

  predicate Counts(u: User, kind: Kind)
  {
    match kind
    case AllValid => IsValid(u)
    case GoogleOnly => IsGoogle(u)
    case FormTotal => !IsGoogle(u)
    case FormValidOnly => !IsGoogle(u) && IsValid(u)
  }

  /** 1 when `u` is a signup of medium `m` created within `p` that `kind` counts. */
  function Hit(u: User, p: Period, m: string, kind: Kind): nat
  {
    if InRange(u, p) && Counts(u, kind) && MediumOf(u) == m then 1 else 0
  }

  /** Signups of medium `m` created within `p` that `kind` counts. */
  function CountBy(users: seq<User>, p: Period, m: string, kind: Kind): nat
  {
    if users == [] then 0
    else CountBy(users[..|users| - 1], p, m, kind) + Hit(users[|users| - 1], p, m, kind)
  }

  lemma CountByStep(users: seq<User>, k: nat, p: Period, kind: Kind)
    requires k < |users|
    ensures forall m :: CountBy(users[..k + 1], p, m, kind) == CountBy(users[..k], p, m, kind) + Hit(users[k], p, m, kind)
  {
    assert users[..k + 1][..k] == users[..k];
  }

  /** The efficiency numerator never exceeds its denominator. */
  lemma {:induction false} ValidAtMostFormTotal(users: seq<User>, p: Period, m: string)
    ensures CountBy(users, p, m, FormValidOnly) <= CountBy(users, p, m, FormTotal)
  {
    if users != [] {
      ValidAtMostFormTotal(users[..|users| - 1], p, m);
    }
  }

  /** The efficiency record `{t, v}` of one medium and period. */
  datatype Tally = Tally(t: nat, v: nat)

  /** Every entry holds one slot per period. */
  ghost predicate Wide<V>(d: Dict<seq<V>>, width: nat)
  {
    forall m :: m in d.vals ==> |d.vals[m]| == width
  }

  /** `dict[m]['p' + i] || 0`. */
  function Slot(d: Dict<seq<nat>>, m: string, i: nat): nat
  {
    if m in d.vals && i < |d.vals[m]| then d.vals[m][i] else 0
  }

  function SlotT(d: Dict<seq<Tally>>, m: string, i: nat): nat
  {
    if m in d.vals && i < |d.vals[m]| then d.vals[m][i].t else 0
  }

  function SlotV(d: Dict<seq<Tally>>, m: string, i: nat): nat
  {
    if m in d.vals && i < |d.vals[m]| then d.vals[m][i].v else 0
  }

  /** `dict[m]['p' + i]++`, creating the entry when it is missing. */
  function Bump(d: Dict<seq<nat>>, m: string, i: nat, width: nat): (r: Dict<seq<nat>>)
    requires Valid(d) && Wide(d, width) && i < width
    ensures Valid(r) && Wide(r, width)
    ensures forall m', j :: Slot(r, m', j) == Slot(d, m', j) + (if m' == m && j == i then 1 else 0)
  {
    var slots: seq<nat> := if m in d.vals then d.vals[m] else seq(width, _ => 0);
    Put(d, m, slots[i := slots[i] + 1])
  }

  /** `eff[m]['p' + i].t++`, and `.v++` as well when the signup is valid. */
  function BumpEff(d: Dict<seq<Tally>>, m: string, i: nat, width: nat, valid: bool): (r: Dict<seq<Tally>>)
    requires Valid(d) && Wide(d, width) && i < width
    ensures Valid(r) && Wide(r, width)
    ensures forall m', j :: SlotT(r, m', j) == SlotT(d, m', j) + (if m' == m && j == i then 1 else 0)
    ensures forall m', j :: SlotV(r, m', j) == SlotV(d, m', j) + (if m' == m && j == i && valid then 1 else 0)
  {
    var slots: seq<Tally> := if m in d.vals then d.vals[m] else seq(width, _ => Tally(0, 0));
    var cell := slots[i];
    Put(d, m, slots[i := Tally(cell.t + 1, if valid then cell.v + 1 else cell.v)])
  }

  /** The three dictionaries while they are being filled. */
  datatype Tables = Tables(all: Dict<seq<nat>>, google: Dict<seq<nat>>, eff: Dict<seq<Tally>>)

  ghost predicate TablesOk(t: Tables, width: nat)
  {
    Valid(t.all) && Wide(t.all, width) && Valid(t.google) && Wide(t.google, width)
    && Valid(t.eff) && Wide(t.eff, width)
  }

  /** The counts `t` holds after `users` of period `p` (number `i`) were added to `t0`. */
  ghost predicate Added(t: Tables, t0: Tables, users: seq<User>, p: Period, i: nat)
  {
    && (forall m, j :: Slot(t.all, m, j) == Slot(t0.all, m, j) + (if j == i then CountBy(users, p, m, AllValid) else 0))
    && (forall m, j :: Slot(t.google, m, j) == Slot(t0.google, m, j) + (if j == i then CountBy(users, p, m, GoogleOnly) else 0))
    && (forall m, j :: SlotT(t.eff, m, j) == SlotT(t0.eff, m, j) + (if j == i then CountBy(users, p, m, FormTotal) else 0))
    && (forall m, j :: SlotV(t.eff, m, j) == SlotV(t0.eff, m, j) + (if j == i then CountBy(users, p, m, FormValidOnly) else 0))
  }

  /** What one signup adds: `t` after `Step` is `t0` plus `u`'s hits in period number `i`. */
  ghost predicate AddedOne(t: Tables, t0: Tables, u: User, p: Period, i: nat)
  {
    && (forall m, j :: Slot(t.all, m, j) == Slot(t0.all, m, j) + (if j == i then Hit(u, p, m, AllValid) else 0))
    && (forall m, j :: Slot(t.google, m, j) == Slot(t0.google, m, j) + (if j == i then Hit(u, p, m, GoogleOnly) else 0))
    && (forall m, j :: SlotT(t.eff, m, j) == SlotT(t0.eff, m, j) + (if j == i then Hit(u, p, m, FormTotal) else 0))
    && (forall m, j :: SlotV(t.eff, m, j) == SlotV(t0.eff, m, j) + (if j == i then Hit(u, p, m, FormValidOnly) else 0))
  }

  /** One count table's share of the inner `forEach` body for signup `u`. */
  function StepCount(d: Dict<seq<nat>>, u: User, p: Period, i: nat, width: nat, kind: Kind): (r: Dict<seq<nat>>)
    requires i < width && Valid(d) && Wide(d, width)
    ensures Valid(r) && Wide(r, width)
    ensures forall m, j :: Slot(r, m, j) == Slot(d, m, j) + (if j == i then Hit(u, p, m, kind) else 0)
  {
    if InRange(u, p) && Counts(u, kind) then Bump(d, MediumOf(u), i, width) else d
  }

  /** The efficiency table's share of the inner `forEach` body for signup `u`. */
  function StepEff(d: Dict<seq<Tally>>, u: User, p: Period, i: nat, width: nat): (r: Dict<seq<Tally>>)
    requires i < width && Valid(d) && Wide(d, width)
    ensures Valid(r) && Wide(r, width)
    ensures forall m, j :: SlotT(r, m, j) == SlotT(d, m, j) + (if j == i then Hit(u, p, m, FormTotal) else 0)
    ensures forall m, j :: SlotV(r, m, j) == SlotV(d, m, j) + (if j == i then Hit(u, p, m, FormValidOnly) else 0)
  {
    if InRange(u, p) && !IsGoogle(u) then
      assert IsValid(u) == u.formValid;
      assert forall m :: Hit(u, p, m, FormTotal) == (if m == MediumOf(u) then 1 else 0);
      assert forall m :: Hit(u, p, m, FormValidOnly) == (if m == MediumOf(u) && u.formValid then 1 else 0);
      BumpEff(d, MediumOf(u), i, width, u.formValid)
    else
      assert forall m :: Hit(u, p, m, FormTotal) == 0 && Hit(u, p, m, FormValidOnly) == 0;
      d
  }

  /** The body of the inner `forEach` for one signup. */
  function Step(t: Tables, u: User, p: Period, i: nat, width: nat): (r: Tables)
    requires i < width && TablesOk(t, width)
    ensures TablesOk(r, width)
    ensures AddedOne(r, t, u, p, i)
  {
    Tables(StepCount(t.all, u, p, i, width, AllValid), StepCount(t.google, u, p, i, width, GoogleOnly),
           StepEff(t.eff, u, p, i, width))
  }

  /** The inner `rawUsers.forEach` for period number `i`. */
  method TallyPeriod(users: seq<User>, p: Period, i: nat, width: nat, t0: Tables) returns (t: Tables)
    requires i < width && TablesOk(t0, width)
    ensures TablesOk(t, width)
    ensures Added(t, t0, users, p, i)
  {
    t := t0;
    var k := 0;
    assert users[..0] == [];
    assert forall m, kind :: CountBy(users[..0], p, m, kind) == 0;
    while k < |users|
      invariant k <= |users| && TablesOk(t, width)
      invariant Added(t, t0, users[..k], p, i)
    {
      CountByStep(users, k, p, AllValid);
      CountByStep(users, k, p, GoogleOnly);
      CountByStep(users, k, p, FormTotal);
      CountByStep(users, k, p, FormValidOnly);
      t := Step(t, users[k], p, i, width);
      k := k + 1;
    }
    assert users[..|users|] == users;
  }

  /** The filled dictionaries: slot `j` of every medium holds the count of period `j`. */
  ghost predicate Filled(t: Tables, users: seq<User>, periods: seq<Period>)
  {
    && (forall m, j :: 0 <= j < |periods| ==> Slot(t.all, m, j) == CountBy(users, periods[j], m, AllValid))
    && (forall m, j :: 0 <= j < |periods| ==> Slot(t.google, m, j) == CountBy(users, periods[j], m, GoogleOnly))
    && (forall m, j :: 0 <= j < |periods| ==> SlotT(t.eff, m, j) == CountBy(users, periods[j], m, FormTotal))
    && (forall m, j :: 0 <= j < |periods| ==> SlotV(t.eff, m, j) == CountBy(users, periods[j], m, FormValidOnly))
  }

  /** `periods.forEach((p, i) => rawUsers.forEach(...))`. */
  method FillTables(users: seq<User>, periods: seq<Period>) returns (t: Tables)
    ensures TablesOk(t, |periods|)
    ensures Filled(t, users, periods)
  {
    var width := |periods|;
    t := Tables(Empty(), Empty(), Empty());
    var i := 0;
    while i < width
      invariant i <= width && TablesOk(t, width)
      invariant Filled(t, users, periods[..i])
      invariant forall m, j :: j >= i ==> Slot(t.all, m, j) == 0 && Slot(t.google, m, j) == 0
      invariant forall m, j :: j >= i ==> SlotT(t.eff, m, j) == 0 && SlotV(t.eff, m, j) == 0
    {
      t := TallyPeriod(users, periods[i], i, width, t);
      i := i + 1;
    }
    assert periods[..width] == periods;
  }

  /** A row of the `all` and `google` tables. */
  datatype MediumRow = MediumRow(key: string, p0: nat, p1: nat)

  /** A row of the efficiency table: percentages, and the current volume. */
  datatype EffRow = EffRow(key: string, p0: real, p1: real, vol: nat)

  function P0Count(r: MediumRow): real { r.p0 as real }

  function P0Rate(r: EffRow): real { r.p0 }

  predicate Active(r: MediumRow) { r.p0 > 0 || r.p1 > 0 }

  predicate HasVolume(r: EffRow) { r.vol > 0 }

  function RowKey(r: MediumRow): string { r.key }

  function EffKey(r: EffRow): string { r.key }

  /** A table lists each medium once. */
  ghost predicate KeysOnce(rows: seq<MediumRow>)
  {
    forall i, j :: 0 <= i < j < |rows| ==> rows[i].key != rows[j].key
  }

  ghost predicate EffKeysOnce(rows: seq<EffRow>)
  {
    forall i, j :: 0 <= i < j < |rows| ==> rows[i].key != rows[j].key
  }

  function CountRows(keys: seq<string>, d: Dict<seq<nat>>): (rows: seq<MediumRow>)
    ensures |rows| == |keys|
    ensures forall k :: 0 <= k < |keys| ==> rows[k] == MediumRow(keys[k], Slot(d, keys[k], 0), Slot(d, keys[k], 1))
  {
    if keys == [] then []
    else [MediumRow(keys[0], Slot(d, keys[0], 0), Slot(d, keys[0], 1))] + CountRows(keys[1..], d)
  }

  /** `o && o.t > 0 ? (o.v / o.t) * 100 : 0`. */
  function Efficiency(d: Dict<seq<Tally>>, m: string, i: nat): real
  {
    Acquisition.Percent(SlotV(d, m, i) as real, SlotT(d, m, i) as real)
  }

  function EfficiencyRows(keys: seq<string>, d: Dict<seq<Tally>>): (rows: seq<EffRow>)
    ensures |rows| == |keys|
    ensures forall k :: 0 <= k < |keys| ==>
      rows[k] == EffRow(keys[k], Efficiency(d, keys[k], 0), Efficiency(d, keys[k], 1), SlotT(d, keys[k], 0))
  {
    if keys == [] then []
    else [EffRow(keys[0], Efficiency(d, keys[0], 0), Efficiency(d, keys[0], 1), SlotT(d, keys[0], 0))]
         + EfficiencyRows(keys[1..], d)
  }

  /** `fmt(dict)`: rows sorted by current count, descending, then the idle ones dropped. */
  function Fmt(d: Dict<seq<nat>>): seq<MediumRow>
  {
    Filter(SortDesc(CountRows(d.keys, d), P0Count), Active)
  }

  /** `effRows`: rows sorted by current efficiency, descending, then those without
      current volume dropped. */
  function Eff(d: Dict<seq<Tally>>): seq<EffRow>
  {
    Filter(SortDesc(EfficiencyRows(d.keys, d), P0Rate), HasVolume)
  }

  /** What a table row of `all`/`google` holds for medium `r.key`. */
  ghost predicate RowCounts(r: MediumRow, users: seq<User>, periods: seq<Period>, kind: Kind)
    requires |periods| > 0
  {
    && r.p0 == CountBy(users, periods[0], r.key, kind)
    && r.p1 == (if |periods| > 1 then CountBy(users, periods[1], r.key, kind) else 0)
  }

  /** The dictionary `d` holds the counts of `kind`, one slot per period. */
  ghost predicate HoldsCounts(d: Dict<seq<nat>>, users: seq<User>, periods: seq<Period>, kind: Kind)
  {
    && Valid(d)
    && (forall m, j :: 0 <= j < |periods| ==> Slot(d, m, j) == CountBy(users, periods[j], m, kind))
    && (forall m, j :: j >= |periods| ==> Slot(d, m, j) == 0)
  }

  lemma FmtSound(d: Dict<seq<nat>>, users: seq<User>, periods: seq<Period>, kind: Kind)
    requires |periods| > 0 && HoldsCounts(d, users, periods, kind)
    ensures forall r :: r in Fmt(d) ==> RowCounts(r, users, periods, kind) && Active(r)
    ensures SortedDesc(Fmt(d), P0Count)
  {
    var rows := CountRows(d.keys, d);
    var sorted := SortDesc(rows, P0Count);
    FilterKeepsSorted(sorted, Active, P0Count);
    forall r | r in Fmt(d) ensures RowCounts(r, users, periods, kind) && Active(r) {
      assert r in multiset(sorted);
      assert r in multiset(rows);
    }
  }

  /** The count table lists each medium once. */
  lemma FmtKeys(d: Dict<seq<nat>>)
    requires Valid(d)
    ensures KeysOnce(Fmt(d))
  {
    var rows := CountRows(d.keys, d);
    assert DistinctBy(rows, RowKey);
    SortDistinct(rows, P0Count, RowKey);
    FilterDistinct(SortDesc(rows, P0Count), Active, RowKey);
  }

  lemma FmtComplete(d: Dict<seq<nat>>, users: seq<User>, periods: seq<Period>, kind: Kind, m: string)
    requires |periods| > 0 && HoldsCounts(d, users, periods, kind)
    requires CountBy(users, periods[0], m, kind) > 0 || (|periods| > 1 && CountBy(users, periods[1], m, kind) > 0)
    ensures exists r :: r in Fmt(d) && r.key == m
  {
    var rows := CountRows(d.keys, d);
    var sorted := SortDesc(rows, P0Count);
    assert Slot(d, m, 0) > 0 || Slot(d, m, 1) > 0;
    assert m in d.keys;
    var k :| 0 <= k < |d.keys| && d.keys[k] == m;
    var r := rows[k];
    assert r in multiset(rows);
    assert r in sorted;
    assert Active(r);
    assert r in Fmt(d);
  }

  /** What an efficiency row holds for medium `r.key`. */
  ghost predicate EffCounts(r: EffRow, users: seq<User>, periods: seq<Period>)
    requires |periods| > 0
  {
    && r.vol == CountBy(users, periods[0], r.key, FormTotal)
    && r.p0 == Acquisition.Percent(CountBy(users, periods[0], r.key, FormValidOnly) as real, r.vol as real)
    && 0.0 <= r.p0 <= 100.0 && 0.0 <= r.p1 <= 100.0
    && r.p1 == (if |periods| > 1
                then Acquisition.Percent(CountBy(users, periods[1], r.key, FormValidOnly) as real,
                                         CountBy(users, periods[1], r.key, FormTotal) as real)
                else 0.0)
  }

  /** The dictionary `d` holds the efficiency tallies, one slot per period. */
  ghost predicate HoldsTallies(d: Dict<seq<Tally>>, users: seq<User>, periods: seq<Period>)
  {
    && Valid(d)
    && (forall m, j :: 0 <= j < |periods| ==> SlotT(d, m, j) == CountBy(users, periods[j], m, FormTotal))
    && (forall m, j :: 0 <= j < |periods| ==> SlotV(d, m, j) == CountBy(users, periods[j], m, FormValidOnly))
    && (forall m, j :: j >= |periods| ==> SlotT(d, m, j) == 0 && SlotV(d, m, j) == 0)
  }

  lemma EffSound(d: Dict<seq<Tally>>, users: seq<User>, periods: seq<Period>)
    requires |periods| > 0 && HoldsTallies(d, users, periods)
    ensures forall r :: r in Eff(d) ==> EffCounts(r, users, periods) && r.vol > 0
    ensures SortedDesc(Eff(d), P0Rate)
  {
    var rows := EfficiencyRows(d.keys, d);
    var sorted := SortDesc(rows, P0Rate);
    FilterKeepsSorted(sorted, HasVolume, P0Rate);
    forall r | r in Eff(d) ensures EffCounts(r, users, periods) && r.vol > 0 {
      assert r in multiset(sorted);
      assert r in multiset(rows);
      ValidAtMostFormTotal(users, periods[0], r.key);
      if |periods| > 1 {
        ValidAtMostFormTotal(users, periods[1], r.key);
      }
    }
  }

  /** The efficiency table lists each medium once. */
  lemma EffKeys(d: Dict<seq<Tally>>)
    requires Valid(d)
    ensures EffKeysOnce(Eff(d))
  {
    var rows := EfficiencyRows(d.keys, d);
    assert DistinctBy(rows, EffKey);
    SortDistinct(rows, P0Rate, EffKey);
    FilterDistinct(SortDesc(rows, P0Rate), HasVolume, EffKey);
  }

  lemma EffComplete(d: Dict<seq<Tally>>, users: seq<User>, periods: seq<Period>, m: string)
    requires |periods| > 0 && HoldsTallies(d, users, periods)
    requires CountBy(users, periods[0], m, FormTotal) > 0
    ensures exists r :: r in Eff(d) && r.key == m
  {
    var rows := EfficiencyRows(d.keys, d);
    var sorted := SortDesc(rows, P0Rate);
    assert SlotT(d, m, 0) > 0;
    assert m in d.keys;
    var k :| 0 <= k < |d.keys| && d.keys[k] == m;
    var r := rows[k];
    assert r in multiset(rows);
    assert r in sorted;
    assert r in Eff(d);
  }

  datatype MediumTables = MediumTables(all: seq<MediumRow>, google: seq<MediumRow>, eff: seq<EffRow>)

  /** `mediumTableData`. */
  method MediumTableData(users: seq<User>, periods: seq<Period>) returns (r: MediumTables)
    ensures |periods| == 0 ==> r == MediumTables([], [], [])
    ensures |periods| > 0 ==>
      && (forall x :: x in r.all ==> RowCounts(x, users, periods, AllValid) && Active(x))
      && (forall x :: x in r.google ==> RowCounts(x, users, periods, GoogleOnly) && Active(x))
      && (forall x :: x in r.eff ==> EffCounts(x, users, periods) && x.vol > 0)
    ensures SortedDesc(r.all, P0Count) && SortedDesc(r.google, P0Count) && SortedDesc(r.eff, P0Rate)
    ensures KeysOnce(r.all) && KeysOnce(r.google) && EffKeysOnce(r.eff)
    ensures |periods| > 0 ==>
      && (forall m :: CountBy(users, periods[0], m, AllValid) > 0 ==> exists x :: x in r.all && x.key == m)
      && (forall m :: CountBy(users, periods[0], m, GoogleOnly) > 0 ==> exists x :: x in r.google && x.key == m)
      && (forall m :: CountBy(users, periods[0], m, FormTotal) > 0 ==> exists x :: x in r.eff && x.key == m)
    ensures |periods| > 1 ==>
      && (forall m :: CountBy(users, periods[1], m, AllValid) > 0 ==> exists x :: x in r.all && x.key == m)
      && (forall m :: CountBy(users, periods[1], m, GoogleOnly) > 0 ==> exists x :: x in r.google && x.key == m)
  {
    if |periods| == 0 {
      return MediumTables([], [], []);
    }
    var t := FillTables(users, periods);
    FmtSound(t.all, users, periods, AllValid);
    FmtSound(t.google, users, periods, GoogleOnly);
    EffSound(t.eff, users, periods);
    FmtKeys(t.all);
    FmtKeys(t.google);
    EffKeys(t.eff);
    r := MediumTables(Fmt(t.all), Fmt(t.google), Eff(t.eff));
    forall m | CountBy(users, periods[0], m, AllValid) > 0 ensures exists x :: x in r.all && x.key == m {
      FmtComplete(t.all, users, periods, AllValid, m);
    }
    forall m | CountBy(users, periods[0], m, GoogleOnly) > 0 ensures exists x :: x in r.google && x.key == m {
      FmtComplete(t.google, users, periods, GoogleOnly, m);
    }
    forall m | CountBy(users, periods[0], m, FormTotal) > 0 ensures exists x :: x in r.eff && x.key == m {
      EffComplete(t.eff, users, periods, m);
    }
    if |periods| > 1 {
      forall m | CountBy(users, periods[1], m, AllValid) > 0 ensures exists x :: x in r.all && x.key == m {
        FmtComplete(t.all, users, periods, AllValid, m);
      }
      forall m | CountBy(users, periods[1], m, GoogleOnly) > 0 ensures exists x :: x in r.google && x.key == m {
        FmtComplete(t.google, users, periods, GoogleOnly, m);
      }
    }
  }
}
