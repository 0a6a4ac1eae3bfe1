/** Lead acquisition: the scorecard of current against previous period
    (`weeklyScorecardData`), the per-period validation breakdown
    (`validadosData`), and the percentage rules of the `Trend` badge. */
module Acquisition {
  import opened Wrappers
  import opened Records

  /** Signups created within `p`. */
  function CountIn(users: seq<User>, p: Period): nat
  {
    if users == [] then 0
    else CountIn(users[..|users| - 1], p) + (if InRange(users[|users| - 1], p) then 1 else 0)
  }

  /** Signups created within `p` that fall in class `c`. */
  function CountClass(users: seq<User>, p: Period, c: Validity): nat
  {
    if users == [] then 0
    else
      var u := users[|users| - 1];
      CountClass(users[..|users| - 1], p, c) + (if InRange(u, p) && Classify(u) == c then 1 else 0)
  }

  /** Valid signups created within `p`. */
  function CountValid(users: seq<User>, p: Period): nat
  {
    if users == [] then 0
    else
      var u := users[|users| - 1];
      CountValid(users[..|users| - 1], p) + (if InRange(u, p) && IsValid(u) then 1 else 0)
  }

  /** The three classes partition the signups of a period, and the valid ones
      are exactly the Google and the form-valid ones. */
  lemma {:induction false} Partition(users: seq<User>, p: Period)
    ensures CountIn(users, p)
         == CountClass(users, p, Google) + CountClass(users, p, FormValid) + CountClass(users, p, FormInvalid)
    ensures CountValid(users, p) == CountClass(users, p, Google) + CountClass(users, p, FormValid)
  {
    if users != [] {
      Partition(users[..|users| - 1], p);
    }
  }

  /** What one more signup adds to each count. */
  lemma CountStep(users: seq<User>, i: nat, p: Period)
    requires i < |users|
    ensures CountIn(users[..i + 1], p) == CountIn(users[..i], p) + (if InRange(users[i], p) then 1 else 0)
    ensures CountValid(users[..i + 1], p)
         == CountValid(users[..i], p) + (if InRange(users[i], p) && IsValid(users[i]) then 1 else 0)
  {
    assert users[..i + 1][..i] == users[..i];
  }

  lemma ClassStep(users: seq<User>, i: nat, p: Period, c: Validity)
    requires i < |users|
    ensures CountClass(users[..i + 1], p, c)
         == CountClass(users[..i], p, c) + (if InRange(users[i], p) && Classify(users[i]) == c then 1 else 0)
  {
    assert users[..i + 1][..i] == users[..i];
  }

  lemma ValidAtMostTotal(users: seq<User>, p: Period)
    ensures CountValid(users, p) <= CountIn(users, p)
  {
    Partition(users, p);
  }

  /** `whole > 0 ? (part / whole) * 100 : 0`. */
  function Percent(part: real, whole: real): (r: real)
    ensures whole <= 0.0 ==> r == 0.0
    ensures whole > 0.0 ==> r * whole == part * 100.0
    ensures 0.0 <= part <= whole ==> 0.0 <= r <= 100.0
  {
    if whole > 0.0 then part / whole * 100.0 else 0.0
  }

  /** The scorecard's `varValid`: the relative change of the valid count, 0 when
      the previous period had no valid signup. */
  function Variation(curr: nat, prev: nat): (r: real)
    ensures prev == 0 ==> r == 0.0
    ensures prev > 0 ==> r * prev as real == (curr - prev) as real * 100.0
    ensures prev > 0 ==> (r >= 0.0 <==> curr >= prev)
    ensures r >= -100.0
  {
    Percent((curr - prev) as real, prev as real)
  }

  /** What the `Trend` badge shows: nothing when both values are 0, otherwise a
      signed percentage and whether it points up. */
  datatype TrendView = NoData | Change(percent: real, up: bool)

  function Trend(current: real, prev: real): (t: TrendView)
    ensures t.NoData? <==> current == 0.0 && prev == 0.0
    ensures t.Change? ==> (t.up <==> t.percent >= 0.0)
    ensures t.Change? && prev == 0.0 ==> t.percent == (if current > 0.0 then 100.0 else 0.0)
    ensures t.Change? && prev != 0.0 ==> t.percent * prev == (current - prev) * 100.0
  {
    if current == 0.0 && prev == 0.0 then NoData
    else
      var diff := if prev == 0.0 then (if current > 0.0 then 100.0 else 0.0) else (current - prev) / prev * 100.0;
      Change(diff, diff >= 0.0)
  }

  /** From a positive base the badge points up exactly when the value did not fall. */
  lemma TrendDirection(current: real, prev: real)
    requires prev > 0.0
    ensures Trend(current, prev).Change? && (Trend(current, prev).up <==> current >= prev)
  {
    var t := Trend(current, prev);
    if current >= prev {
      assert t.percent * prev >= 0.0;
    } else {
      assert t.percent * prev < 0.0;
    }
  }

  lemma TrendExamples()
    ensures Trend(0.0, 0.0) == NoData
    ensures Trend(5.0, 0.0) == Change(100.0, true)
    ensures Trend(8.0, 4.0) == Change(100.0, true)
    ensures Trend(3.0, 6.0) == Change(-50.0, false)
  {
  }

  /** From a positive base the badge and the scorecard's `varValid` agree; from a
      zero base with a positive current count the badge shows 100 while the
      scorecard shows 0. */
  lemma TrendAgainstVariation(curr: nat, prev: nat)
    ensures prev > 0 ==> Trend(curr as real, prev as real).percent == Variation(curr, prev)
    ensures prev == 0 && curr > 0 ==> Trend(curr as real, 0.0).percent == 100.0 && Variation(curr, 0) == 0.0
  {
  }

  /** `countLeads(p)`: signups within `p`, and how many of them are valid. */
  method CountLeads(users: seq<User>, p: Period) returns (total: nat, valid: nat)
    ensures total == CountIn(users, p) && valid == CountValid(users, p)
  {
    total, valid := 0, 0;
    var i := 0;
    while i < |users|
      invariant i <= |users|
      invariant total == CountIn(users[..i], p) && valid == CountValid(users[..i], p)
    {
      var u := users[i];
      CountStep(users, i, p);
      if InRange(u, p) {
        total := total + 1;
        if IsGoogle(u) || u.formValid {
          valid := valid + 1;
        }
      }
      i := i + 1;
    }
    assert users[..|users|] == users;
  }

  datatype Scorecard = Scorecard(total: nat, valid: nat, validRate: real, varValid: real, prevValid: nat)

  /** `weeklyScorecardData`: `None` without a previous period. */
  method WeeklyScorecard(users: seq<User>, periods: seq<Period>) returns (card: Option<Scorecard>)
    ensures card.None? <==> |periods| < 2
    ensures card.Some? ==>
      && card.value.total == CountIn(users, periods[0])
      && card.value.valid == CountValid(users, periods[0])
      && card.value.prevValid == CountValid(users, periods[1])
      && card.value.valid <= card.value.total
      && card.value.validRate == Percent(card.value.valid as real, card.value.total as real)
      && 0.0 <= card.value.validRate <= 100.0
      && card.value.varValid == Variation(card.value.valid, card.value.prevValid)
  {
    if |periods| < 2 {
      return None;
    }
    var total, valid := CountLeads(users, periods[0]);
    var prevTotal, prevValid := CountLeads(users, periods[1]);
    ValidAtMostTotal(users, periods[0]);
    var varValid := if prevValid > 0 then (valid as int - prevValid as int) as real / prevValid as real * 100.0 else 0.0;
    var rate := if total > 0 then valid as real / total as real * 100.0 else 0.0;
    card := Some(Scorecard(total, valid, rate, varValid, prevValid));
  }

  /** One row of `validadosData`. */
  datatype BreakdownRow = BreakdownRow(
    name: string,
    google: nat,
    formValid: nat,
    formInvalid: nat,
    total: nat,
    formRate: real,
    totalRate: real)

  /** `r` is the breakdown of the signups of `p`. */
  ghost predicate BreakdownOf(r: BreakdownRow, users: seq<User>, p: Period)
  {
    && r.name == p.name
    && r.google == CountClass(users, p, Google)
    && r.formValid == CountClass(users, p, FormValid)
    && r.formInvalid == CountClass(users, p, FormInvalid)
    && r.total == CountIn(users, p)
    && r.total == r.google + r.formValid + r.formInvalid
    && r.formRate == Percent(r.formValid as real, (r.formValid + r.formInvalid) as real)
    && r.totalRate == Percent((r.google + r.formValid) as real, r.total as real)
    && r.totalRate == Percent(CountValid(users, p) as real, CountIn(users, p) as real)
    && 0.0 <= r.formRate <= 100.0 && 0.0 <= r.totalRate <= 100.0
  }

  /** The three class counts of `p` after the signups `users`. */
  ghost predicate Classes(google: nat, formValid: nat, formInvalid: nat, users: seq<User>, p: Period)
  {
    && google == CountClass(users, p, Google)
    && formValid == CountClass(users, p, FormValid)
    && formInvalid == CountClass(users, p, FormInvalid)
  }

  lemma ClassesStep(google: nat, formValid: nat, formInvalid: nat, users: seq<User>, i: nat, p: Period)
    requires i < |users| && Classes(google, formValid, formInvalid, users[..i], p)
    ensures var u := users[i];
      var c := if InRange(u, p) then Some(Classify(u)) else None;
      Classes(google + (if c == Some(Google) then 1 else 0),
              formValid + (if c == Some(FormValid) then 1 else 0),
              formInvalid + (if c == Some(FormInvalid) then 1 else 0), users[..i + 1], p)
  {
    ClassStep(users, i, p, Google);
    ClassStep(users, i, p, FormValid);
    ClassStep(users, i, p, FormInvalid);
  }

  /** The class counts of one period. */
  method ClassifyPeriod(users: seq<User>, p: Period) returns (google: nat, formValid: nat, formInvalid: nat)
    ensures google == CountClass(users, p, Google)
    ensures formValid == CountClass(users, p, FormValid)
    ensures formInvalid == CountClass(users, p, FormInvalid)
  {
    google, formValid, formInvalid := 0, 0, 0;
    var i := 0;
    while i < |users|
      invariant i <= |users|
      invariant Classes(google, formValid, formInvalid, users[..i], p)
    {
      var u := users[i];
      ClassesStep(google, formValid, formInvalid, users, i, p);
      if InRange(u, p) {
        if IsGoogle(u) {
          google := google + 1;
        } else if u.formValid {
          formValid := formValid + 1;
        } else {
          formInvalid := formInvalid + 1;
        }
      }
      i := i + 1;
    }
    assert users[..|users|] == users;
  }

  /** `validadosData`: one breakdown per period, oldest period first. */
  method ValidationBreakdown(users: seq<User>, periods: seq<Period>) returns (rows: seq<BreakdownRow>)
    ensures |rows| == |periods|
    ensures forall i :: 0 <= i < |rows| ==> BreakdownOf(rows[i], users, periods[|periods| - 1 - i])
  {
    rows := [];
    var i := 0;
    while i < |periods|
      invariant i <= |periods| && |rows| == i
      invariant forall k :: 0 <= k < i ==> BreakdownOf(rows[k], users, periods[|periods| - 1 - k])
    {
      var p := periods[|periods| - 1 - i];
      var google, formValid, formInvalid := ClassifyPeriod(users, p);
      Partition(users, p);
      var total := google + formValid + formInvalid;
      var totalForm := formValid + formInvalid;
      var totalValid := google + formValid;
      var formRate := if totalForm > 0 then formValid as real / totalForm as real * 100.0 else 0.0;
      var totalRate := if total > 0 then totalValid as real / total as real * 100.0 else 0.0;
      rows := rows + [BreakdownRow(p.name, google, formValid, formInvalid, total, formRate, totalRate)];
      i := i + 1;
    }
  }
}
