/** `conversionData`: the sales of the current period's valid signups — their
    transactions dated within the period with a positive amount — with totals,
    averages, and the breakdown field plan and field origin. */
module Conversion {
  import opened Wrappers
  import opened Records
  import opened Dicts
  import opened Seqs
  import opened Ledger

  /** An entry of `conversions`. */
  datatype Sale = Sale(plan: string, origin: string, value: real, days: nat)

  /** `u.utm_medium || 'Direto / Orgânico'`. */
  function OriginOf(u: User): (o: string)
    ensures o != ""
  {
    if u.medium == "" then "Direto / Orgânico" else u.medium
  }

  /** The whole days from signup to sale, `diff < 0 ? 0 : diff`. */
  function DaysBetween(signup: int, sale: int): (n: nat)
    ensures sale >= signup ==> n == sale - signup
    ensures sale < signup ==> n == 0
  {
    var diff := sale - signup;
    if diff < 0 then 0 else diff
  }

  /** A signup whose sales are counted: created within `cur` and valid. */
  predicate Eligible(u: User, cur: Period)
  {
    InRange(u, cur) && IsValid(u)
  }

  /** A transaction that is a sale: dated within `cur`, with a positive amount. */
  predicate Converts(t: Transaction, cur: Period)
  {
    t.date.Some? && Within(t.date.value, cur) && t.amount > 0.0
  }

  function SaleOf(u: User, t: Transaction): Sale
    requires u.created.Some? && t.date.Some?
  {
    Sale(t.plan, OriginOf(u), t.amount, DaysBetween(u.created.value, t.date.value))
  }

  /** The sales among `ts`, the transactions of signup `u`, in their order. */
  function SalesOf(u: User, ts: seq<Transaction>, cur: Period): seq<Sale>
    requires u.created.Some?
  {
    if ts == [] then []
    else
      var t := ts[|ts| - 1];
      SalesOf(u, ts[..|ts| - 1], cur) + (if Converts(t, cur) then [SaleOf(u, t)] else [])
  }

  /** `conversions`: the sales of every eligible signup, signup field signup. */
  function AllSales(users: seq<User>, txs: seq<Transaction>, cur: Period): seq<Sale>
  {
    if users == [] then []
    else
      var u := users[|users| - 1];
      AllSales(users[..|users| - 1], txs, cur) + (if Eligible(u, cur) then SalesOf(u, TxsOf(txs, u.username), cur) else [])
  }

  /** `s` is the sale of transaction `txs[m]` of the eligible signup `users[j]`. */
  ghost predicate SaleFrom(s: Sale, users: seq<User>, txs: seq<Transaction>, cur: Period, j: int, m: int)
  {
    && 0 <= j < |users| && 0 <= m < |txs|
    && Eligible(users[j], cur) && txs[m].username == users[j].username && Converts(txs[m], cur)
    && s == SaleOf(users[j], txs[m])
  }

  lemma {:induction false} SalesOfSound(u: User, ts: seq<Transaction>, cur: Period, k: nat)
    requires u.created.Some? && k < |SalesOf(u, ts, cur)|
    ensures exists i :: 0 <= i < |ts| && Converts(ts[i], cur) && SalesOf(u, ts, cur)[k] == SaleOf(u, ts[i])
  {
    var n := |ts| - 1;
    var prefix := SalesOf(u, ts[..n], cur);
    if k < |prefix| {
      SalesOfSound(u, ts[..n], cur, k);
      var i :| 0 <= i < n && Converts(ts[..n][i], cur) && prefix[k] == SaleOf(u, ts[..n][i]);
      assert ts[..n][i] == ts[i];
    } else {
      assert SalesOf(u, ts, cur)[k] == SaleOf(u, ts[n]);
    }
  }

  /** Every sale comes from a transaction of an eligible signup dated within the
      period with a positive amount. */
  lemma {:induction false} AllSalesSound(users: seq<User>, txs: seq<Transaction>, cur: Period, k: nat)
    requires k < |AllSales(users, txs, cur)|
    ensures exists j, m :: SaleFrom(AllSales(users, txs, cur)[k], users, txs, cur, j, m)
  {
    var n := |users| - 1;
    var prefix := AllSales(users[..n], txs, cur);
    var s := AllSales(users, txs, cur)[k];
    if k < |prefix| {
      AllSalesSound(users[..n], txs, cur, k);
      var j, m :| SaleFrom(prefix[k], users[..n], txs, cur, j, m);
      assert users[..n][j] == users[j];
      assert SaleFrom(s, users, txs, cur, j, m);
    } else {
      var u := users[n];
      var ts := TxsOf(txs, u.username);
      SalesOfSound(u, ts, cur, k - |prefix|);
      var i :| 0 <= i < |ts| && Converts(ts[i], cur) && s == SaleOf(u, ts[i]);
      assert ts[i] in txs;
      var m :| 0 <= m < |txs| && txs[m] == ts[i];
      assert SaleFrom(s, users, txs, cur, n, m);
    }
  }

  /** Every sale has a positive value. */
  lemma SalesPositive(users: seq<User>, txs: seq<Transaction>, cur: Period)
    ensures forall s :: s in AllSales(users, txs, cur) ==> s.value > 0.0
  {
    var sales := AllSales(users, txs, cur);
    forall s | s in sales ensures s.value > 0.0 {
      var k :| 0 <= k < |sales| && sales[k] == s;
      AllSalesSound(users, txs, cur, k);
    }
  }

  function Value(s: Sale): real { s.value }

  function DaysOf(s: Sale): real { s.days as real }

  lemma SumByAppend<T>(s: seq<T>, x: T, f: T -> real)
    ensures SumBy(s + [x], f) == SumBy(s, f) + f(x)
  {
    SumByConcat(s, [x], f);
    assert [x][1..] == [];
  }

  /** The inner `txs.forEach` for the eligible signup `u`: appends its sales and
      adds them to the totals. */
  method AddUserSales(u: User, ts: seq<Transaction>, cur: Period,
                      conversions0: seq<Sale>, revenue0: real, days0: real)
    returns (conversions: seq<Sale>, totalRevenue: real, totalDays: real)
    requires u.created.Some?
    requires revenue0 == SumBy(conversions0, Value) && days0 == SumBy(conversions0, DaysOf)
    ensures conversions == conversions0 + SalesOf(u, ts, cur)
    ensures totalRevenue == SumBy(conversions, Value) && totalDays == SumBy(conversions, DaysOf)
  {
    conversions, totalRevenue, totalDays := conversions0, revenue0, days0;
    var j := 0;
    while j < |ts|
      invariant j <= |ts|
      invariant conversions == conversions0 + SalesOf(u, ts[..j], cur)
      invariant totalRevenue == SumBy(conversions, Value) && totalDays == SumBy(conversions, DaysOf)
    {
      var t := ts[j];
      assert ts[..j + 1][..j] == ts[..j];
      if t.date.Some? && Within(t.date.value, cur) && t.amount > 0.0 {
        var days := DaysBetween(u.created.value, t.date.value);
        var sale := Sale(t.plan, OriginOf(u), t.amount, days);
        SumByAppend(conversions, sale, Value);
        SumByAppend(conversions, sale, DaysOf);
        totalRevenue := totalRevenue + t.amount;
        totalDays := totalDays + days as real;
        conversions := conversions + [sale];
      }
      j := j + 1;
    }
    assert ts[..|ts|] == ts;
  }

  /** The `rawUsers.forEach` of `conversionData`: the sales, their total value and
      their total days. */
  method CollectSales(users: seq<User>, txs: seq<Transaction>, cur: Period)
    returns (conversions: seq<Sale>, totalRevenue: real, totalDays: real)
    ensures conversions == AllSales(users, txs, cur)
    ensures totalRevenue == SumBy(conversions, Value) && totalDays == SumBy(conversions, DaysOf)
  {
    var transMap := GroupByUser(txs);
    conversions, totalRevenue, totalDays := [], 0.0, 0.0;
    var i := 0;
    while i < |users|
      invariant i <= |users|
      invariant conversions == AllSales(users[..i], txs, cur)
      invariant totalRevenue == SumBy(conversions, Value) && totalDays == SumBy(conversions, DaysOf)
    {
      var u := users[i];
      assert users[..i + 1][..i] == users[..i];
      if u.created.Some? && Within(u.created.value, cur) && IsValid(u) {
        LookupIsFilter(transMap, txs, u.username);
        conversions, totalRevenue, totalDays :=
          AddUserSales(u, Lookup(transMap, u.username), cur, conversions, totalRevenue, totalDays);
      }
      i := i + 1;
    }
    assert users[..|users|] == users;
  }

  /** Which field a breakdown groups sales field. */
  datatype By = ByPlan | ByOrigin

  function KeyBy(s: Sale, field: By): string
  {
    if field == ByPlan then s.plan else s.origin
  }

  /** The number of sales under key `k`. */
  function QtyBy(sales: seq<Sale>, field: By, k: string): nat
  {
    if sales == [] then 0
    else QtyBy(sales[..|sales| - 1], field, k) + (if KeyBy(sales[|sales| - 1], field) == k then 1 else 0)
  }

  /** The value of the sales under key `k`. */
  function RevBy(sales: seq<Sale>, field: By, k: string): real
  {
    if sales == [] then 0.0
    else RevBy(sales[..|sales| - 1], field, k) + (if KeyBy(sales[|sales| - 1], field) == k then sales[|sales| - 1].value else 0.0)
  }

  /** The number of sales of plan `p` from origin `o`. */
  function MixQty(sales: seq<Sale>, o: string, p: string): nat
  {
    if sales == [] then 0
    else
      var s := sales[|sales| - 1];
      MixQty(sales[..|sales| - 1], o, p) + (if s.origin == o && s.plan == p then 1 else 0)
  }

  lemma CountsStep(sales: seq<Sale>, i: nat, field: By, k: string)
    requires i < |sales|
    ensures QtyBy(sales[..i + 1], field, k) == QtyBy(sales[..i], field, k) + (if KeyBy(sales[i], field) == k then 1 else 0)
    ensures RevBy(sales[..i + 1], field, k) == RevBy(sales[..i], field, k) + (if KeyBy(sales[i], field) == k then sales[i].value else 0.0)
  {
    assert sales[..i + 1][..i] == sales[..i];
  }

  lemma MixCountStep(sales: seq<Sale>, i: nat, o: string, p: string)
    requires i < |sales|
    ensures MixQty(sales[..i + 1], o, p) == MixQty(sales[..i], o, p) + (if sales[i].origin == o && sales[i].plan == p then 1 else 0)
  {
    assert sales[..i + 1][..i] == sales[..i];
  }

  lemma ValueStep(sales: seq<Sale>, i: nat)
    requires i < |sales|
    ensures SumBy(sales[..i + 1], Value) == SumBy(sales[..i], Value) + sales[i].value
  {
    assert sales[..i + 1] == sales[..i] + [sales[i]];
    SumByAppend(sales[..i], sales[i], Value);
  }

  /** `byPlan[plan]`: `{qty, rev}`. */
  datatype Tally = Tally(qty: nat, rev: real)

  function TallyQty(t: Tally): real { t.qty as real }

  function TallyRev(t: Tally): real { t.rev }

  /** `byPlan` after `sales`: exactly the plans sold, each with its count and value;
      the counts add up to the number of sales and the values to their total. */
  ghost predicate PlanTable(d: Dict<Tally>, sales: seq<Sale>)
  {
    && Valid(d)
    && (forall k :: k in d.vals <==> QtyBy(sales, ByPlan, k) > 0)
    && (forall k :: k in d.vals ==> d.vals[k] == Tally(QtyBy(sales, ByPlan, k), RevBy(sales, ByPlan, k)))
    && Total(d, TallyQty) == |sales| as real
    && Total(d, TallyRev) == SumBy(sales, Value)
  }

  /** `if (!byPlan[c.plan]) byPlan[c.plan] = {qty: 0, rev: 0}; byPlan[c.plan].qty++; byPlan[c.plan].rev += c.value`. */
  function AddPlan(d: Dict<Tally>, s: Sale): (r: Dict<Tally>)
    requires Valid(d)
    ensures Valid(r)
    ensures Total(r, TallyQty) == Total(d, TallyQty) + 1.0
    ensures Total(r, TallyRev) == Total(d, TallyRev) + s.value
  {
    var t := if s.plan in d.vals then d.vals[s.plan] else Tally(0, 0.0);
    PutTotal(d, s.plan, Tally(t.qty + 1, t.rev + s.value), TallyQty);
    PutTotal(d, s.plan, Tally(t.qty + 1, t.rev + s.value), TallyRev);
    Put(d, s.plan, Tally(t.qty + 1, t.rev + s.value))
  }

  /** A key without sales has no value. */
  lemma {:induction false} NoQtyNoRev(sales: seq<Sale>, field: By, k: string)
    requires QtyBy(sales, field, k) == 0
    ensures RevBy(sales, field, k) == 0.0
  {
    if sales != [] {
      NoQtyNoRev(sales[..|sales| - 1], field, k);
    }
  }

  lemma PlanStep(d: Dict<Tally>, sales: seq<Sale>, i: nat)
    requires i < |sales| && PlanTable(d, sales[..i])
    ensures PlanTable(AddPlan(d, sales[i]), sales[..i + 1])
  {
    var s := sales[i];
    if s.plan !in d.vals {
      NoQtyNoRev(sales[..i], ByPlan, s.plan);
    }
    var t := if s.plan in d.vals then d.vals[s.plan] else Tally(0, 0.0);
    var r := AddPlan(d, s);
    assert r.vals == d.vals[s.plan := Tally(t.qty + 1, t.rev + s.value)];
    forall k ensures (k in r.vals <==> QtyBy(sales[..i + 1], ByPlan, k) > 0)
      && (k in r.vals ==> r.vals[k] == Tally(QtyBy(sales[..i + 1], ByPlan, k), RevBy(sales[..i + 1], ByPlan, k)))
    {
      CountsStep(sales, i, ByPlan, k);
    }
    ValueStep(sales, i);
  }

  /** `byOrigin[origin]`: `{qty, rev, plans}`, `plans` counting the sales per plan. */
  datatype OriginTally = OriginTally(qty: nat, rev: real, plans: Dict<nat>)

  function OriginQty(t: OriginTally): real { t.qty as real }

  function OriginRev(t: OriginTally): real { t.rev }

  function NatReal(n: nat): real { n as real }

  /** The plan counts of origin `o`: exactly its plans, each with its count, adding
      up to the origin's count. */
  ghost predicate MixTable(plans: Dict<nat>, sales: seq<Sale>, o: string)
  {
    && Valid(plans)
    && (forall p :: p in plans.vals <==> MixQty(sales, o, p) > 0)
    && (forall p :: p in plans.vals ==> plans.vals[p] == MixQty(sales, o, p))
    && Total(plans, NatReal) == QtyBy(sales, ByOrigin, o) as real
  }

  /** The entry of origin `o` after `sales`: present just when it has sales, with
      their count, their value and their plan counts. */
  ghost predicate OriginEntry(d: Dict<OriginTally>, sales: seq<Sale>, o: string)
  {
    && (o in d.vals <==> QtyBy(sales, ByOrigin, o) > 0)
    && (o in d.vals ==>
          d.vals[o].qty == QtyBy(sales, ByOrigin, o) && d.vals[o].rev == RevBy(sales, ByOrigin, o)
          && MixTable(d.vals[o].plans, sales, o))
  }

  /** `byOrigin` after `sales`. */
  ghost predicate OriginTable(d: Dict<OriginTally>, sales: seq<Sale>)
  {
    && Valid(d)
    && (forall o :: o in d.vals ==> Valid(d.vals[o].plans))
    && (forall o :: OriginEntry(d, sales, o))
    && Total(d, OriginQty) == |sales| as real
    && Total(d, OriginRev) == SumBy(sales, Value)
  }

  /** The entry of origin `s.origin` once sale `s` is added to `d`. */
  function Bumped(d: Dict<OriginTally>, s: Sale): OriginTally
    requires Valid(d) && forall o :: o in d.vals ==> Valid(d.vals[o].plans)
  {
    var t := if s.origin in d.vals then d.vals[s.origin] else OriginTally(0, 0.0, Empty());
    var n := if s.plan in t.plans.vals then t.plans.vals[s.plan] else 0;
    OriginTally(t.qty + 1, t.rev + s.value, Put(t.plans, s.plan, n + 1))
  }

  /** The `byOrigin` half of the grouping step for sale `s`. */
  function AddOrigin(d: Dict<OriginTally>, s: Sale): (r: Dict<OriginTally>)
    requires Valid(d) && forall o :: o in d.vals ==> Valid(d.vals[o].plans)
    ensures Valid(r) && forall o :: o in r.vals ==> Valid(r.vals[o].plans)
    ensures r.vals == d.vals[s.origin := Bumped(d, s)]
    ensures Total(r, OriginQty) == Total(d, OriginQty) + 1.0
    ensures Total(r, OriginRev) == Total(d, OriginRev) + s.value
  {
    var t' := Bumped(d, s);
    PutTotal(d, s.origin, t', OriginQty);
    PutTotal(d, s.origin, t', OriginRev);
    Put(d, s.origin, t')
  }

  /** The plan counts of one origin after sale `sales[i]`: bumped at its plan when
      the sale is of that origin, unchanged otherwise. */
  lemma MixStep(plans: Dict<nat>, sales: seq<Sale>, i: nat, o: string)
    requires i < |sales| && MixTable(plans, sales[..i], o)
    ensures sales[i].origin == o ==>
      var n := if sales[i].plan in plans.vals then plans.vals[sales[i].plan] else 0;
      MixTable(Put(plans, sales[i].plan, n + 1), sales[..i + 1], o)
    ensures sales[i].origin != o ==> MixTable(plans, sales[..i + 1], o)
  {
    var s := sales[i];
    var n := if s.plan in plans.vals then plans.vals[s.plan] else 0;
    PutTotal(plans, s.plan, n + 1, NatReal);
    CountsStep(sales, i, ByOrigin, o);
    forall p ensures MixQty(sales[..i + 1], o, p) == MixQty(sales[..i], o, p) + (if s.origin == o && s.plan == p then 1 else 0) {
      MixCountStep(sales, i, o, p);
    }
  }

  /** A new origin starts with no plan counts. */
  lemma MixEmpty(sales: seq<Sale>, o: string)
    requires QtyBy(sales, ByOrigin, o) == 0
    ensures MixTable(Empty(), sales, o)
  {
    forall p ensures MixQty(sales, o, p) == 0 {
      MixAtMostOrigin(sales, o, p);
    }
  }

  /** The entry of the sale's own origin is bumped. */
  lemma SameOriginStep(d: Dict<OriginTally>, sales: seq<Sale>, i: nat)
    requires i < |sales| && Valid(d) && (forall x :: x in d.vals ==> Valid(d.vals[x].plans))
    requires OriginEntry(d, sales[..i], sales[i].origin)
    ensures OriginEntry(AddOrigin(d, sales[i]), sales[..i + 1], sales[i].origin)
  {
    var s := sales[i];
    var t := if s.origin in d.vals then d.vals[s.origin] else OriginTally(0, 0.0, Empty());
    CountsStep(sales, i, ByOrigin, s.origin);
    if s.origin !in d.vals {
      NoQtyNoRev(sales[..i], ByOrigin, s.origin);
      MixEmpty(sales[..i], s.origin);
    }
    MixStep(t.plans, sales, i, s.origin);
  }

  /** The entry of every other origin is unchanged. */
  lemma OtherOriginStep(d: Dict<OriginTally>, sales: seq<Sale>, i: nat, o: string)
    requires i < |sales| && Valid(d) && (forall x :: x in d.vals ==> Valid(d.vals[x].plans))
    requires o != sales[i].origin && OriginEntry(d, sales[..i], o)
    ensures OriginEntry(AddOrigin(d, sales[i]), sales[..i + 1], o)
  {
    CountsStep(sales, i, ByOrigin, o);
    if o in d.vals {
      MixStep(d.vals[o].plans, sales, i, o);
    }
  }

  lemma OriginStep(d: Dict<OriginTally>, sales: seq<Sale>, i: nat)
    requires i < |sales| && OriginTable(d, sales[..i])
    ensures OriginTable(AddOrigin(d, sales[i]), sales[..i + 1])
  {
    var r, next := AddOrigin(d, sales[i]), sales[..i + 1];
    SameOriginStep(d, sales, i);
    forall o | o != sales[i].origin ensures OriginEntry(r, next, o) {
      OtherOriginStep(d, sales, i, o);
    }
    ValueStep(sales, i);
  }

  /** A plan count of an origin never exceeds the origin's count. */
  lemma {:induction false} MixAtMostOrigin(sales: seq<Sale>, o: string, p: string)
    ensures MixQty(sales, o, p) <= QtyBy(sales, ByOrigin, o)
  {
    if sales != [] {
      MixAtMostOrigin(sales[..|sales| - 1], o, p);
    }
  }

  /** `conversions.forEach(c => ...)`: `byPlan` and `byOrigin`. */
  method GroupSales(sales: seq<Sale>) returns (byPlan: Dict<Tally>, byOrigin: Dict<OriginTally>)
    ensures PlanTable(byPlan, sales) && OriginTable(byOrigin, sales)
  {
    byPlan, byOrigin := Empty(), Empty();
    var i := 0;
    while i < |sales|
      invariant i <= |sales| && PlanTable(byPlan, sales[..i]) && OriginTable(byOrigin, sales[..i])
    {
      PlanStep(byPlan, sales, i);
      OriginStep(byOrigin, sales, i);
      byPlan := AddPlan(byPlan, sales[i]);
      byOrigin := AddOrigin(byOrigin, sales[i]);
      i := i + 1;
    }
    assert sales[..|sales|] == sales;
  }

  /** An entry of `rowsPlan`. */
  datatype PlanRow = PlanRow(plan: string, qty: nat, rev: real)

  function PlanRowQty(r: PlanRow): real { r.qty as real }

  function PlanRowRev(r: PlanRow): real { r.rev }

  /** `rowsPlan`: one row per plan in `byPlan`, by value, largest first. */
  function PlanRows(byPlan: Dict<Tally>): seq<PlanRow>
  {
    SortDesc(EntriesOf(byPlan.keys, byPlan.vals, (k, t: Tally) => PlanRow(k, t.qty, t.rev)), PlanRowRev)
  }

  /** The plan rows of `sales`: ordered by value, largest first, exactly the plans
      sold, each with its count and value, adding up to the whole. */
  ghost predicate PlanRowsFor(rows: seq<PlanRow>, sales: seq<Sale>)
  {
    && SortedDesc(rows, PlanRowRev)
    && (forall k :: 0 <= k < |rows| ==>
          rows[k].qty == QtyBy(sales, ByPlan, rows[k].plan) > 0 && rows[k].rev == RevBy(sales, ByPlan, rows[k].plan))
    && (forall p :: QtyBy(sales, ByPlan, p) > 0 ==> exists k :: 0 <= k < |rows| && rows[k].plan == p)
    && SumBy(rows, PlanRowQty) == |sales| as real
    && SumBy(rows, PlanRowRev) == SumBy(sales, Value)
  }

  lemma PlanRowsSound(byPlan: Dict<Tally>, sales: seq<Sale>)
    requires PlanTable(byPlan, sales)
    ensures PlanRowsFor(PlanRows(byPlan), sales)
  {
    PlanRowsMatch(byPlan, sales);
    PlanRowsCover(byPlan, sales);
    PlanRowsTotal(byPlan, sales);
  }

  lemma PlanRowsMatch(byPlan: Dict<Tally>, sales: seq<Sale>)
    requires PlanTable(byPlan, sales)
    ensures var rows := PlanRows(byPlan);
      forall k :: 0 <= k < |rows| ==>
        rows[k].qty == QtyBy(sales, ByPlan, rows[k].plan) > 0 && rows[k].rev == RevBy(sales, ByPlan, rows[k].plan)
  {
    var base := EntriesOf(byPlan.keys, byPlan.vals, (k, t: Tally) => PlanRow(k, t.qty, t.rev));
    var rows := PlanRows(byPlan);
    forall k | 0 <= k < |rows|
      ensures rows[k].qty == QtyBy(sales, ByPlan, rows[k].plan) > 0 && rows[k].rev == RevBy(sales, ByPlan, rows[k].plan)
    {
      assert rows[k] in multiset(base);
      var j :| 0 <= j < |base| && base[j] == rows[k];
    }
  }

  lemma PlanRowsCover(byPlan: Dict<Tally>, sales: seq<Sale>)
    requires PlanTable(byPlan, sales)
    ensures var rows := PlanRows(byPlan);
      forall p :: QtyBy(sales, ByPlan, p) > 0 ==> exists k :: 0 <= k < |rows| && rows[k].plan == p
  {
    var base := EntriesOf(byPlan.keys, byPlan.vals, (k, t: Tally) => PlanRow(k, t.qty, t.rev));
    var rows := PlanRows(byPlan);
    forall p | QtyBy(sales, ByPlan, p) > 0 ensures exists k :: 0 <= k < |rows| && rows[k].plan == p {
      var j :| 0 <= j < |byPlan.keys| && byPlan.keys[j] == p;
      assert base[j] in multiset(rows);
      var k :| 0 <= k < |rows| && rows[k] == base[j];
    }
  }

  lemma PlanRowsTotal(byPlan: Dict<Tally>, sales: seq<Sale>)
    requires PlanTable(byPlan, sales)
    ensures SumBy(PlanRows(byPlan), PlanRowQty) == |sales| as real
    ensures SumBy(PlanRows(byPlan), PlanRowRev) == SumBy(sales, Value)
  {
    var mk := (k, t: Tally) => PlanRow(k, t.qty, t.rev);
    var base := EntriesOf(byPlan.keys, byPlan.vals, mk);
    SumEntries(byPlan.keys, byPlan.vals, mk, PlanRowQty, TallyQty);
    SumEntries(byPlan.keys, byPlan.vals, mk, PlanRowRev, TallyRev);
    SumByPermutation(PlanRows(byPlan), base, PlanRowQty);
    SumByPermutation(PlanRows(byPlan), base, PlanRowRev);
  }

  /** `plans[p]` in the `mix` of an origin. */
  datatype MixEntry = MixEntry(plan: string, count: nat)

  function MixCount(e: MixEntry): real { e.count as real }

  /** The plans of an origin, the most sold first. */
  function MixOf(plans: Dict<nat>): seq<MixEntry>
  {
    SortDesc(EntriesOf(plans.keys, plans.vals, (p, n: nat) => MixEntry(p, n)), MixCount)
  }

  /** An entry of `rowsOrigin`. */
  datatype OriginRow = OriginRow(origin: string, qty: nat, rev: real, mix: seq<MixEntry>)

  function OriginRowQty(r: OriginRow): real { r.qty as real }

  function OriginRowRev(r: OriginRow): real { r.rev }

  function OriginRowOf(o: string, t: OriginTally): OriginRow
  {
    OriginRow(o, t.qty, t.rev, MixOf(t.plans))
  }

  /** `rowsOrigin`: one row per origin in `byOrigin`, by value, largest first. */
  function OriginRows(byOrigin: Dict<OriginTally>): seq<OriginRow>
  {
    SortDesc(EntriesOf(byOrigin.keys, byOrigin.vals, OriginRowOf), OriginRowRev)
  }

  /** The plan mix of origin `o`: the most sold first, exactly the plans sold from
      `o`, each with its count, adding up to the origin's count. */
  ghost predicate MixFor(mix: seq<MixEntry>, sales: seq<Sale>, o: string)
  {
    && SortedDesc(mix, MixCount)
    && (forall k :: 0 <= k < |mix| ==> mix[k].count == MixQty(sales, o, mix[k].plan) > 0)
    && (forall p :: MixQty(sales, o, p) > 0 ==> exists k :: 0 <= k < |mix| && mix[k].plan == p)
    && SumBy(mix, MixCount) == QtyBy(sales, ByOrigin, o) as real
  }

  lemma MixSound(plans: Dict<nat>, sales: seq<Sale>, o: string)
    requires MixTable(plans, sales, o)
    ensures MixFor(MixOf(plans), sales, o)
  {
    MixMatch(plans, sales, o);
    MixCover(plans, sales, o);
    var mk := (p, n: nat) => MixEntry(p, n);
    SumEntries(plans.keys, plans.vals, mk, MixCount, NatReal);
    SumByPermutation(MixOf(plans), EntriesOf(plans.keys, plans.vals, mk), MixCount);
  }

  lemma MixMatch(plans: Dict<nat>, sales: seq<Sale>, o: string)
    requires MixTable(plans, sales, o)
    ensures var mix := MixOf(plans);
      forall k :: 0 <= k < |mix| ==> mix[k].count == MixQty(sales, o, mix[k].plan) > 0
  {
    var base := EntriesOf(plans.keys, plans.vals, (p, n: nat) => MixEntry(p, n));
    var mix := MixOf(plans);
    forall k | 0 <= k < |mix| ensures mix[k].count == MixQty(sales, o, mix[k].plan) > 0 {
      assert mix[k] in multiset(base);
      var j :| 0 <= j < |base| && base[j] == mix[k];
    }
  }

  lemma MixCover(plans: Dict<nat>, sales: seq<Sale>, o: string)
    requires MixTable(plans, sales, o)
    ensures var mix := MixOf(plans);
      forall p :: MixQty(sales, o, p) > 0 ==> exists k :: 0 <= k < |mix| && mix[k].plan == p
  {
    var base := EntriesOf(plans.keys, plans.vals, (p, n: nat) => MixEntry(p, n));
    var mix := MixOf(plans);
    forall p | MixQty(sales, o, p) > 0 ensures exists k :: 0 <= k < |mix| && mix[k].plan == p {
      var j :| 0 <= j < |plans.keys| && plans.keys[j] == p;
      assert base[j] in multiset(mix);
      var k :| 0 <= k < |mix| && mix[k] == base[j];
    }
  }

  /** The origin rows of `sales`: ordered by value, largest first, exactly the
      origins sold through, each with its count, value and plan mix, adding up to
      the whole. */
  ghost predicate OriginRowsFor(rows: seq<OriginRow>, sales: seq<Sale>)
  {
    && SortedDesc(rows, OriginRowRev)
    && (forall k :: 0 <= k < |rows| ==> OriginRowAgrees(rows[k], sales))
    && (forall o :: QtyBy(sales, ByOrigin, o) > 0 ==> exists k :: 0 <= k < |rows| && rows[k].origin == o)
    && SumBy(rows, OriginRowQty) == |sales| as real
    && SumBy(rows, OriginRowRev) == SumBy(sales, Value)
  }

  lemma OriginRowsSound(byOrigin: Dict<OriginTally>, sales: seq<Sale>)
    requires OriginTable(byOrigin, sales)
    ensures OriginRowsFor(OriginRows(byOrigin), sales)
  {
    OriginRowsMatch(byOrigin, sales);
    OriginRowsCover(byOrigin, sales);
    var base := EntriesOf(byOrigin.keys, byOrigin.vals, OriginRowOf);
    SumEntries(byOrigin.keys, byOrigin.vals, OriginRowOf, OriginRowQty, OriginQty);
    SumEntries(byOrigin.keys, byOrigin.vals, OriginRowOf, OriginRowRev, OriginRev);
    SumByPermutation(OriginRows(byOrigin), base, OriginRowQty);
    SumByPermutation(OriginRows(byOrigin), base, OriginRowRev);
  }

  /** Row `r` holds the count, value and plan mix of the sales through its origin. */
  ghost predicate OriginRowAgrees(r: OriginRow, sales: seq<Sale>)
  {
    && r.qty == QtyBy(sales, ByOrigin, r.origin) > 0
    && r.rev == RevBy(sales, ByOrigin, r.origin)
    && MixFor(r.mix, sales, r.origin)
  }

  /** The row of an origin in the table agrees with its sales. */
  lemma OriginRowMatch(byOrigin: Dict<OriginTally>, sales: seq<Sale>, o: string)
    requires OriginTable(byOrigin, sales) && o in byOrigin.vals
    ensures OriginRowAgrees(OriginRowOf(o, byOrigin.vals[o]), sales)
  {
    assert OriginEntry(byOrigin, sales, o);
    MixSound(byOrigin.vals[o].plans, sales, o);
  }

  lemma OriginRowsMatch(byOrigin: Dict<OriginTally>, sales: seq<Sale>)
    requires OriginTable(byOrigin, sales)
    ensures var rows := OriginRows(byOrigin);
      forall k :: 0 <= k < |rows| ==> OriginRowAgrees(rows[k], sales)
  {
    var base := EntriesOf(byOrigin.keys, byOrigin.vals, OriginRowOf);
    var rows := OriginRows(byOrigin);
    forall k | 0 <= k < |rows| ensures OriginRowAgrees(rows[k], sales) {
      assert rows[k] in multiset(base);
      var j :| 0 <= j < |base| && base[j] == rows[k];
      var o := byOrigin.keys[j];
      assert base[j] == OriginRowOf(o, byOrigin.vals[o]);
      OriginRowMatch(byOrigin, sales, o);
    }
  }

  lemma OriginRowsCover(byOrigin: Dict<OriginTally>, sales: seq<Sale>)
    requires OriginTable(byOrigin, sales)
    ensures var rows := OriginRows(byOrigin);
      forall o :: QtyBy(sales, ByOrigin, o) > 0 ==> exists k :: 0 <= k < |rows| && rows[k].origin == o
  {
    var rows := OriginRows(byOrigin);
    forall o | QtyBy(sales, ByOrigin, o) > 0 ensures exists k :: 0 <= k < |rows| && rows[k].origin == o {
      assert OriginEntry(byOrigin, sales, o);
      OriginRowCover(byOrigin, o);
    }
  }

  lemma OriginRowCover(byOrigin: Dict<OriginTally>, o: string)
    requires Valid(byOrigin) && o in byOrigin.vals
    ensures var rows := OriginRows(byOrigin);
      exists k :: 0 <= k < |rows| && rows[k].origin == o
  {
    var base := EntriesOf(byOrigin.keys, byOrigin.vals, OriginRowOf);
    var rows := OriginRows(byOrigin);
    var j :| 0 <= j < |byOrigin.keys| && byOrigin.keys[j] == o;
    var r := base[j];
    assert r == OriginRowOf(o, byOrigin.vals[o]);
    assert r in multiset(base);
    assert multiset(rows) == multiset(base);
    var k :| 0 <= k < |rows| && rows[k] == r;
  }

  /** `count > 0 ? total / count : 0`. */
  function Average(total: real, count: nat): (a: real)
    ensures count == 0 ==> a == 0.0
    ensures count > 0 ==> a * count as real == total
  {
    if count > 0 then total / count as real else 0.0
  }

  /** The value of `conversionData`. */
  datatype ConversionReport = ConversionReport(
    count: nat, totalRevenue: real, avgTicket: real, avgDays: real,
    rowsPlan: seq<PlanRow>, rowsOrigin: seq<OriginRow>)

  /** `rep` reports `sales`. */
  ghost predicate ReportOf(rep: ConversionReport, sales: seq<Sale>)
  {
    && rep.count == |sales|
    && rep.totalRevenue == SumBy(sales, Value)
    && rep.avgTicket == Average(SumBy(sales, Value), |sales|)
    && rep.avgDays == Average(SumBy(sales, DaysOf), |sales|)
    && PlanRowsFor(rep.rowsPlan, sales)
    && OriginRowsFor(rep.rowsOrigin, sales)
  }

  /** `conversionData`: nothing without periods, otherwise the report of the sales
      of the current period, `periods[0]`. */
  method ConversionData(users: seq<User>, txs: seq<Transaction>, periods: seq<Period>)
    returns (r: Option<ConversionReport>)
    ensures r.None? <==> periods == []
    ensures r.Some? ==> ReportOf(r.value, AllSales(users, txs, periods[0]))
  {
    if |periods| == 0 {
      return None;
    }
    var conversions, totalRevenue, totalDays := CollectSales(users, txs, periods[0]);
    var count := |conversions|;
    var avgTicket := if count > 0 then totalRevenue / count as real else 0.0;
    var avgDays := if count > 0 then totalDays / count as real else 0.0;
    var byPlan, byOrigin := GroupSales(conversions);
    PlanRowsSound(byPlan, conversions);
    OriginRowsSound(byOrigin, conversions);
    r := Some(ConversionReport(count, totalRevenue, avgTicket, avgDays, PlanRows(byPlan), OriginRows(byOrigin)));
  }
}
