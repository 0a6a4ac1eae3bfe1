/** `scoringMetrics`, first half: reading the lead-scoring rows, the earliest
    transaction date of every email, and `calcStats`, the per-period tallies of
    the scored leads. `parseDateBR` and `parseFloat` are parameters: `parseDate`
    and `parseNumber`, the latter giving `None` for `NaN`. */
module Scoring {
  import opened Wrappers
  import opened Text
  import opened Fields
  import opened Records
  import opened Seqs
  import opened Dicts
  import Heatmap

  const EmailKeys: seq<string> := ["EMAIL", "Email", "Email Address"]
  const CreatedKeys: seq<string> := ["DATA_CRIACAO_CONTA", "data_criacao_usuario (Data)"]
  const SourceKeys: seq<string> := ["PRIMEIRA_UTM_SOURCE", "source", "Source"]
  const MediumKeys: seq<string> := ["PRIMEIRA_UTM_MEDIUM", "medium", "Medium"]
  const ProfessionKeys: seq<string> := ["PROFISSAO", "Profissao", "Job", "profissao"]

  const Unidentified: string := "Não Identificado"
  const NotInformed: string := "Não Informado"
  const CustomProfession: string := "Profissão customizada"

  /** `(s || '').toLowerCase().trim()`, the key under which emails are matched. */
  function EmailKey(s: string): string
  {
    Trim(ToLower(s))
  }

  /** `prof.charAt(0).toUpperCase() + prof.slice(1).toLowerCase()`. */
  function Capitalize(s: string): (r: string)
    ensures |r| == |s|
    ensures s != [] ==> r[0] == UpperChar(s[0]) && r[1..] == ToLower(s[1..])
  {
    if s == [] then [] else [UpperChar(s[0])] + ToLower(s[1..])
  }

  /** The test of `TARGET_PROFESSIONS.find` for the trimmed profession `t`. */
  function Spells(t: string): string -> bool
  {
    x => ToLower(x) == ToLower(t)
  }

  /** The profession a lead is grouped under: `Profissão customizada` when none is
      given, it is `Não Informado` or blank; otherwise the first target profession
      it names, ignoring case and surrounding blanks; otherwise itself, trimmed and
      capitalised. */
  function ProfessionOf(targets: seq<string>, v: Option<string>): (r: string)
    ensures v.None? || v.value == NotInformed || Trim(v.value) == "" ==> r == CustomProfession
    ensures v.Some? && v.value != NotInformed && Trim(v.value) != "" ==>
      if exists j :: 0 <= j < |targets| && Heatmap.SameName(targets[j], v.value)
      then r in targets && Heatmap.SameName(r, v.value)
      else r == Capitalize(Trim(v.value))
  {
    if v.None? || v.value == NotInformed || Trim(v.value) == "" then CustomProfession
    else
      var t := Trim(v.value);
      var i := FindFirst(targets, Spells(t));
      assert forall j :: 0 <= j < |targets| ==> (Spells(t)(targets[j]) <==> Heatmap.SameName(targets[j], v.value));
      if i >= 0 then targets[i] else Capitalize(t)
  }

  /** `` `${src} / ${med}`.toLowerCase() ``, with `(direto)` and `(none)` for a missing
      source or medium. */
  function OriginKey(row: Row): string
  {
    var src := GetVal(Some(row), SourceKeys).GetOr("(direto)");
    var med := GetVal(Some(row), MediumKeys).GetOr("(none)");
    ToLower(src + " / " + med)
  }

  /** What `calcStats` reads from one scoring row. */
  datatype Lead = Lead(email: string, created: Option<int>, score: Option<real>,
                       plan: string, origin: string, profession: string)

  /** The `SCORE` text given to `parseFloat`: the first decimal comma made a point,
      or `'0'` without a score. */
  function ScoreText(row: Row): string
  {
    if Present(row, "SCORE") then ReplaceFirst(row["SCORE"].s, ',', '.') else "0"
  }

  function ReadLead(row: Row, parseDate: Option<string> -> Option<int>, parseNumber: string -> Option<real>,
                    targets: seq<string>): Lead
  {
    Lead(EmailKey(GetVal(Some(row), EmailKeys).GetOr("")),
         parseDate(GetVal(Some(row), CreatedKeys)),
         parseNumber(ScoreText(row)),
         Trim(GetVal(Some(row), ["PLANO_DETALHE"]).GetOr(Unidentified)),
         OriginKey(row),
         ProfessionOf(targets, GetVal(Some(row), ProfessionKeys)))
  }

  /** The leads of every row, in order. */
  function ReadLeads(rows: seq<Row>, parseDate: Option<string> -> Option<int>, parseNumber: string -> Option<real>,
                     targets: seq<string>): (ls: seq<Lead>)
    ensures |ls| == |rows|
    ensures forall k :: 0 <= k < |rows| ==> ls[k] == ReadLead(rows[k], parseDate, parseNumber, targets)
  {
    seq(|rows|, k requires 0 <= k < |rows| => ReadLead(rows[k], parseDate, parseNumber, targets))
  }

  // ------------------------------------------------------------------
  // The earliest transaction of every email
  // ------------------------------------------------------------------

  /** What `transMap` reads from one transaction: its email key and its date. */
  datatype Stamp = Stamp(email: string, date: Option<int>)

  /** The stamps of every transaction, in order. */
  function Stamps(txs: seq<Transaction>): (ss: seq<Stamp>)
    ensures |ss| == |txs|
    ensures forall k :: 0 <= k < |txs| ==> ss[k] == Stamp(EmailKey(txs[k].username), txs[k].date)
  {
    seq(|txs|, k requires 0 <= k < |txs| => Stamp(EmailKey(txs[k].username), txs[k].date))
  }

  /** A stamp that `transMap` records under `e`: of that email, dated. */
  predicate DatedFor(t: Stamp, e: string)
  {
    e != "" && t.email == e && t.date.Some?
  }

  /** The earliest date of the stamps of email `e`, if it has a dated one. */
  function Earliest(ss: seq<Stamp>, e: string): Option<int>
  {
    if ss == [] then None
    else
      var t := ss[|ss| - 1];
      var prior := Earliest(ss[..|ss| - 1], e);
      if !DatedFor(t, e) then prior
      else if prior.None? || t.date.value < prior.value then t.date
      else prior
  }

  /** The date kept is one of that email's dates and no later than any of them. */
  lemma {:induction false} EarliestIsMin(ss: seq<Stamp>, e: string)
    ensures Earliest(ss, e).None? <==> forall k :: 0 <= k < |ss| ==> !DatedFor(ss[k], e)
    ensures Earliest(ss, e).Some? ==>
      && (exists k :: 0 <= k < |ss| && DatedFor(ss[k], e) && ss[k].date.value == Earliest(ss, e).value)
      && (forall k :: 0 <= k < |ss| && DatedFor(ss[k], e) ==> Earliest(ss, e).value <= ss[k].date.value)
  {
    if ss != [] {
      var n := |ss| - 1;
      EarliestIsMin(ss[..n], e);
      assert forall k :: 0 <= k < n ==> ss[..n][k] == ss[k];
      if Earliest(ss[..n], e).Some? && Earliest(ss, e) == Earliest(ss[..n], e) {
        var k :| 0 <= k < n && DatedFor(ss[..n][k], e) && ss[..n][k].date.value == Earliest(ss, e).value;
        assert DatedFor(ss[k], e) && ss[k].date.value == Earliest(ss, e).value;
      }
    }
  }

  /** `transMap` of `scoringMetrics` after the stamps `ss`. */
  ghost predicate EarliestMap(m: map<string, int>, ss: seq<Stamp>)
  {
    forall e :: (e in m <==> Earliest(ss, e).Some?) && (e in m ==> m[e] == Earliest(ss, e).value)
  }

  lemma EarliestKeyStep(ss: seq<Stamp>, i: nat, e: string)
    requires i < |ss|
    ensures var prior := Earliest(ss[..i], e);
      Earliest(ss[..i + 1], e)
        == if DatedFor(ss[i], e) && (prior.None? || ss[i].date.value < prior.value) then ss[i].date else prior
  {
    assert ss[..i + 1][..i] == ss[..i];
  }

  lemma EarliestStep(m: map<string, int>, ss: seq<Stamp>, i: nat)
    requires i < |ss| && EarliestMap(m, ss[..i])
    ensures var t := ss[i];
      if t.email != "" && t.date.Some? && (t.email !in m || t.date.value < m[t.email])
      then EarliestMap(m[t.email := t.date.value], ss[..i + 1])
      else EarliestMap(m, ss[..i + 1])
  {
    forall e ensures Earliest(ss[..i + 1], e) == if DatedFor(ss[i], e) && (e !in m || ss[i].date.value < m[e]) then ss[i].date else Earliest(ss[..i], e) {
      EarliestKeyStep(ss, i, e);
    }
  }

  /** `rawTransactions.forEach(...)`: the earliest dated transaction of every email. */
  method EarliestByEmail(txs: seq<Transaction>) returns (m: map<string, int>)
    ensures EarliestMap(m, Stamps(txs))
  {
    ghost var ss := Stamps(txs);
    m := map[];
    var i := 0;
    while i < |txs|
      invariant i <= |txs| && EarliestMap(m, ss[..i])
    {
      var t := txs[i];
      var email := EmailKey(t.username);
      EarliestStep(m, ss, i);
      if email != "" && t.date.Some? {
        if email !in m || t.date.value < m[email] {
          m := m[email := t.date.value];
        }
      }
      i := i + 1;
    }
    assert ss[..i] == ss;
  }

  /** The emails of the stamps. */
  function EmailsOf(ss: seq<Stamp>): set<string>
  {
    set k | 0 <= k < |ss| :: ss[k].email
  }

  lemma EarliestInEmails(ss: seq<Stamp>)
    ensures forall e :: Earliest(ss, e).Some? ==> e in EmailsOf(ss)
  {
    forall e | Earliest(ss, e).Some? ensures e in EmailsOf(ss) {
      EarliestIsMin(ss, e);
      var k :| 0 <= k < |ss| && DatedFor(ss[k], e) && ss[k].date.value == Earliest(ss, e).value;
    }
  }

  /** `transMap` as a value: the map `EarliestMap` describes. */
  ghost function TransMap(ss: seq<Stamp>): (m: map<string, int>)
    ensures EarliestMap(m, ss)
  {
    EarliestInEmails(ss);
    map e | e in EmailsOf(ss) && Earliest(ss, e).Some? :: Earliest(ss, e).value
  }

  /** `EarliestMap` leaves no choice: whatever map it holds of is `TransMap`. */
  lemma EarliestMapUnique(m: map<string, int>, ss: seq<Stamp>)
    requires EarliestMap(m, ss)
    ensures m == TransMap(ss)
  {
    var t := TransMap(ss);
    assert forall e :: e in m <==> e in t;
  }

  // ------------------------------------------------------------------
  // calcStats
  // ------------------------------------------------------------------

  /** A lead `calcStats` counts for a period: its creation day and its score. */
  datatype Entry = Entry(lead: Lead, day: int, score: real)

  /** The leads of `p`: with a creation date within it and a score that is a number. */
  function InPeriod(leads: seq<Lead>, p: Period): (es: seq<Entry>)
    ensures |es| <= |leads|
  {
    if leads == [] then []
    else
      var l := leads[|leads| - 1];
      InPeriod(leads[..|leads| - 1], p)
        + (if l.created.Some? && l.score.Some? && Within(l.created.value, p)
           then [Entry(l, l.created.value, l.score.value)] else [])
  }

  lemma InPeriodStep(leads: seq<Lead>, p: Period, i: nat)
    requires i < |leads|
    ensures var l := leads[i];
      InPeriod(leads[..i + 1], p) == InPeriod(leads[..i], p)
        + (if l.created.Some? && l.score.Some? && Within(l.created.value, p)
           then [Entry(l, l.created.value, l.score.value)] else [])
  {
    assert leads[..i + 1][..i] == leads[..i];
  }

  /** The six score bands: below 0, 0 to 24, 25 to 49, 50 to 74, 75 to 99, 100 or more. */
  function BucketOf(s: real): (b: nat)
    ensures b < 6
    ensures b == 0 <==> s < 0.0
    ensures b == 1 <==> 0.0 <= s < 25.0
    ensures b == 2 <==> 25.0 <= s < 50.0
    ensures b == 3 <==> 50.0 <= s < 75.0
    ensures b == 4 <==> 75.0 <= s < 100.0
    ensures b == 5 <==> 100.0 <= s
  {
    if s < 0.0 then 0 else if s < 25.0 then 1 else if s < 50.0 then 2
    else if s < 75.0 then 3 else if s < 100.0 then 4 else 5
  }

  /** The number of entries in band `b`. */
  function BucketCount(es: seq<Entry>, b: nat): nat
  {
    if es == [] then 0
    else BucketCount(es[..|es| - 1], b) + (if BucketOf(es[|es| - 1].score) == b then 1 else 0)
  }

  /** The number of qualified entries, `s >= 50`. */
  function Qualified(es: seq<Entry>): nat
  {
    if es == [] then 0
    else Qualified(es[..|es| - 1]) + (if es[|es| - 1].score >= 50.0 then 1 else 0)
  }

  /** `scores`: the entries' scores, in order. */
  function ScoresOf(es: seq<Entry>): (ss: seq<real>)
    ensures |ss| == |es|
  {
    if es == [] then [] else ScoresOf(es[..|es| - 1]) + [es[|es| - 1].score]
  }

  /** The qualified leads are those of the three top bands. */
  lemma {:induction false} QualifiedBuckets(es: seq<Entry>)
    ensures Qualified(es) == BucketCount(es, 3) + BucketCount(es, 4) + BucketCount(es, 5)
  {
    if es != [] {
      QualifiedBuckets(es[..|es| - 1]);
    }
  }

  /** The bands partition the entries. */
  lemma {:induction false} BucketsPartition(es: seq<Entry>)
    ensures BucketCount(es, 0) + BucketCount(es, 1) + BucketCount(es, 2)
          + BucketCount(es, 3) + BucketCount(es, 4) + BucketCount(es, 5) == |es|
  {
    if es != [] {
      BucketsPartition(es[..|es| - 1]);
    }
  }

  /** Which field `originData`, `profData` and `planData` group entries by. */
  datatype GroupBy = ByPlan | ByOrigin | ByProfession

  function GroupKey(e: Entry, g: GroupBy): string
  {
    match g
    case ByPlan => e.lead.plan
    case ByOrigin => e.lead.origin
    case ByProfession => e.lead.profession
  }

  /** The number of entries under key `k`. */
  function Vol(es: seq<Entry>, g: GroupBy, k: string): nat
  {
    if es == [] then 0
    else Vol(es[..|es| - 1], g, k) + (if GroupKey(es[|es| - 1], g) == k then 1 else 0)
  }

  /** The scores of the entries under key `k`, in order. */
  function ScoresUnder(es: seq<Entry>, g: GroupBy, k: string): (ss: seq<real>)
    ensures |ss| == Vol(es, g, k)
  {
    if es == [] then []
    else
      var e := es[|es| - 1];
      ScoresUnder(es[..|es| - 1], g, k) + (if GroupKey(e, g) == k then [e.score] else [])
  }

  /** Days from creation to the email's earliest sale, when that is not before. */
  function DaysToSale(e: Entry, trans: map<string, int>): Option<nat>
  {
    SaleDays(e.lead.email, e.day, trans)
  }

  /** `if (transMap[email]) { const tDate = transMap[email]; if (tDate >= d) ... }`:
      the days from `day` to the email's earliest sale, when that is not before. */
  function SaleDays(email: string, day: int, trans: map<string, int>): (r: Option<nat>)
    ensures r.Some? <==> email in trans && trans[email] >= day
    ensures r.Some? ==> r.value == trans[email] - day
  {
    if email in trans && trans[email] >= day then Some(trans[email] - day) else None
  }

  /** `daysSum` of plan `k`. */
  function DaysSum(es: seq<Entry>, k: string, trans: map<string, int>): nat
  {
    if es == [] then 0
    else
      var e := es[|es| - 1];
      DaysSum(es[..|es| - 1], k, trans) + (if e.lead.plan == k && DaysToSale(e, trans).Some? then DaysToSale(e, trans).value else 0)
  }

  /** `countDays` of plan `k`. */
  function CountDays(es: seq<Entry>, k: string, trans: map<string, int>): nat
  {
    if es == [] then 0
    else
      var e := es[|es| - 1];
      CountDays(es[..|es| - 1], k, trans) + (if e.lead.plan == k && DaysToSale(e, trans).Some? then 1 else 0)
  }

  /** Only leads of the plan that have a later sale add days: `countDays <= vol`. */
  lemma {:induction false} CountDaysAtMostVol(es: seq<Entry>, k: string, trans: map<string, int>)
    ensures CountDays(es, k, trans) <= Vol(es, ByPlan, k)
  {
    if es != [] {
      CountDaysAtMostVol(es[..|es| - 1], k, trans);
    }
  }

  lemma EntryStep(es: seq<Entry>, e: Entry, g: GroupBy, k: string, trans: map<string, int>)
    ensures var es' := es + [e];
      && Vol(es', g, k) == Vol(es, g, k) + (if GroupKey(e, g) == k then 1 else 0)
      && ScoresUnder(es', g, k) == ScoresUnder(es, g, k) + (if GroupKey(e, g) == k then [e.score] else [])
      && DaysSum(es', k, trans) == DaysSum(es, k, trans) + (if e.lead.plan == k && DaysToSale(e, trans).Some? then DaysToSale(e, trans).value else 0)
      && CountDays(es', k, trans) == CountDays(es, k, trans) + (if e.lead.plan == k && DaysToSale(e, trans).Some? then 1 else 0)
  {
    assert (es + [e])[..|es|] == es;
  }

  /** An entry of `originData` or `profData`. */
  datatype Group = Group(scores: seq<real>, vol: nat)

  function GroupVol(x: Group): real { x.vol as real }

  /** `originData` or `profData` after `es`: exactly the keys with entries, each with
      their scores and count, the counts adding up to the number of entries. */
  ghost predicate GroupTable(d: Dict<Group>, es: seq<Entry>, g: GroupBy)
  {
    && Valid(d)
    && (forall k :: GroupEntry(d, es, g, k))
    && Total(d, GroupVol) == |es| as real
  }

  /** `if (!data[key]) data[key] = {scores: [], vol: 0}; data[key].scores.push(s); data[key].vol++`. */
  function AddToGroup(d: Dict<Group>, key: string, s: real): (r: Dict<Group>)
    requires Valid(d)
    ensures Valid(r)
    ensures Total(r, GroupVol) == Total(d, GroupVol) + 1.0
  {
    var x := if key in d.vals then d.vals[key] else Group([], 0);
    PutTotal(d, key, Group(x.scores + [s], x.vol + 1), GroupVol);
    Put(d, key, Group(x.scores + [s], x.vol + 1))
  }

  lemma GroupStep(d: Dict<Group>, es: seq<Entry>, e: Entry, g: GroupBy, trans: map<string, int>)
    requires GroupTable(d, es, g)
    ensures GroupTable(AddToGroup(d, GroupKey(e, g), e.score), es + [e], g)
  {
    forall k ensures GroupEntry(AddToGroup(d, GroupKey(e, g), e.score), es + [e], g, k) {
      GroupKeyStep(d, es, e, g, k, trans);
    }
  }

  /** The entry of key `k` in `originData` or `profData` after `es`. */
  ghost predicate GroupEntry(d: Dict<Group>, es: seq<Entry>, g: GroupBy, k: string)
  {
    && (k in d.vals <==> Vol(es, g, k) > 0)
    && (k in d.vals ==> d.vals[k] == Group(ScoresUnder(es, g, k), Vol(es, g, k)))
  }

  lemma GroupKeyStep(d: Dict<Group>, es: seq<Entry>, e: Entry, g: GroupBy, k: string, trans: map<string, int>)
    requires Valid(d) && GroupEntry(d, es, g, k) && GroupEntry(d, es, g, GroupKey(e, g))
    ensures GroupEntry(AddToGroup(d, GroupKey(e, g), e.score), es + [e], g, k)
  {
    var key := GroupKey(e, g);
    var x := if key in d.vals then d.vals[key] else Group([], 0);
    var r := AddToGroup(d, key, e.score);
    assert r.vals == d.vals[key := Group(x.scores + [e.score], x.vol + 1)];
    EntryStep(es, e, g, k, trans);
    if k == key && key !in d.vals {
      assert ScoresUnder(es, g, k) == [];
    }
  }

  /** An entry of `planData`. */
  datatype PlanData = PlanData(scores: seq<real>, daysSum: nat, countDays: nat, vol: nat)

  function PlanVol(x: PlanData): real { x.vol as real }

  /** `planData` after `es`: as `GroupTable`, with the days to a sale of each plan. */
  ghost predicate PlanTable(d: Dict<PlanData>, es: seq<Entry>, trans: map<string, int>)
  {
    && Valid(d)
    && (forall k :: PlanEntry(d, es, trans, k))
    && Total(d, PlanVol) == |es| as real
  }

  /** The `planData` update for a lead of plan `key`, score `s` and days to a sale `days`. */
  function AddToPlan(d: Dict<PlanData>, key: string, s: real, days: Option<nat>): (r: Dict<PlanData>)
    requires Valid(d)
    ensures Valid(r)
    ensures Total(r, PlanVol) == Total(d, PlanVol) + 1.0
  {
    var x := if key in d.vals then d.vals[key] else PlanData([], 0, 0, 0);
    var x' := if days.Some? then PlanData(x.scores + [s], x.daysSum + days.value, x.countDays + 1, x.vol + 1)
              else PlanData(x.scores + [s], x.daysSum, x.countDays, x.vol + 1);
    PutTotal(d, key, x', PlanVol);
    Put(d, key, x')
  }

  lemma PlanStep(d: Dict<PlanData>, es: seq<Entry>, e: Entry, trans: map<string, int>)
    requires PlanTable(d, es, trans)
    ensures PlanTable(AddToPlan(d, e.lead.plan, e.score, DaysToSale(e, trans)), es + [e], trans)
  {
    forall k ensures PlanEntry(AddToPlan(d, e.lead.plan, e.score, DaysToSale(e, trans)), es + [e], trans, k) {
      PlanKeyStep(d, es, e, k, trans);
    }
  }

  /** The entry of plan `k` in `planData` after `es`. */
  ghost predicate PlanEntry(d: Dict<PlanData>, es: seq<Entry>, trans: map<string, int>, k: string)
  {
    && (k in d.vals <==> Vol(es, ByPlan, k) > 0)
    && (k in d.vals ==>
          d.vals[k] == PlanData(ScoresUnder(es, ByPlan, k), DaysSum(es, k, trans), CountDays(es, k, trans), Vol(es, ByPlan, k)))
  }

  lemma PlanKeyStep(d: Dict<PlanData>, es: seq<Entry>, e: Entry, k: string, trans: map<string, int>)
    requires Valid(d) && PlanEntry(d, es, trans, k) && PlanEntry(d, es, trans, e.lead.plan)
    ensures PlanEntry(AddToPlan(d, e.lead.plan, e.score, DaysToSale(e, trans)), es + [e], trans, k)
  {
    EntryStep(es, e, ByPlan, k, trans);
    if k != e.lead.plan {
      PlanOtherKey(d, es, e, k, trans);
    } else {
      PlanSameKey(d, es, e, trans);
    }
  }

  /** The entries of the other plans stay as they were. */
  lemma PlanOtherKey(d: Dict<PlanData>, es: seq<Entry>, e: Entry, k: string, trans: map<string, int>)
    requires Valid(d) && PlanEntry(d, es, trans, k) && k != e.lead.plan
    ensures PlanEntry(AddToPlan(d, e.lead.plan, e.score, DaysToSale(e, trans)), es + [e], trans, k)
  {
    var r := AddToPlan(d, e.lead.plan, e.score, DaysToSale(e, trans));
    assert (k in r.vals <==> k in d.vals) && (k in r.vals ==> r.vals[k] == d.vals[k]);
    EntryStep(es, e, ByPlan, k, trans);
  }

  /** The entry of the lead's own plan takes its score, and its days when it sold. */
  lemma PlanSameKey(d: Dict<PlanData>, es: seq<Entry>, e: Entry, trans: map<string, int>)
    requires Valid(d) && PlanEntry(d, es, trans, e.lead.plan)
    ensures PlanEntry(AddToPlan(d, e.lead.plan, e.score, DaysToSale(e, trans)), es + [e], trans, e.lead.plan)
  {
    var key := e.lead.plan;
    var days := DaysToSale(e, trans);
    var x := if key in d.vals then d.vals[key] else PlanData([], 0, 0, 0);
    if key !in d.vals {
      NoVolNoDays(es, key, trans);
      assert ScoresUnder(es, ByPlan, key) == [];
    }
    assert x == PlanData(ScoresUnder(es, ByPlan, key), DaysSum(es, key, trans), CountDays(es, key, trans), Vol(es, ByPlan, key));
    EntryStep(es, e, ByPlan, key, trans);
  }

  /** A plan without entries has no days. */
  lemma {:induction false} NoVolNoDays(es: seq<Entry>, k: string, trans: map<string, int>)
    requires Vol(es, ByPlan, k) == 0
    ensures DaysSum(es, k, trans) == 0 && CountDays(es, k, trans) == 0
  {
    if es != [] {
      NoVolNoDays(es[..|es| - 1], k, trans);
    }
  }

  /** The value of `calcStats`. */
  datatype PeriodStats = PeriodStats(
    scores: seq<real>, totalCount: nat, totalQualified: nat, bucketCounts: seq<int>,
    planData: Dict<PlanData>, originData: Dict<Group>, profData: Dict<Group>)

  /** `scores`, `totalCount` and `totalQualified` after the entries `es`. */
  ghost predicate Tallied(scores: seq<real>, totalCount: int, totalQualified: int, es: seq<Entry>)
  {
    scores == ScoresOf(es) && totalCount == |es| && totalQualified == Qualified(es)
  }

  lemma TalliedStep(scores: seq<real>, totalCount: int, totalQualified: int, es: seq<Entry>, e: Entry)
    requires Tallied(scores, totalCount, totalQualified, es)
    ensures Tallied(scores + [e.score], totalCount + 1, totalQualified + (if e.score >= 50.0 then 1 else 0), es + [e])
  {
    assert (es + [e])[..|es|] == es;
  }

  /** `bucketCounts` after the entries `es`: the size of every band, adding up to
      the number of entries. */
  ghost predicate Bucketed(buckets: seq<int>, es: seq<Entry>)
  {
    && |buckets| == 6
    && (forall b :: 0 <= b < 6 ==> buckets[b] == BucketCount(es, b))
    && Sum(buckets) == |es|
  }

  lemma BucketedStep(buckets: seq<int>, es: seq<Entry>, e: Entry)
    requires Bucketed(buckets, es)
    ensures var b := BucketOf(e.score);
      Bucketed(buckets[b := buckets[b] + 1], es + [e])
  {
    assert (es + [e])[..|es|] == es;
    SumBump(buckets, BucketOf(e.score));
  }

  /** `planData`, `originData` and `profData`. */
  datatype Tables = Tables(planData: Dict<PlanData>, originData: Dict<Group>, profData: Dict<Group>)

  ghost predicate TablesOf(t: Tables, es: seq<Entry>, trans: map<string, int>)
  {
    && PlanTable(t.planData, es, trans)
    && GroupTable(t.originData, es, ByOrigin)
    && GroupTable(t.profData, es, ByProfession)
  }

  /** The three table updates for lead `l` with score `s` and days to a sale `days`. */
  function AddLead(t: Tables, l: Lead, s: real, days: Option<nat>): (r: Tables)
    requires Valid(t.planData) && Valid(t.originData) && Valid(t.profData)
  {
    Tables(AddToPlan(t.planData, l.plan, s, days), AddToGroup(t.originData, l.origin, s),
           AddToGroup(t.profData, l.profession, s))
  }

  lemma TablesStep(t: Tables, es: seq<Entry>, e: Entry, trans: map<string, int>)
    requires TablesOf(t, es, trans)
    ensures TablesOf(AddLead(t, e.lead, e.score, DaysToSale(e, trans)), es + [e], trans)
  {
    PlanStep(t.planData, es, e, trans);
    GroupStep(t.originData, es, e, ByOrigin, trans);
    GroupStep(t.profData, es, e, ByProfession, trans);
  }

  /** `st` is what `calcStats` computes from the entries `es`. */
  ghost predicate StatsOf(st: PeriodStats, es: seq<Entry>, trans: map<string, int>)
  {
    && Tallied(st.scores, st.totalCount, st.totalQualified, es)
    && Bucketed(st.bucketCounts, es)
    && TablesOf(Tables(st.planData, st.originData, st.profData), es, trans)
  }

  /** `bucketCounts[b]++` for the band `b` of the entry `e`, which joins `es`. */
  method Bump(a: array<int>, ghost es: seq<Entry>, ghost e: Entry, b: nat)
    requires b == BucketOf(e.score) && Bucketed(a[..], es)
    modifies a
    ensures a[..] == old(a[..])[b := old(a[b]) + 1]
    ensures Bucketed(a[..], es + [e])
  {
    BucketedStep(a[..], es, e);
    a[b] := a[b] + 1;
  }

  /** `calcStats(p)`: the tallies of the leads of `p`. */
  method CalcStats(leads: seq<Lead>, trans: map<string, int>, p: Period) returns (st: PeriodStats)
    ensures StatsOf(st, InPeriod(leads, p), trans)
  {
    var scores: seq<real> := [];
    var tables := Tables(Empty(), Empty(), Empty());
    var totalQualified, totalCount := 0, 0;
    var bucketCounts := new int[6](_ => 0);
    assert bucketCounts[..] == Zeros(6);
    var i := 0;
    while i < |leads|
      invariant i <= |leads|
      invariant Tallied(scores, totalCount, totalQualified, InPeriod(leads[..i], p))
      invariant Bucketed(bucketCounts[..], InPeriod(leads[..i], p))
      invariant TablesOf(tables, InPeriod(leads[..i], p), trans)
    {
      var l := leads[i];
      InPeriodStep(leads, p, i);
      ghost var es := InPeriod(leads[..i], p);
      if l.created.Some? && l.score.Some? && Within(l.created.value, p) {
        var d, s := l.created.value, l.score.value;
        ghost var e := Entry(l, d, s);
        TalliedStep(scores, totalCount, totalQualified, es, e);
        TablesStep(tables, es, e, trans);
        totalCount := totalCount + 1;
        scores := scores + [s];
        totalQualified := totalQualified + (if s >= 50.0 then 1 else 0);
        var b := BucketOf(s);
        Bump(bucketCounts, es, e, b);
        tables := AddLead(tables, l, s, SaleDays(l.email, d, trans));
      } else {
        assert es + [] == es;
      }
      i := i + 1;
    }
    assert leads[..i] == leads;
    st := PeriodStats(scores, totalCount, totalQualified, bucketCounts[..], tables.planData, tables.originData, tables.profData);
  }
}
