/** `emailMetrics`: sums over the email campaigns of each period, the scorecard
    comparing the current period with the previous one, and the list of the
    current period's campaigns by sending day. `parseDateBrevo` and `parseRate`
    are parameters: `sendDay` and `rate`. */
module Email {
  import opened Wrappers
  import opened Fields
  import opened Records
  import opened Seqs
  import Acquisition

  const SentKeys: seq<string> := ["Sent", "Enviados"]
  const DeliveredKeys: seq<string> := ["Delivered", "Entregues"]
  const OpenKeys: seq<string> := ["Trackable open rate", "Open rate", "Taxa de abertura"]
  const CtorKeys: seq<string> := ["Click-to-Open rate", "CTOR"]
  const UnsubKeys: seq<string> := ["Unsubscription rate", "Taxa de descadastro"]
  const DateKeys: seq<string> := ["Sending date", "Data de envio", "Data"]
  const NameKeys: seq<string> := ["Campaign Name", "Nome da campanha", "Nome"]
  const SubjectKeys: seq<string> := ["Subject", "Assunto"]

  /** `Math.round(x)`: the nearest integer, halves rounded up. */
  function Round(x: real): (n: int)
    ensures n as real - 0.5 <= x < n as real + 0.5
  {
    (x + 0.5).Floor
  }

  /** The numbers `calcStats` reads from one campaign row: `cleanNum` of the sent
      and delivered counts, `parseRate` of the three rates. */
  datatype Reading = Reading(sent: int, delivered: int, openRate: real, ctor: real, unsubRate: real)

  function Read(e: Row, rate: Option<string> -> real): Reading
  {
    Reading(CleanNum(GetVal(Some(e), SentKeys)), CleanNum(GetVal(Some(e), DeliveredKeys)),
            rate(GetVal(Some(e), OpenKeys)), rate(GetVal(Some(e), CtorKeys)), rate(GetVal(Some(e), UnsubKeys)))
  }

  /** The readings of every row, in order. */
  function Readings(emails: seq<Row>, rate: Option<string> -> real): (rs: seq<Reading>)
    ensures |rs| == |emails|
    ensures forall k :: 0 <= k < |emails| ==> rs[k] == Read(emails[k], rate)
  {
    seq(|emails|, k requires 0 <= k < |emails| => Read(emails[k], rate))
  }

  /** The five running sums of `calcStats`: sent, delivered, and the delivered
      messages weighted by the open rate, by open and click-to-open rate, and by
      the unsubscription rate. */
  datatype Weights = Weights(sent: int, delivered: int, open: real, click: real, unsub: real)

  function Plus(a: Weights, b: Weights): Weights
  {
    Weights(a.sent + b.sent, a.delivered + b.delivered, a.open + b.open, a.click + b.click, a.unsub + b.unsub)
  }

  /** What one campaign adds to the sums. */
  function Share(r: Reading): Weights
  {
    var d := r.delivered as real;
    var opens := d * (r.openRate / 100.0);
    Weights(r.sent, r.delivered, opens, opens * (r.ctor / 100.0), d * (r.unsubRate / 100.0))
  }

  /** The sums over the campaigns read as `rs`. */
  function Accumulate(rs: seq<Reading>): Weights
  {
    if rs == [] then Weights(0, 0, 0.0, 0.0, 0.0)
    else Plus(Accumulate(rs[..|rs| - 1]), Share(rs[|rs| - 1]))
  }

  lemma AccumulateStep(rs: seq<Reading>, i: nat)
    requires i < |rs|
    ensures Accumulate(rs[..i + 1]) == Plus(Accumulate(rs[..i]), Share(rs[i]))
  {
    assert rs[..i + 1][..i] == rs[..i];
  }

  /** The sums over two batches of campaigns add up. */
  lemma {:induction false} AccumulateConcat(a: seq<Reading>, b: seq<Reading>)
    ensures Accumulate(a + b) == Plus(Accumulate(a), Accumulate(b))
    decreases |b|
  {
    if b == [] {
      assert a + b == a;
    } else {
      var n := |b| - 1;
      assert (a + b)[..|a + b| - 1] == a + b[..n];
      assert (a + b)[|a + b| - 1] == b[n];
      AccumulateConcat(a, b[..n]);
    }
  }

  /** Deliveries are not negative and every rate is a percentage. */
  predicate PlausibleReading(r: Reading)
  {
    r.delivered >= 0 && 0.0 <= r.openRate <= 100.0 && 0.0 <= r.ctor <= 100.0 && 0.0 <= r.unsubRate <= 100.0
  }

  predicate Plausible(rs: seq<Reading>)
  {
    forall k :: 0 <= k < |rs| ==> PlausibleReading(rs[k])
  }

  /** A share of at most the whole. */
  lemma Scale(d: real, f: real)
    requires 0.0 <= d && 0.0 <= f <= 1.0
    ensures 0.0 <= d * f <= d
  {
  }

  lemma ShareBounded(r: Reading)
    requires PlausibleReading(r)
    ensures var w := Share(r); 0.0 <= w.click <= w.open <= w.delivered as real && 0.0 <= w.unsub <= w.delivered as real
  {
    var d := r.delivered as real;
    Scale(d, r.openRate / 100.0);
    Scale(d * (r.openRate / 100.0), r.ctor / 100.0);
    Scale(d, r.unsubRate / 100.0);
  }

  /** With plausible inputs no weighted sum exceeds the one it is a share of. */
  lemma {:induction false} WeightsBounded(rs: seq<Reading>)
    requires Plausible(rs)
    ensures var w := Accumulate(rs);
      0.0 <= w.click <= w.open <= w.delivered as real && 0.0 <= w.unsub <= w.delivered as real
  {
    if rs != [] {
      var n := |rs| - 1;
      assert Plausible(rs[..n]) by {
        forall k | 0 <= k < n ensures rs[..n][k] == rs[k] { }
      }
      WeightsBounded(rs[..n]);
      ShareBounded(rs[n]);
    }
  }

  /** What `calcStats` returns. */
  datatype EmailStats = EmailStats(sent: int, delivered: int, count: nat, openRate: real, ctor: real,
                                   unsubRate: real, unsubCount: int)

  /** `calcStats(emails)`: the sums, the open rate and the unsubscription rate per
      delivered message, the click-to-open rate per open, all 0 without a
      denominator, and the rounded number of unsubscriptions. */
  function Stats(rs: seq<Reading>): (st: EmailStats)
    ensures st.count == |rs|
    ensures st.sent == Accumulate(rs).sent && st.delivered == Accumulate(rs).delivered
    ensures st.delivered <= 0 ==> st.openRate == 0.0 && st.unsubRate == 0.0
    ensures Accumulate(rs).open <= 0.0 ==> st.ctor == 0.0
    ensures st.delivered > 0 ==>
      && st.openRate * st.delivered as real == Accumulate(rs).open * 100.0
      && st.unsubRate * st.delivered as real == Accumulate(rs).unsub * 100.0
    ensures Accumulate(rs).open > 0.0 ==> st.ctor * Accumulate(rs).open == Accumulate(rs).click * 100.0
  {
    var w := Accumulate(rs);
    EmailStats(w.sent, w.delivered, |rs|,
               Acquisition.Percent(w.open, w.delivered as real),
               Acquisition.Percent(w.click, w.open),
               Acquisition.Percent(w.unsub, w.delivered as real),
               Round(w.unsub))
  }

  /** With plausible inputs the three rates are percentages and the unsubscription
      count lies between 0 and the delivered count. */
  lemma StatsBounded(rs: seq<Reading>)
    requires Plausible(rs)
    ensures var st := Stats(rs);
      && 0.0 <= st.openRate <= 100.0 && 0.0 <= st.ctor <= 100.0 && 0.0 <= st.unsubRate <= 100.0
      && 0 <= st.unsubCount <= st.delivered
  {
    WeightsBounded(rs);
  }

  /** The `emails.forEach` of `calcStats`, over the rows' readings. */
  method CalcStats(rs: seq<Reading>) returns (st: EmailStats)
    ensures st == Stats(rs)
  {
    var sent, delivered, weightOpen, weightClick, weightUnsub := 0, 0, 0.0, 0.0, 0.0;
    var i := 0;
    while i < |rs|
      invariant i <= |rs|
      invariant Weights(sent, delivered, weightOpen, weightClick, weightUnsub) == Accumulate(rs[..i])
    {
      var w := Share(rs[i]);
      sent := sent + w.sent;
      delivered := delivered + w.delivered;
      weightOpen := weightOpen + w.open;
      weightClick := weightClick + w.click;
      weightUnsub := weightUnsub + w.unsub;
      AccumulateStep(rs, i);
      i := i + 1;
    }
    assert rs[..|rs|] == rs;
    st := EmailStats(sent, delivered, |rs|,
                     if delivered > 0 then (weightOpen / delivered as real) * 100.0 else 0.0,
                     if weightOpen > 0.0 then (weightClick / weightOpen) * 100.0 else 0.0,
                     if delivered > 0 then (weightUnsub / delivered as real) * 100.0 else 0.0,
                     Round(weightUnsub));
  }

  /** The sending day of a campaign, as `parseDateBrevo` reads it. */
  function SendDay(e: Row, sendDay: Option<string> -> Option<int>): Option<int>
  {
    sendDay(GetVal(Some(e), DateKeys))
  }

  predicate SentWithin(e: Row, p: Period, sendDay: Option<string> -> Option<int>)
  {
    SendDay(e, sendDay).Some? && Within(SendDay(e, sendDay).value, p)
  }

  /** The campaigns sent within `p`, in their order. */
  function EmailsIn(emails: seq<Row>, p: Period, sendDay: Option<string> -> Option<int>): (r: seq<Row>)
    ensures forall k :: 0 <= k < |r| ==> r[k] in emails && SentWithin(r[k], p, sendDay)
    ensures forall k :: 0 <= k < |emails| && SentWithin(emails[k], p, sendDay) ==> emails[k] in r
  {
    Filter(emails, SentIn(p, sendDay))
  }

  /** Each campaign sent within `p` is kept as often as `emails` holds it. */
  lemma EmailsInCounts(emails: seq<Row>, p: Period, sendDay: Option<string> -> Option<int>)
    ensures forall e :: multiset(EmailsIn(emails, p, sendDay))[e] == (if SentWithin(e, p, sendDay) then multiset(emails)[e] else 0)
  {
    FilterCounts(emails, SentIn(p, sendDay));
  }

  /** The test of the campaign filter for period `p`. */
  function SentIn(p: Period, sendDay: Option<string> -> Option<int>): Row -> bool
  {
    e => SentWithin(e, p, sendDay)
  }

  /** A row of the period trend: the period's name and its stats. */
  datatype TrendRow = TrendRow(name: string, stats: EmailStats)

  function TrendOf(emails: seq<Row>, p: Period, sendDay: Option<string> -> Option<int>,
                   rate: Option<string> -> real): TrendRow
  {
    TrendRow(p.name, Stats(Readings(EmailsIn(emails, p, sendDay), rate)))
  }

  /** The row of period `p`. */
  method TrendRowOf(emails: seq<Row>, p: Period, sendDay: Option<string> -> Option<int>,
                    rate: Option<string> -> real) returns (row: TrendRow)
    ensures row == TrendOf(emails, p, sendDay, rate)
  {
    var st := CalcStats(Readings(EmailsIn(emails, p, sendDay), rate));
    row := TrendRow(p.name, st);
  }

  /** The trend rows of `periods`, latest first, listed oldest first. */
  function Trends(emails: seq<Row>, periods: seq<Period>, sendDay: Option<string> -> Option<int>,
                  rate: Option<string> -> real): seq<TrendRow>
  {
    if periods == [] then [] else Trends(emails, periods[1..], sendDay, rate) + [TrendOf(emails, periods[0], sendDay, rate)]
  }

  /** Row `k` of the trend is the row of the `k`-th oldest period. */
  lemma {:induction false} TrendsAt(emails: seq<Row>, periods: seq<Period>, sendDay: Option<string> -> Option<int>,
                                    rate: Option<string> -> real, k: nat)
    requires k < |periods|
    ensures |Trends(emails, periods, sendDay, rate)| == |periods|
    ensures Trends(emails, periods, sendDay, rate)[k] == TrendOf(emails, periods[|periods| - 1 - k], sendDay, rate)
  {
    TrendsLength(emails, periods, sendDay, rate);
    if k < |periods| - 1 {
      TrendsAt(emails, periods[1..], sendDay, rate, k);
    }
  }

  lemma {:induction false} TrendsLength(emails: seq<Row>, periods: seq<Period>, sendDay: Option<string> -> Option<int>,
                                        rate: Option<string> -> real)
    ensures |Trends(emails, periods, sendDay, rate)| == |periods|
  {
    if periods != [] {
      TrendsLength(emails, periods[1..], sendDay, rate);
    }
  }

  /** `trendRows`: one row per period, oldest first. */
  method TrendRows(emails: seq<Row>, periods: seq<Period>, sendDay: Option<string> -> Option<int>,
                   rate: Option<string> -> real) returns (rows: seq<TrendRow>)
    ensures rows == Trends(emails, periods, sendDay, rate)
  {
    rows := [];
    var k := 0;
    while k < |periods|
      invariant k <= |periods| && rows == Trends(emails, periods[|periods| - k..], sendDay, rate)
    {
      var row := TrendRowOf(emails, periods[|periods| - 1 - k], sendDay, rate);
      ghost var tail := periods[|periods| - 1 - k..];
      assert tail[0] == periods[|periods| - 1 - k] && tail[1..] == periods[|periods| - k..];
      rows := rows + [row];
      k := k + 1;
    }
  }

  /** A row of the current period's campaign list. `day` stands for the formatted date. */
  datatype ActionRow = ActionRow(day: Option<int>, name: string, subject: string, sent: int, delivered: int,
                                 openRate: real, ctor: real, unsubRate: real, unsubs: int)

  function ActionOf(e: Row, sendDay: Option<string> -> Option<int>, rate: Option<string> -> real): ActionRow
  {
    var r := Read(e, rate);
    ActionRow(SendDay(e, sendDay), GetVal(Some(e), NameKeys).GetOr("-"), GetVal(Some(e), SubjectKeys).GetOr("-"),
              r.sent, r.delivered, r.openRate, r.ctor, r.unsubRate,
              Round(r.delivered as real * (r.unsubRate / 100.0)))
  }

  function ActionsOf(es: seq<Row>, sendDay: Option<string> -> Option<int>, rate: Option<string> -> real): (r: seq<ActionRow>)
    ensures |r| == |es|
    ensures forall k :: 0 <= k < |es| ==> r[k] == ActionOf(es[k], sendDay, rate)
  {
    if es == [] then [] else [ActionOf(es[0], sendDay, rate)] + ActionsOf(es[1..], sendDay, rate)
  }

  /** `sortDate?.getTime() || 0`, negated so that a descending sort is an ascending one. */
  function Earliness(a: ActionRow): real
  {
    -(a.day.GetOr(0) as real)
  }

  /** `actionsRows`: the campaigns of `p`, earliest first. */
  function ActionRows(emails: seq<Row>, p: Period, sendDay: Option<string> -> Option<int>,
                      rate: Option<string> -> real): seq<ActionRow>
  {
    SortDesc(ActionsOf(EmailsIn(emails, p, sendDay), sendDay, rate), Earliness)
  }

  /** The list holds one row per campaign sent within `p`, each carrying its
      sending day, ordered by that day. */
  lemma ActionRowsOrdered(emails: seq<Row>, p: Period, sendDay: Option<string> -> Option<int>,
                          rate: Option<string> -> real)
    ensures var rows := ActionRows(emails, p, sendDay, rate);
      && |rows| == |EmailsIn(emails, p, sendDay)|
      && multiset(rows) == multiset(ActionsOf(EmailsIn(emails, p, sendDay), sendDay, rate))
      && (forall k :: 0 <= k < |rows| ==> Dated(rows[k], p))
      && (forall i, j :: 0 <= i < j < |rows| ==> rows[i].day.value <= rows[j].day.value)
  {
    var es := EmailsIn(emails, p, sendDay);
    var acts := ActionsOf(es, sendDay, rate);
    var rows := ActionRows(emails, p, sendDay, rate);
    ActionsDated(es, p, sendDay, rate);
    forall k | 0 <= k < |rows| ensures Dated(rows[k], p) {
      assert rows[k] in multiset(acts);
    }
    forall i, j | 0 <= i < j < |rows| ensures rows[i].day.value <= rows[j].day.value {
      assert Earliness(rows[i]) >= Earliness(rows[j]);
    }
  }

  /** Campaign row `a` carries a sending day within `p`. */
  predicate Dated(a: ActionRow, p: Period)
  {
    a.day.Some? && Within(a.day.value, p)
  }

  /** The rows of campaigns sent within `p` each carry their sending day. */
  lemma ActionsDated(es: seq<Row>, p: Period, sendDay: Option<string> -> Option<int>, rate: Option<string> -> real)
    requires forall k :: 0 <= k < |es| ==> SentWithin(es[k], p, sendDay)
    ensures forall a :: a in ActionsOf(es, sendDay, rate) ==> Dated(a, p)
  {
    var acts := ActionsOf(es, sendDay, rate);
    forall a | a in acts ensures Dated(a, p) {
      var m :| 0 <= m < |acts| && acts[m] == a;
      assert SentWithin(es[m], p, sendDay);
    }
  }

  /** What `emailMetrics` returns: the current and previous stats, the trend rows and the campaign list. */
  datatype EmailReport = EmailReport(curr: EmailStats, prev: EmailStats, trend: seq<TrendRow>, actions: seq<ActionRow>)

  /** `emailMetrics`: nothing without campaigns or without two periods. */
  method EmailMetrics(emails: seq<Row>, periods: seq<Period>, sendDay: Option<string> -> Option<int>,
                      rate: Option<string> -> real) returns (r: Option<EmailReport>)
    ensures r.None? <==> |emails| == 0 || |periods| < 2
    ensures r.Some? ==>
      && r.value.curr == Stats(Readings(EmailsIn(emails, periods[0], sendDay), rate))
      && r.value.prev == Stats(Readings(EmailsIn(emails, periods[1], sendDay), rate))
      && r.value.trend == Trends(emails, periods, sendDay, rate)
      && r.value.actions == ActionRows(emails, periods[0], sendDay, rate)
  {
    if |emails| == 0 || |periods| < 2 {
      return None;
    }
    var trendRows := TrendRows(emails, periods, sendDay, rate);
    TrendsAt(emails, periods, sendDay, rate, |periods| - 1);
    TrendsAt(emails, periods, sendDay, rate, |periods| - 2);
    var curr := trendRows[|trendRows| - 1].stats;
    var prev := trendRows[|trendRows| - 2].stats;
    r := Some(EmailReport(curr, prev, trendRows, ActionRows(emails, periods[0], sendDay, rate)));
  }
}
