/** The records the aggregations read, the comparison periods, and the validity
    classifier of signups. Dates are day numbers; every record carries, next to
    its raw text fields, the results of the external helpers applied to it
    (`parseDateBR` of its date column, `isUserValid` of the signup,
    `parseMoney` of the amount). */
module Records {
  import opened Wrappers
  import opened Text

  /** A comparison window (`{label, start, end}`): both ends inclusive. */
  datatype Period = Period(name: string, start: int, end: int)

  predicate Within(d: int, p: Period)
  {
    p.start <= d <= p.end
  }

  /** `Period`s as `getComparisonPeriods` returns them: every window non-empty,
      the current one first, each older window ending before the newer one begins. */
  ghost predicate WellFormed(periods: seq<Period>)
  {
    && (forall i :: 0 <= i < |periods| ==> periods[i].start <= periods[i].end)
    && (forall i :: 0 <= i < |periods| - 1 ==> periods[i + 1].end < periods[i].start)
  }

  /** A signup row. `created` is `parseDateBR(u['data_criacao_usuario (Data)'])`,
      `value` the raw validation marker (`''` when absent), `formValid` is
      `isUserValid(u)`; the text fields are `''` when absent. */
  datatype User = User(
    created: Option<int>,
    value: string,
    formValid: bool,
    medium: string,
    campaign: string,
    profession: string,
    username: string)

  /** A payment row: `date` is `parseDateBR(t['data_transacao (Data)'])` and
      `amount` is `parseMoney(t.valor)`. */
  datatype Transaction = Transaction(username: string, date: Option<int>, amount: real, plan: string)

  /** The marker that OAuth (Google) signups carry in their `value` column. */
  const GoogleMarker := "UserCadastroGoogle"

  predicate InRange(u: User, p: Period)
  {
    u.created.Some? && Within(u.created.value, p)
  }

  predicate IsGoogle(u: User)
  {
    Trim(u.value) == GoogleMarker
  }

  /** A valid lead: an OAuth signup or one that passes form validation. */
  predicate IsValid(u: User)
  {
    IsGoogle(u) || u.formValid
  }

  datatype Validity = Google | FormValid | FormInvalid

  /** The three-way split of a signup; the OAuth check comes first. */
  function Classify(u: User): (v: Validity)
    ensures v == Google <==> IsGoogle(u)
    ensures v == FormInvalid <==> !IsValid(u)
    ensures v == FormValid ==> u.formValid
  {
    if IsGoogle(u) then Google else if u.formValid then FormValid else FormInvalid
  }

  /** An OAuth signup is Google even when it also passes form validation. */
  lemma GoogleFirst(u: User)
    requires IsGoogle(u) && u.formValid
    ensures Classify(u) == Google
  {
  }

  /** `u.utm_medium || '(not set)'`. */
  function MediumOf(u: User): (m: string)
    ensures m != ""
  {
    if u.medium == "" then "(not set)" else u.medium
  }

  /** The report mode: a week against the week before, or a calendar month
      against the month before. */
  datatype Mode = Weekly | Monthly

  /** The reference day of the scoring periods: 14 days earlier in weekly mode,
      the first day of the month before in monthly mode (`previousMonthStart`
      stands for the `Date.setMonth(getMonth() - 1)` calendar step). */
  function ScoringReference(mode: Mode, reference: int, previousMonthStart: int -> int): (r: int)
    ensures mode == Weekly ==> r == reference - 14
    ensures mode == Monthly ==> r == previousMonthStart(reference)
  {
    match mode
    case Weekly => reference - 14
    case Monthly => previousMonthStart(reference)
  }

  /** `periods` and `scoringPeriods`. The reference day is the chosen day (weekly)
      or the first day of the chosen month (monthly), `None` when nothing is chosen:
      no periods without a reference day,
      otherwise what the calculator returns for the (shifted) reference day. */
  function ComparisonPeriods(mode: Mode, reference: Option<int>, lag: bool, previousMonthStart: int -> int,
                             calculator: (int, Mode) -> seq<Period>): (ps: seq<Period>)
    ensures reference.None? ==> ps == []
    ensures reference.Some? && !lag ==> ps == calculator(reference.value, mode)
    ensures reference.Some? && lag && mode == Weekly ==> ps == calculator(reference.value - 14, mode)
    ensures reference.Some? && lag && mode == Monthly ==> ps == calculator(previousMonthStart(reference.value), Monthly)
  {
    if reference.None? then []
    else if lag then calculator(ScoringReference(mode, reference.value, previousMonthStart), mode)
    else calculator(reference.value, mode)
  }
}
