/**
 * The record filters of the summary and data pages: one calendar day, an
 * inclusive date range, and the "Tất cả" / "Thu" / "Chi" type choice, with the
 * figures those pages show for what is left.
 */
module Filters {
  import opened Wrappers
  import opened Dates
  import opened Ledger
  import opened Summary

  /** The records dated on `day`, in ledger order. */
  function OnDayOf(txs: seq<Transaction>, day: Date): (r: seq<Transaction>)
    ensures forall t :: t in r <==> t in txs && t.date == day
  {
    SelectMembers(txs, OnDay(day));
    Select(txs, OnDay(day))
  }

  /** The summary page: nothing to show for an empty ledger or a day without
      records, otherwise the figures of that day's records. */
  function DaySummary(txs: seq<Transaction>, day: Date): (r: Option<Totals>)
    ensures r.None? <==> forall t :: t in txs ==> t.date != day
    ensures r.Some? ==> r.value == SummaryOf(OnDayOf(txs, day))
  {
    if txs == [] then None
    else
      var today := OnDayOf(txs, day);
      if today == [] then None
      else
        assert today[0] in today;
        Some(SummaryOf(today))
  }

  /** The date picker's answer: a pair (start, end) once both ends are
      chosen; the range filter applies only then. */
  function ByRange(txs: seq<Transaction>, picked: seq<Date>): (r: seq<Transaction>)
    ensures |picked| == 2 ==>
      forall t :: t in r <==> t in txs && DateLe(picked[0], t.date) && DateLe(t.date, picked[1])
    ensures |picked| != 2 ==> r == txs
  {
    if |picked| == 2 then
      SelectMembers(txs, Between(picked[0], picked[1]));
      Select(txs, Between(picked[0], picked[1]))
    else txs
  }

  /** The range is inclusive at both ends. */
  lemma RangeInclusive(txs: seq<Transaction>, start: Date, end: Date, t: Transaction)
    requires t in txs && DateLe(start, end) && (t.date == start || t.date == end)
    ensures t in ByRange(txs, [start, end])
  {
  }

  /** The "Loại" select box of the data page. */
  datatype TypeChoice = AllTypes | IncomeOnly | ExpenseOnly

  /** "Tất cả" keeps everything; "Thu" and "Chi" keep the records whose type is
      the lower-cased choice, so tip and advance records are dropped by both. */
  function ByType(txs: seq<Transaction>, choice: TypeChoice): (r: seq<Transaction>)
    ensures choice == AllTypes ==> r == txs
    ensures choice == IncomeOnly ==> forall t :: t in r <==> t in txs && t.kind == Thu
    ensures choice == ExpenseOnly ==> forall t :: t in r <==> t in txs && t.kind == Chi
  {
    match choice
    case AllTypes => txs
    case IncomeOnly => SelectMembers(txs, OfKind(Thu)); Select(txs, OfKind(Thu))
    case ExpenseOnly => SelectMembers(txs, OfKind(Chi)); Select(txs, OfKind(Chi))
  }

  /** The data page's table: the range filter, then the type filter. */
  function ViewFilter(txs: seq<Transaction>, picked: seq<Date>, choice: TypeChoice): (r: seq<Transaction>)
    ensures |picked| == 2 && choice == AllTypes ==>
      forall t :: t in r <==> t in txs && DateLe(picked[0], t.date) && DateLe(t.date, picked[1])
    ensures |picked| == 2 && choice == IncomeOnly ==>
      forall t :: t in r <==> t in txs && t.kind == Thu && DateLe(picked[0], t.date) && DateLe(t.date, picked[1])
    ensures |picked| == 2 && choice == ExpenseOnly ==>
      forall t :: t in r <==> t in txs && t.kind == Chi && DateLe(picked[0], t.date) && DateLe(t.date, picked[1])
    ensures |picked| != 2 && choice == AllTypes ==> r == txs
    ensures |picked| != 2 && choice == IncomeOnly ==> forall t :: t in r <==> t in txs && t.kind == Thu
    ensures |picked| != 2 && choice == ExpenseOnly ==> forall t :: t in r <==> t in txs && t.kind == Chi
    ensures choice != AllTypes ==> forall t :: t in r ==> t.kind != Tip && t.kind != ChiHo
    ensures |r| <= |txs|
  {
    ByType(ByRange(txs, picked), choice)
  }

  /** Filtering keeps the ledger order: filtering a ledger in two parts gives
      the filtered first part followed by the filtered second part. */
  lemma ViewFilterKeepsOrder(a: seq<Transaction>, b: seq<Transaction>, picked: seq<Date>, choice: TypeChoice)
    ensures ViewFilter(a + b, picked, choice) == ViewFilter(a, picked, choice) + ViewFilter(b, picked, choice)
  {
    var ra, rb := ByRange(a, picked), ByRange(b, picked);
    if |picked| == 2 {
      SelectConcat(a, b, Between(picked[0], picked[1]));
    }
    assert ByRange(a + b, picked) == ra + rb;
    match choice
    case AllTypes =>
    case IncomeOnly => SelectConcat(ra, rb, OfKind(Thu));
    case ExpenseOnly => SelectConcat(ra, rb, OfKind(Chi));
  }

  /** The figures under the data page's table: total income, total expense and
      the invoice count of the shown records, equal to their record-by-record
      running totals. */
  function ViewTotals(txs: seq<Transaction>, picked: seq<Date>, choice: TypeChoice): (r: Totals)
    ensures r == SummaryOf(ViewFilter(txs, picked, choice))
    ensures r == Running(ViewFilter(txs, picked, choice))
    ensures choice == ExpenseOnly ==> r.income == 0 && r.invoices == 0
    ensures choice == IncomeOnly ==> r.expense == 0
  {
    var shown := ViewFilter(txs, picked, choice);
    SummaryIsRunning(shown);
    if choice == ExpenseOnly then NoKind(shown, Thu); SummaryOf(shown)
    else if choice == IncomeOnly then NoKind(shown, Chi); SummaryOf(shown)
    else SummaryOf(shown)
  }

  /** Selecting a kind from records that have none of it selects nothing. */
  lemma NoKind(s: seq<Transaction>, k: TxType)
    requires forall t :: t in s ==> t.kind != k
    ensures Select(s, OfKind(k)) == []
  {
    SelectMembers(s, OfKind(k));
    if Select(s, OfKind(k)) != [] {
      assert Select(s, OfKind(k))[0] in Select(s, OfKind(k));
    }
  }
}
