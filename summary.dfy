/**
 * The summary figures of a set of records: total income, total expense, the
 * balance and the number of invoices. The export's "Tổng hợp" sheet, the
 * daily summary page and the data page all compute them the same way.
 */
module Summary {
  import opened Ledger

  datatype Totals = Totals(income: int, expense: int, balance: int, invoices: int)

  /** Income is the sum over "thu" records, expense the sum over "chi"
      records, the balance their difference, and the invoice count the sum of
      `invoice_count` over the "thu" records (0 when there are none). */
  function SummaryOf(txs: seq<Transaction>): (r: Totals)
    ensures r.balance == r.income - r.expense
  {
    var thu := Select(txs, OfKind(Thu));
    var chi := Select(txs, OfKind(Chi));
    Totals(
      SumAmount(thu),
      SumAmount(chi),
      SumAmount(thu) - SumAmount(chi),
      if thu == [] then 0 else SumInvoices(thu))
  }

  /** What one more record does to the running figures: income records add to
      income, invoices and balance, expense records add to expense and take
      from the balance, and tip and advance records change nothing. */
  function Step(s: Totals, t: Transaction): (r: Totals)
    ensures r.balance - (r.income - r.expense) == s.balance - (s.income - s.expense)
    ensures t.amount >= 0 ==> r.income >= s.income && r.expense >= s.expense
  {
    match t.kind
    case Thu => Totals(s.income + t.amount, s.expense, s.balance + t.amount, s.invoices + t.invoiceCount)
    case Chi => Totals(s.income, s.expense + t.amount, s.balance - t.amount, s.invoices)
    case Tip => s
    case ChiHo => s
  }

  /** The figures accumulated record by record from zero: a reference
      definition independent of the selections `SummaryOf` makes. */
  function Running(txs: seq<Transaction>): (r: Totals)
    ensures r.balance == r.income - r.expense
  {
    if txs == [] then Totals(0, 0, 0, 0) else Step(Running(txs[..|txs| - 1]), txs[|txs| - 1])
  }

  lemma SummaryAppend(txs: seq<Transaction>, t: Transaction)
    ensures SummaryOf(txs + [t]) == Step(SummaryOf(txs), t)
  {
    var s := txs + [t];
    assert s[..|s| - 1] == txs && s[|s| - 1] == t;
    SelectLast(s, OfKind(Thu));
    SelectLast(s, OfKind(Chi));
    if Select(txs, OfKind(Thu)) == [] {
      assert SumInvoices(Select(txs, OfKind(Thu))) == 0;
    }
  }

  /** The summary is exactly the record-by-record running figures. */
  lemma {:induction false} SummaryIsRunning(txs: seq<Transaction>)
    ensures SummaryOf(txs) == Running(txs)
  {
    if txs != [] {
      var init, t := txs[..|txs| - 1], txs[|txs| - 1];
      assert txs == init + [t];
      SummaryAppend(init, t);
      SummaryIsRunning(init);
      assert Running(txs) == Step(Running(init), t);
    }
  }

  /** Tip and advance records contribute to none of the figures. */
  lemma {:induction false} SummaryIgnoresTipAndAdvance(txs: seq<Transaction>, extra: seq<Transaction>)
    requires forall t :: t in extra ==> t.kind == Tip || t.kind == ChiHo
    ensures SummaryOf(txs + extra) == SummaryOf(txs)
    decreases |extra|
  {
    if extra != [] {
      var init := extra[..|extra| - 1];
      assert txs + extra == (txs + init) + [extra[|extra| - 1]];
      SummaryAppend(txs + init, extra[|extra| - 1]);
      SummaryIgnoresTipAndAdvance(txs, init);
    } else {
      assert txs + extra == txs;
    }
  }
}
