/**
 * The "Theo Format Excel" sheet: the ledger laid out like the salon's paper
 * book, one row per record, each amount in the column of its payment channel
 * (bank transfer, card, cash expense, cash income, tip, advance), with an
 * extra debt column for income that is still owed.
 */
module Pivot {
  import opened Ledger

  /** An amount cell: empty (`''` in the program) or an integer. */
  datatype Cell = Blank | Amount(value: int)

  /** One row of the sheet; a field left out of a constructor call is blank,
      as a key the program writes as `''`. The program also writes an always
      empty 'Nội dung (NV)' key on some rows; that column is not modelled. */
  datatype PivotRow = PivotRow(
    transfer: Cell := Blank,      // 'Chuyển khoản'
    card: Cell := Blank,          // 'QT'
    expense: Cell := Blank,       // 'CHI'
    expenseNote: string := "",    // 'Nội dung chi'
    income: Cell := Blank,        // 'THU'
    incomeNote: string := "",     // 'Nội dung thu'
    tip: Cell := Blank,           // 'TIP'
    tipNote: string := "",        // 'Nội dung TIP'
    advance: Cell := Blank,       // 'CHI HỘ'
    advanceNote: string := "",    // 'Nội dung CHI HỘ'
    debt: Cell := Blank)          // 'NỢ'

  datatype Column = TransferColumn | CardColumn | ExpenseColumn | IncomeColumn
                  | TipColumn | AdvanceColumn | DebtColumn

  function CellAt(r: PivotRow, c: Column): Cell {
    match c
    case TransferColumn => r.transfer
    case CardColumn => r.card
    case ExpenseColumn => r.expense
    case IncomeColumn => r.income
    case TipColumn => r.tip
    case AdvanceColumn => r.advance
    case DebtColumn => r.debt
  }

  /** How many of the seven amount columns of a row are filled. */
  function FilledCount(r: PivotRow): nat {
    (if r.transfer.Amount? then 1 else 0) + (if r.card.Amount? then 1 else 0)
    + (if r.expense.Amount? then 1 else 0) + (if r.income.Amount? then 1 else 0)
    + (if r.tip.Amount? then 1 else 0) + (if r.advance.Amount? then 1 else 0)
    + (if r.debt.Amount? then 1 else 0)
  }

  /** Python's `a or b` on two strings: `a` unless it is empty. */
  function OrElse(a: string, b: string): string {
    if a == "" then b else a
  }

  /** The column that receives a record's amount: bank transfers and card
      payments go to their own columns whatever the kind; other income
      (cash or no method) to THU, other expense to CHI; tips to TIP and
      advances to CHI HỘ. */
  function AmountColumn(t: Transaction): (c: Column)
    ensures c != DebtColumn
    ensures c == TipColumn <==> t.kind == Tip
    ensures c == AdvanceColumn <==> t.kind == ChiHo
    ensures c == IncomeColumn ==> t.kind == Thu && t.paymentMethod != TRANSFER && t.paymentMethod != CARD
    ensures c == ExpenseColumn ==> t.kind == Chi && t.paymentMethod != TRANSFER && t.paymentMethod != CARD
    ensures c == TransferColumn ==> t.paymentMethod == TRANSFER
    ensures c == CardColumn ==> t.paymentMethod == CARD
  {
    match t.kind
    case Thu =>
      if t.paymentMethod == TRANSFER then TransferColumn
      else if t.paymentMethod == CARD then CardColumn
      else IncomeColumn
    case Chi =>
      if t.paymentMethod == TRANSFER then TransferColumn
      else if t.paymentMethod == CARD then CardColumn
      else ExpenseColumn
    case Tip => TipColumn
    case ChiHo => AdvanceColumn
  }

  /** Whether the row of a record carries a debt amount. */
  predicate HasDebt(t: Transaction) {
    t.kind == Thu && t.debtAmount > 0
  }

  /** The row a record becomes, column by column: the amount in its amount
      column, the debt in 'NỢ' when it has one, the narrative of its kind
      (income: description, else category; expense: purchase item, else
      category; tip and advance: staff name) and blanks everywhere else. */
  function RowOf(t: Transaction): (r: PivotRow)
    ensures CellAt(r, AmountColumn(t)) == Amount(t.amount)
    ensures r.debt.Amount? <==> HasDebt(t)
    ensures r.incomeNote == if t.kind != Thu then "" else if t.description != "" then t.description else t.category
    ensures r.expenseNote == if t.kind != Chi then "" else if t.purchaseItem != "" then t.purchaseItem else t.category
    ensures r.tipNote == if t.kind == Tip then t.staffName else ""
    ensures r.advanceNote == if t.kind == ChiHo then t.staffName else ""
  {
    var col := AmountColumn(t);
    PivotRow(
      transfer := if col == TransferColumn then Amount(t.amount) else Blank,
      card := if col == CardColumn then Amount(t.amount) else Blank,
      expense := if col == ExpenseColumn then Amount(t.amount) else Blank,
      expenseNote := if t.kind == Chi then OrElse(t.purchaseItem, t.category) else "",
      income := if col == IncomeColumn then Amount(t.amount) else Blank,
      incomeNote := if t.kind == Thu then OrElse(t.description, t.category) else "",
      tip := if col == TipColumn then Amount(t.amount) else Blank,
      tipNote := if t.kind == Tip then t.staffName else "",
      advance := if col == AdvanceColumn then Amount(t.amount) else Blank,
      advanceNote := if t.kind == ChiHo then t.staffName else "",
      debt := if HasDebt(t) then Amount(t.debtAmount) else Blank)
  }

  /** Every amount column of a record's row is blank except its amount column,
      which holds the amount, and 'NỢ', which holds the debt exactly when the
      record is income with a positive debt. */
  lemma RowColumns(t: Transaction, c: Column)
    ensures CellAt(RowOf(t), c) ==
      if c == AmountColumn(t) then Amount(t.amount)
      else if c == DebtColumn && HasDebt(t) then Amount(t.debtAmount)
      else Blank
  {
  }

  /** Exactly one amount column is filled, or two for income with a debt. */
  lemma RowFilledCount(t: Transaction)
    ensures FilledCount(RowOf(t)) == if HasDebt(t) then 2 else 1
  {
  }

  /** The rows of a list of records, in order. */
  function RowsOf(s: seq<Transaction>): (r: seq<PivotRow>)
    ensures |r| == |s|
  {
    if s == [] then [] else RowsOf(s[..|s| - 1]) + [RowOf(s[|s| - 1])]
  }

  lemma {:induction false} RowsOfAt(s: seq<Transaction>)
    ensures forall i :: 0 <= i < |s| ==> RowsOf(s)[i] == RowOf(s[i])
  {
    if s != [] {
      RowsOfAt(s[..|s| - 1]);
    }
  }

  /** One more record, one more row. */
  lemma RowsOfPrefix(s: seq<Transaction>, i: nat)
    requires i < |s|
    ensures RowsOf(s[..i + 1]) == RowsOf(s[..i]) + [RowOf(s[i])]
  {
    assert s[..i + 1][..i] == s[..i];
  }

  /** The records in the order the sheet lists them: all income records, then
      all expense, then all tip, then all advance records, each group in
      ledger order. */
  function Grouped(txs: seq<Transaction>): (r: seq<Transaction>)
    ensures multiset(r) == multiset(txs)
    ensures |r| == |txs|
  {
    KindsPartition(txs);
    assert |multiset(txs)| == |txs|;
    Select(txs, OfKind(Thu)) + Select(txs, OfKind(Chi))
    + Select(txs, OfKind(Tip)) + Select(txs, OfKind(ChiHo))
  }

  /** The rows of the sheet, before the placeholder for an empty sheet. */
  function PivotRows(txs: seq<Transaction>): (r: seq<PivotRow>)
    ensures |r| == |txs|
  {
    RowsOf(Grouped(txs))
  }

  function KindRank(k: TxType): nat {
    match k
    case Thu => 0
    case Chi => 1
    case Tip => 2
    case ChiHo => 3
  }

  lemma SelectedKinds(s: seq<Transaction>, k: TxType)
    ensures forall i :: 0 <= i < |Select(s, OfKind(k))| ==> Select(s, OfKind(k))[i].kind == k
  {
    SelectMembers(s, OfKind(k));
    forall i | 0 <= i < |Select(s, OfKind(k))| ensures Select(s, OfKind(k))[i].kind == k {
      assert Select(s, OfKind(k))[i] in Select(s, OfKind(k));
    }
  }

  /** In the grouped order the kinds come as income, expense, tip, advance. */
  lemma GroupedKindOrder(txs: seq<Transaction>)
    ensures forall i, j :: 0 <= i < j < |Grouped(txs)| ==>
      KindRank(Grouped(txs)[i].kind) <= KindRank(Grouped(txs)[j].kind)
  {
    var a, b, c, d := Select(txs, OfKind(Thu)), Select(txs, OfKind(Chi)),
                      Select(txs, OfKind(Tip)), Select(txs, OfKind(ChiHo));
    SelectedKinds(txs, Thu);
    SelectedKinds(txs, Chi);
    SelectedKinds(txs, Tip);
    SelectedKinds(txs, ChiHo);
    var g := Grouped(txs);
    forall i | 0 <= i < |g|
      ensures KindRank(g[i].kind) ==
        if i < |a| then 0 else if i < |a| + |b| then 1 else if i < |a| + |b| + |c| then 2 else 3
    {
      if i < |a| { assert g[i] == a[i]; }
      else if i < |a| + |b| { assert g[i] == b[i - |a|]; }
      else if i < |a| + |b| + |c| { assert g[i] == c[i - |a| - |b|]; }
      else { assert g[i] == d[i - |a| - |b| - |c|]; }
    }
  }

  /** The sheet has one row per record, never split: row i is the row of the
      i-th record of the grouped order, which is a reordering of the ledger. */
  lemma PivotRowsPerRecord(txs: seq<Transaction>)
    ensures |PivotRows(txs)| == |txs|
    ensures forall i :: 0 <= i < |txs| ==> PivotRows(txs)[i] == RowOf(Grouped(txs)[i])
  {
    RowsOfAt(Grouped(txs));
  }

  /** The narrative columns of a row belong to its record's kind. */
  lemma RowNarratives(t: Transaction)
    ensures RowOf(t).incomeNote != "" ==> t.kind == Thu
    ensures RowOf(t).expenseNote != "" ==> t.kind == Chi
    ensures RowOf(t).tipNote != "" ==> t.kind == Tip
    ensures RowOf(t).advanceNote != "" ==> t.kind == ChiHo
  {
  }

  /** Builds the rows as the program does: one pass per kind, in the order
      income, expense, tip, advance, each appending a row per record. */
  method BuildPivotRows(txs: seq<Transaction>) returns (rows: seq<PivotRow>)
    ensures rows == PivotRows(txs)
    ensures |rows| == |txs|
  {
    var thu := Select(txs, OfKind(Thu));
    var chi := Select(txs, OfKind(Chi));
    var tip := Select(txs, OfKind(Tip));
    var chiHo := Select(txs, OfKind(ChiHo));
    SelectedKinds(txs, Thu);
    SelectedKinds(txs, Chi);
    SelectedKinds(txs, Tip);
    SelectedKinds(txs, ChiHo);
    rows := [];
    rows := AppendIncomeRows(rows, thu);
    assert rows == RowsOf(thu);
    rows := AppendExpenseRows(rows, chi);
    rows := AppendTipRows(rows, tip);
    rows := AppendAdvanceRows(rows, chiHo);
    GroupedRows(txs);
    assert rows == PivotRows(txs);
  }

  /** The sheet's rows are the rows of the four groups, one after the other. */
  lemma GroupedRows(txs: seq<Transaction>)
    ensures PivotRows(txs) == RowsOf(Select(txs, OfKind(Thu))) + RowsOf(Select(txs, OfKind(Chi)))
                              + RowsOf(Select(txs, OfKind(Tip))) + RowsOf(Select(txs, OfKind(ChiHo)))
  {
    var a, b, c, d := Select(txs, OfKind(Thu)), Select(txs, OfKind(Chi)),
                      Select(txs, OfKind(Tip)), Select(txs, OfKind(ChiHo));
    RowsOfConcat(a, b);
    RowsOfConcat(a + b, c);
    RowsOfConcat(a + b + c, d);
  }

  /** The income pass: a row per record, and for a record with a debt, 'NỢ'
      is then set on the row just appended. */
  method AppendIncomeRows(start: seq<PivotRow>, thu: seq<Transaction>) returns (rows: seq<PivotRow>)
    requires forall i :: 0 <= i < |thu| ==> thu[i].kind == Thu
    ensures rows == start + RowsOf(thu)
  {
    rows := start;
    for i := 0 to |thu|
      invariant rows == start + RowsOf(thu[..i])
    {
      var t := thu[i];
      ghost var before := rows;
      var row := IncomeCells(t);
      rows := rows + [row];
      if t.debtAmount > 0 {
        rows := rows[..|rows| - 1] + [rows[|rows| - 1].(debt := Amount(t.debtAmount))];
      }
      assert rows == before + [RowOf(t)];
      RowsOfPrefix(thu, i);
    }
    assert thu[..|thu|] == thu;
  }

  /** The row of an income record before its debt is set: the amount goes to
      the column of the payment method, with no method or cash giving THU. */
  method IncomeCells(t: Transaction) returns (row: PivotRow)
    requires t.kind == Thu
    ensures row == RowOf(t).(debt := Blank)
  {
    var note := OrElse(t.description, t.category);
    if t.paymentMethod != "" {
      if t.paymentMethod == TRANSFER {
        row := PivotRow(transfer := Amount(t.amount), incomeNote := note);
      } else if t.paymentMethod == CARD {
        row := PivotRow(card := Amount(t.amount), incomeNote := note);
      } else {
        row := PivotRow(income := Amount(t.amount), incomeNote := note);
      }
    } else {
      row := PivotRow(income := Amount(t.amount), incomeNote := note);
    }
  }

  /** The expense pass: transfer, card, or else CHI. */
  method AppendExpenseRows(start: seq<PivotRow>, chi: seq<Transaction>) returns (rows: seq<PivotRow>)
    requires forall i :: 0 <= i < |chi| ==> chi[i].kind == Chi
    ensures rows == start + RowsOf(chi)
  {
    rows := start;
    for i := 0 to |chi|
      invariant rows == start + RowsOf(chi[..i])
    {
      var row := ExpenseCells(chi[i]);
      rows := rows + [row];
      RowsOfPrefix(chi, i);
    }
    assert chi[..|chi|] == chi;
  }

  /** The row of an expense record: transfer, card, or else CHI, with the
      purchase item (or else the category) as its note. */
  method ExpenseCells(t: Transaction) returns (row: PivotRow)
    requires t.kind == Chi
    ensures row == RowOf(t)
  {
    var payment := t.paymentMethod;
    var note := OrElse(t.purchaseItem, t.category);
    if payment == TRANSFER {
      row := PivotRow(transfer := Amount(t.amount), expenseNote := note);
    } else if payment == CARD {
      row := PivotRow(card := Amount(t.amount), expenseNote := note);
    } else {
      row := PivotRow(expense := Amount(t.amount), expenseNote := note);
    }
  }

  /** The tip pass. */
  method AppendTipRows(start: seq<PivotRow>, tip: seq<Transaction>) returns (rows: seq<PivotRow>)
    requires forall i :: 0 <= i < |tip| ==> tip[i].kind == Tip
    ensures rows == start + RowsOf(tip)
  {
    rows := start;
    for i := 0 to |tip|
      invariant rows == start + RowsOf(tip[..i])
    {
      var t := tip[i];
      rows := rows + [PivotRow(tip := Amount(t.amount), tipNote := t.staffName)];
      RowsOfPrefix(tip, i);
    }
    assert tip[..|tip|] == tip;
  }

  /** The advance pass. */
  method AppendAdvanceRows(start: seq<PivotRow>, chiHo: seq<Transaction>) returns (rows: seq<PivotRow>)
    requires forall i :: 0 <= i < |chiHo| ==> chiHo[i].kind == ChiHo
    ensures rows == start + RowsOf(chiHo)
  {
    rows := start;
    for i := 0 to |chiHo|
      invariant rows == start + RowsOf(chiHo[..i])
    {
      var t := chiHo[i];
      rows := rows + [PivotRow(advance := Amount(t.amount), advanceNote := t.staffName)];
      RowsOfPrefix(chiHo, i);
    }
    assert chiHo[..|chiHo|] == chiHo;
  }

  lemma {:induction false} RowsOfConcat(a: seq<Transaction>, b: seq<Transaction>)
    ensures RowsOf(a + b) == RowsOf(a) + RowsOf(b)
    decreases |b|
  {
    if b == [] {
      assert a + b == a;
    } else {
      assert (a + b)[..|a + b| - 1] == a + b[..|b| - 1];
      RowsOfConcat(a, b[..|b| - 1]);
    }
  }

  /** The sheet as written: a single blank row stands in for an empty table. */
  function PivotSheet(txs: seq<Transaction>): (r: seq<PivotRow>)
    ensures txs != [] ==> r == PivotRows(txs)
    ensures txs == [] ==> r == [PivotRow()]
  {
    PivotRowsPerRecord(txs);
    var rows := PivotRows(txs);
    if rows == [] then [PivotRow()] else rows
  }
}
