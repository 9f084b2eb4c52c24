/**
 * The exported workbook: the "Tổng hợp" summary sheet, the income and
 * expense detail sheets with their rollups, the "Tất cả" sheet of every
 * record and the "Theo Format Excel" sheet. The model builds the tables of
 * each sheet; writing them to a file is not modelled.
 */
module Report {
  import opened Wrappers
  import opened Dates
  import opened Ledger
  import opened Summary
  import opened Rollup
  import opened Pivot

  /** One line of the "Tổng hợp" sheet: a caption ('Loại') and a figure ('Số tiền'). */
  datatype SummaryLine = SummaryLine(caption: string, amount: int)

  /** The "Tổng hợp" sheet: income, expense, balance and invoice count, in
      that order, under their labels. */
  function SummarySheet(txs: seq<Transaction>): (r: seq<SummaryLine>)
    ensures |r| == 4
    ensures r[0].caption == "Tổng Thu" && r[1].caption == "Tổng Chi"
    ensures r[2].caption == "Số dư" && r[3].caption == "Tổng HĐ"
    ensures r[2].amount == r[0].amount - r[1].amount
    ensures r[0].amount == SumAmount(Select(txs, OfKind(Thu)))
    ensures r[1].amount == SumAmount(Select(txs, OfKind(Chi)))
    ensures r[3].amount == if Select(txs, OfKind(Thu)) == [] then 0 else SumInvoices(Select(txs, OfKind(Thu)))
  {
    var s := SummaryOf(txs);
    [SummaryLine("Tổng Thu", s.income), SummaryLine("Tổng Chi", s.expense),
     SummaryLine("Số dư", s.balance), SummaryLine("Tổng HĐ", s.invoices)]
  }

  /** The 'Loại' cell of the "Tất cả" sheet: only income reads "Thu"; expense,
      tip and advance records all read "Chi". */
  function TypeLabel(k: TxType): (r: string)
    ensures r == "Thu" <==> k == Thu
    ensures r == "Thu" || r == "Chi"
  {
    if k == Thu then "Thu" else "Chi"
  }

  /** The 'Lệnh sếp' cell: "Có" for a boss-ordered expense, "Không" otherwise. */
  function BossLabel(b: bool): (r: string)
    ensures r == "Có" <==> b
    ensures r == "Có" || r == "Không"
  {
    if b then "Có" else "Không"
  }

  /** A row of the "Thu" sheet: 'Ngày', 'Danh mục', 'Số tiền', 'Số HĐ',
      'Nhân viên', 'Ghi chú', 'Phương thức', 'Thời gian tạo'. */
  datatype IncomeRow = IncomeRow(date: string, category: string, amount: int, invoices: int,
                                 staff: string, note: string, paidBy: string, createdAt: string)

  /** A row of the "Chi" sheet: 'Ngày', 'Danh mục', 'Số tiền', 'Chi mua gì',
      'Nhân viên', 'Lệnh sếp', 'Ghi chú', 'Phương thức', 'Thời gian tạo'. */
  datatype ExpenseRow = ExpenseRow(date: string, category: string, amount: int, purchase: string,
                                   staff: string, boss: string, note: string, paidBy: string,
                                   createdAt: string)

  /** A row of the "Tất cả" sheet: 'Ngày', 'Loại', 'Danh mục', 'Số tiền',
      'Số HĐ', 'Nhân viên', 'Chi mua gì', 'Lệnh sếp', 'Ghi chú',
      'Phương thức', 'Thời gian tạo'. */
  datatype AllRow = AllRow(date: string, kind: string, category: string, amount: int, invoices: int,
                           staff: string, purchase: string, boss: string, note: string,
                           paidBy: string, createdAt: string)

  /** Every stored date is a real calendar date (the entry form writes it
      from a date picker). */
  predicate DatesValid(txs: seq<Transaction>) {
    forall i :: 0 <= i < |txs| ==> ValidDate(txs[i].date)
  }

  function IncomeRowOf(t: Transaction): (r: IncomeRow)
    requires ValidDate(t.date)
    ensures ParseDisplay(r.date) == Some(t.date)
    ensures r.amount == t.amount && r.invoices == t.invoiceCount && r.category == t.category
    ensures r.staff == t.staffName && r.note == t.description && r.paidBy == t.paymentMethod
    ensures r.createdAt == t.createdAt
  {
    DisplayRoundTrip(t.date);
    IncomeRow(DisplayText(t.date), t.category, t.amount, t.invoiceCount, t.staffName,
              t.description, t.paymentMethod, t.createdAt)
  }

  function ExpenseRowOf(t: Transaction): (r: ExpenseRow)
    requires ValidDate(t.date)
    ensures ParseDisplay(r.date) == Some(t.date)
    ensures r.amount == t.amount && r.category == t.category && r.purchase == t.purchaseItem
    ensures r.boss == "Có" <==> t.bossOrder
    ensures r.boss == BossLabel(t.bossOrder)
    ensures r.staff == t.staffName && r.note == t.description && r.paidBy == t.paymentMethod
    ensures r.createdAt == t.createdAt
  {
    DisplayRoundTrip(t.date);
    ExpenseRow(DisplayText(t.date), t.category, t.amount, t.purchaseItem, t.staffName,
               BossLabel(t.bossOrder), t.description, t.paymentMethod, t.createdAt)
  }

  function AllRowOf(t: Transaction): (r: AllRow)
    requires ValidDate(t.date)
    ensures ParseDisplay(r.date) == Some(t.date)
    ensures r.kind == "Thu" <==> t.kind == Thu
    ensures t.kind != Thu ==> r.kind == "Chi"
    ensures r.amount == t.amount && r.category == t.category && r.invoices == t.invoiceCount
    ensures r.boss == "Có" <==> t.bossOrder
    ensures r.boss == BossLabel(t.bossOrder)
    ensures r.staff == t.staffName && r.purchase == t.purchaseItem && r.note == t.description
    ensures r.paidBy == t.paymentMethod && r.createdAt == t.createdAt
  {
    DisplayRoundTrip(t.date);
    AllRow(DisplayText(t.date), TypeLabel(t.kind), t.category, t.amount, t.invoiceCount,
           t.staffName, t.purchaseItem, BossLabel(t.bossOrder), t.description,
           t.paymentMethod, t.createdAt)
  }

  /** A detail sheet: its rows, or the one-line notice written when there are none. */
  datatype Sheet<R> = Rows(rows: seq<R>) | Notice(message: string)

  function IncomeRows(s: seq<Transaction>): (r: seq<IncomeRow>)
    requires DatesValid(s)
    ensures |r| == |s| && forall i :: 0 <= i < |s| ==> r[i] == IncomeRowOf(s[i])
  {
    seq(|s|, i requires 0 <= i < |s| => IncomeRowOf(s[i]))
  }

  function ExpenseRows(s: seq<Transaction>): (r: seq<ExpenseRow>)
    requires DatesValid(s)
    ensures |r| == |s| && forall i :: 0 <= i < |s| ==> r[i] == ExpenseRowOf(s[i])
  {
    seq(|s|, i requires 0 <= i < |s| => ExpenseRowOf(s[i]))
  }

  function AllRows(s: seq<Transaction>): (r: seq<AllRow>)
    requires DatesValid(s)
    ensures |r| == |s| && forall i :: 0 <= i < |s| ==> r[i] == AllRowOf(s[i])
  {
    seq(|s|, i requires 0 <= i < |s| => AllRowOf(s[i]))
  }

  /** A selection of records with valid dates has valid dates. */
  lemma SelectDatesValid(s: seq<Transaction>, sel: Selector)
    requires DatesValid(s)
    ensures DatesValid(Select(s, sel))
  {
    SelectMembers(s, sel);
    forall i | 0 <= i < |Select(s, sel)| ensures ValidDate(Select(s, sel)[i].date) {
      assert Select(s, sel)[i] in s;
    }
  }

  /** The workbook's tables. A rollup sheet is absent (None) when its detail
      sheet holds the notice instead of rows. */
  datatype Workbook = Workbook(
    summary: seq<SummaryLine>,                // "Tổng hợp"
    income: Sheet<IncomeRow>,                 // "Thu"
    incomeByMethod: Option<seq<RollupRow>>,   // "Thu theo PT"
    expense: Sheet<ExpenseRow>,               // "Chi"
    expenseByCategory: Option<seq<RollupRow>>, // "Chi theo DM"
    expenseByMethod: Option<seq<RollupRow>>,  // "Chi theo PT"
    all: seq<AllRow>,                         // "Tất cả"
    ledger: seq<PivotRow>)                    // "Theo Format Excel"

  /** Exporting an empty ledger produces nothing; otherwise every sheet is
      built from the records of its kind. */
  function Export(txs: seq<Transaction>): (r: Option<Workbook>)
    requires DatesValid(txs)
    ensures r.None? <==> txs == []
    ensures r.Some? ==> |r.value.all| == |txs| && |r.value.ledger| == |txs|
    ensures r.Some? ==> forall i :: 0 <= i < |txs| ==> r.value.all[i] == AllRowOf(txs[i])
    ensures r.Some? ==> (r.value.income.Notice? <==> Select(txs, OfKind(Thu)) == [])
    ensures r.Some? ==> (r.value.expense.Notice? <==> Select(txs, OfKind(Chi)) == [])
    ensures r.Some? && r.value.income.Notice? ==> r.value.income.message == "Chưa có dữ liệu thu"
    ensures r.Some? && r.value.expense.Notice? ==> r.value.expense.message == "Chưa có dữ liệu chi"
    ensures r.Some? ==> (r.value.incomeByMethod.Some? <==> r.value.income.Rows?)
    ensures r.Some? ==> (r.value.expenseByCategory.Some? <==> r.value.expense.Rows?)
    ensures r.Some? ==> (r.value.expenseByMethod.Some? <==> r.value.expense.Rows?)
    ensures r.Some? ==> r.value.summary == SummarySheet(txs) && r.value.ledger == PivotRows(txs)
    ensures r.Some? ==> DatesValid(Select(txs, OfKind(Thu))) && DatesValid(Select(txs, OfKind(Chi)))
    ensures r.Some? && r.value.income.Rows? ==>
      DatesValid(Select(txs, OfKind(Thu))) && r.value.income.rows == IncomeRows(Select(txs, OfKind(Thu)))
      && r.value.incomeByMethod == Some(Rollup.Rollup(Select(txs, OfKind(Thu)), ByPaymentMethod))
    ensures r.Some? && r.value.expense.Rows? ==>
      DatesValid(Select(txs, OfKind(Chi))) && r.value.expense.rows == ExpenseRows(Select(txs, OfKind(Chi)))
      && r.value.expenseByCategory == Some(Rollup.Rollup(Select(txs, OfKind(Chi)), ByCategory))
      && r.value.expenseByMethod == Some(Rollup.Rollup(Select(txs, OfKind(Chi)), ByPaymentMethod))
  {
    if txs == [] then None
    else
      var thu := Select(txs, OfKind(Thu));
      var chi := Select(txs, OfKind(Chi));
      SelectDatesValid(txs, OfKind(Thu));
      SelectDatesValid(txs, OfKind(Chi));
      PivotRowsPerRecord(txs);
      Some(Workbook(
        SummarySheet(txs),
        if thu == [] then Notice("Chưa có dữ liệu thu") else Rows(IncomeRows(thu)),
        if thu == [] then None else Some(Rollup.Rollup(thu, ByPaymentMethod)),
        if chi == [] then Notice("Chưa có dữ liệu chi") else Rows(ExpenseRows(chi)),
        if chi == [] then None else Some(Rollup.Rollup(chi, ByCategory)),
        if chi == [] then None else Some(Rollup.Rollup(chi, ByPaymentMethod)),
        AllRows(txs),
        PivotSheet(txs)))
  }

  /** The rollup sheets agree with the summary sheet: income by method adds
      up to "Tổng Thu", and expense by category and by method each add up to
      "Tổng Chi". */
  lemma ExportConsistent(txs: seq<Transaction>)
    requires DatesValid(txs) && txs != []
    ensures var w := Export(txs).value;
      && (w.incomeByMethod.Some? ==> SumTotals(w.incomeByMethod.value) == w.summary[0].amount)
      && (w.expenseByCategory.Some? ==> SumTotals(w.expenseByCategory.value) == w.summary[1].amount)
      && (w.expenseByMethod.Some? ==> SumTotals(w.expenseByMethod.value) == w.summary[1].amount)
  {
    var thu := Select(txs, OfKind(Thu));
    var chi := Select(txs, OfKind(Chi));
    RollupShape(thu, ByPaymentMethod);
    RollupShape(chi, ByCategory);
    RollupShape(chi, ByPaymentMethod);
  }

  /** Each detail sheet lists the records of its kind in ledger order, row i
      showing the i-th record of that kind. */
  lemma ExportDetailRows(txs: seq<Transaction>)
    requires DatesValid(txs) && txs != []
    ensures var w := Export(txs).value;
      && (w.income.Rows? ==> var thu := Select(txs, OfKind(Thu));
            DatesValid(thu) && |w.income.rows| == |thu|
            && forall i :: 0 <= i < |thu| ==> w.income.rows[i] == IncomeRowOf(thu[i]))
      && (w.expense.Rows? ==> var chi := Select(txs, OfKind(Chi));
            DatesValid(chi) && |w.expense.rows| == |chi|
            && forall i :: 0 <= i < |chi| ==> w.expense.rows[i] == ExpenseRowOf(chi[i]))
  {
  }

  /** The sum of the six amount columns of a pivot row ('NỢ' aside). */
  function ColumnSum(r: PivotRow): int {
    CellValue(r.transfer) + CellValue(r.card) + CellValue(r.expense) + CellValue(r.income)
    + CellValue(r.tip) + CellValue(r.advance)
  }

  function CellValue(c: Cell): int {
    if c.Amount? then c.value else 0
  }

  function SumColumns(rows: seq<PivotRow>): int {
    if rows == [] then 0 else SumColumns(rows[..|rows| - 1]) + ColumnSum(rows[|rows| - 1])
  }

  lemma {:induction false} SumColumnsOfRows(s: seq<Transaction>)
    ensures SumColumns(RowsOf(s)) == SumAmount(s)
  {
    if s != [] {
      SumColumnsOfRows(s[..|s| - 1]);
      RowColumns(s[|s| - 1], AmountColumn(s[|s| - 1]));
    }
  }

  /** The four kinds together carry the whole ledger's amount. */
  lemma {:induction false} KindsSum(s: seq<Transaction>)
    ensures SumAmount(Select(s, OfKind(Thu))) + SumAmount(Select(s, OfKind(Chi)))
            + SumAmount(Select(s, OfKind(Tip))) + SumAmount(Select(s, OfKind(ChiHo)))
            == SumAmount(s)
  {
    if s != [] {
      var init, t := s[..|s| - 1], s[|s| - 1];
      KindsSum(init);
      SelectLast(s, OfKind(Thu));
      SelectLast(s, OfKind(Chi));
      SelectLast(s, OfKind(Tip));
      SelectLast(s, OfKind(ChiHo));
    }
  }

  /** The "Theo Format Excel" sheet accounts for every amount of the ledger:
      its six amount columns add up to the sum of all amounts. */
  lemma LedgerSheetBalances(txs: seq<Transaction>)
    requires DatesValid(txs) && txs != []
    ensures SumColumns(Export(txs).value.ledger) == SumAmount(txs)
  {
    var a, b, c, d := Select(txs, OfKind(Thu)), Select(txs, OfKind(Chi)),
                      Select(txs, OfKind(Tip)), Select(txs, OfKind(ChiHo));
    SumColumnsOfRows(Grouped(txs));
    SumAmountConcat(a, b);
    SumAmountConcat(a + b, c);
    SumAmountConcat(a + b + c, d);
    KindsSum(txs);
  }
}
