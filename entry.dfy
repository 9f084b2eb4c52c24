/**
 * The daily entry form: what the form holds for each kind of record, the
 * checks run when "Lưu giao dịch" is pressed, the record that is then built,
 * and the stored ledger it is appended to.
 */
module Entry {
  import opened Wrappers
  import opened Text
  import opened Dates
  import opened Ledger
  import Report

  /** The widgets of the form when it is submitted. `category` is the income
      category picked from the list or the typed expense category; `image`
      is the extension of an uploaded picture, if any. Widgets the chosen kind
      does not show are ignored. */
  datatype FormInput = FormInput(
    category: string,
    paymentMethod: string,
    invoiceCount: int,
    purchaseItem: string,
    bossOrder: bool,
    image: Option<string>,
    amount: int,
    staffName: string,
    debtAmount: int,
    description: string,
    date: Date)

  /** The values the save handler works with, after the kind's defaults. */
  datatype Form = Form(
    kind: TxType,
    category: string,
    paymentMethod: string,
    invoiceCount: int,
    purchaseItem: string,
    bossOrder: bool,
    image: Option<string>,
    amount: int,
    staffName: string,
    debtAmount: int,
    description: string,
    date: Date)

  /** The form of a kind: income keeps its category, method and invoice
      count; expense its category, method, purchase item, boss flag and
      picture; tip and advance get the fixed categories "TIP" and "CHI HỘ"
      and no method. The debt field exists only for the "Công nợ" income
      category; everywhere else the debt is 0. */
  function FormFor(kind: TxType, input: FormInput): (f: Form)
    ensures f.kind == kind && f.amount == input.amount && f.staffName == input.staffName
    ensures f.description == input.description && f.date == input.date
    ensures kind == Tip ==> f.category == "TIP" && f.paymentMethod == ""
    ensures kind == ChiHo ==> f.category == "CHI HỘ" && f.paymentMethod == ""
    ensures kind != Thu ==> f.invoiceCount == 0
    ensures kind != Chi ==> f.purchaseItem == "" && !f.bossOrder && f.image == None
    ensures f.debtAmount != 0 ==> kind == Thu && f.category == DEBT_CATEGORY
    ensures f.debtAmount == if kind == Thu && input.category == DEBT_CATEGORY then input.debtAmount else 0
    ensures kind == Thu ==> f.category == input.category && f.paymentMethod == input.paymentMethod
                            && f.invoiceCount == input.invoiceCount
    ensures kind == Chi ==> f.category == input.category && f.paymentMethod == input.paymentMethod
                            && f.purchaseItem == input.purchaseItem && f.bossOrder == input.bossOrder
                            && f.image == input.image
  {
    var debt := if kind == Thu && input.category == DEBT_CATEGORY then input.debtAmount else 0;
    match kind
    case Thu =>
      Form(Thu, input.category, input.paymentMethod, input.invoiceCount, "", false, None,
           input.amount, input.staffName, debt, input.description, input.date)
    case Chi =>
      Form(Chi, input.category, input.paymentMethod, 0, input.purchaseItem, input.bossOrder,
           input.image, input.amount, input.staffName, debt, input.description, input.date)
    case Tip =>
      Form(Tip, "TIP", "", 0, "", false, None,
           input.amount, input.staffName, debt, input.description, input.date)
    case ChiHo =>
      Form(ChiHo, "CHI HỘ", "", 0, "", false, None,
           input.amount, input.staffName, debt, input.description, input.date)
  }

  /** Why a submitted form is refused. */
  datatype EntryError = NonPositiveAmount | MissingStaff | MissingCategory | MissingPurchaseItem

  /** The checks, in the order the form runs them; the first that fails is
      reported. A text counts as missing when it is empty after stripping. */
  function Validate(f: Form): (r: Option<EntryError>)
    ensures r.None? <==>
      f.amount > 0 && !IsBlank(f.staffName)
      && (f.kind == Chi ==> !IsBlank(f.category) && !IsBlank(f.purchaseItem))
    ensures r == Some(NonPositiveAmount) <==> f.amount <= 0
    ensures r == Some(MissingStaff) <==> f.amount > 0 && IsBlank(f.staffName)
    ensures r == Some(MissingCategory) <==>
      f.amount > 0 && !IsBlank(f.staffName) && f.kind == Chi && IsBlank(f.category)
    ensures r == Some(MissingPurchaseItem) <==>
      f.amount > 0 && !IsBlank(f.staffName) && f.kind == Chi && !IsBlank(f.category) && IsBlank(f.purchaseItem)
  {
    if f.amount <= 0 then Some(NonPositiveAmount)
    else if IsBlank(f.staffName) then Some(MissingStaff)
    else if f.kind == Chi && IsBlank(f.category) then Some(MissingCategory)
    else if f.kind == Chi && IsBlank(f.purchaseItem) then Some(MissingPurchaseItem)
    else None
  }

  /** The record a valid form becomes when appended to `txs`. Its id is one
      more than the number of stored records. Text fields are stripped
      (an empty category or purchase item is kept as it is, which strips to the
      same), the invoice count is kept only for income, the boss flag only for
      expense, and the debt only for "Công nợ" income. A picture is stored
      under "images/" with the name `stamp` plus its extension; `stamp` and
      `createdAt` stand for the clock readings the program takes. */
  function NewTransaction(txs: seq<Transaction>, f: Form, stamp: string, createdAt: string): (t: Transaction)
    ensures t.id == |txs| + 1 && t.kind == f.kind && t.amount == f.amount && t.date == f.date
    ensures t.staffName == Trim(f.staffName) && t.category == Trim(f.category)
    ensures t.kind != Thu ==> t.invoiceCount == 0 && t.debtAmount == 0
    ensures t.kind != Chi ==> !t.bossOrder
    ensures t.imagePath != "" <==> f.image.Some?
    ensures f.image.Some? ==> t.imagePath == "images/" + stamp + f.image.value
    ensures t.purchaseItem == Trim(f.purchaseItem)
    ensures t.invoiceCount == if f.kind == Thu then f.invoiceCount else 0
    ensures t.bossOrder == (f.kind == Chi && f.bossOrder)
    ensures t.debtAmount == if f.kind == Thu && f.category == DEBT_CATEGORY then f.debtAmount else 0
    ensures t.description == f.description && t.paymentMethod == f.paymentMethod
    ensures t.createdAt == createdAt
  {
    Transaction(
      |txs| + 1,
      f.kind,
      if f.category != "" then Trim(f.category) else f.category,
      f.amount,
      f.description,
      f.paymentMethod,
      if f.kind == Thu then f.invoiceCount else 0,
      Trim(f.staffName),
      if f.purchaseItem != "" then Trim(f.purchaseItem) else "",
      if f.kind == Chi then f.bossOrder else false,
      if f.image.Some? then "images/" + stamp + f.image.value else "",
      if f.kind == Thu && f.category == DEBT_CATEGORY then f.debtAmount else 0,
      f.date,
      createdAt)
  }

  /** The record saved from a kind's form: tips and advances are filed under
      their fixed categories with no method, no picture and no purchase item;
      income keeps the entered invoices and, for "Công nợ", the entered debt;
      expense keeps the entered boss flag. */
  lemma FormForRecord(txs: seq<Transaction>, kind: TxType, input: FormInput, stamp: string, createdAt: string)
    ensures var t := NewTransaction(txs, FormFor(kind, input), stamp, createdAt);
      && (kind == Tip ==> t.category == "TIP" && t.paymentMethod == "" && t.imagePath == "" && t.purchaseItem == "")
      && (kind == ChiHo ==> t.category == "CHI HỘ" && t.paymentMethod == "" && t.imagePath == "" && t.purchaseItem == "")
      && (kind == Thu ==> t.invoiceCount == input.invoiceCount && t.paymentMethod == input.paymentMethod
                          && t.debtAmount == (if input.category == DEBT_CATEGORY then input.debtAmount else 0))
      && (kind == Chi ==> t.bossOrder == input.bossOrder && t.paymentMethod == input.paymentMethod
                          && (t.imagePath != "" <==> input.image.Some?))
  {
    if kind == Tip {
      TrimUnpadded("TIP");
    } else if kind == ChiHo {
      TrimUnpadded("CHI HỘ");
    }
  }

  /** What every record saved through the form satisfies. */
  predicate RecordWellFormed(t: Transaction)
    ensures RecordWellFormed(t) ==> !IsBlank(t.staffName)
  {
    && t.amount > 0
    && t.staffName != "" && Trim(t.staffName) == t.staffName
    && (t.kind == Chi ==> t.category != "" && t.purchaseItem != "")
    && (t.kind != Thu ==> t.invoiceCount == 0 && t.debtAmount == 0)
    && (t.kind != Chi ==> !t.bossOrder)
  }

  /** The form accepts exactly the submissions whose record is well formed. */
  lemma AcceptedIffWellFormed(txs: seq<Transaction>, f: Form, stamp: string, createdAt: string)
    ensures Validate(f).None? <==> RecordWellFormed(NewTransaction(txs, f, stamp, createdAt))
  {
    var t := NewTransaction(txs, f, stamp, createdAt);
    assert (t.staffName != "" && Trim(t.staffName) == t.staffName) <==> !IsBlank(f.staffName) by {
      TrimEmptyIffBlank(f.staffName);
      TrimIdempotent(f.staffName);
    }
    assert t.category != "" <==> !IsBlank(f.category) by {
      TrimEmptyIffBlank(f.category);
    }
    assert t.purchaseItem != "" <==> !IsBlank(f.purchaseItem) by {
      TrimEmptyIffBlank(f.purchaseItem);
    }
  }

  /** The stored ledger as the form builds it: record i has id i + 1 and is
      well formed. */
  predicate LedgerWellFormed(txs: seq<Transaction>)
    ensures LedgerWellFormed(txs) ==>
      forall i, j :: 0 <= i < |txs| && 0 <= j < |txs| && txs[i].id == txs[j].id ==> i == j
  {
    forall i :: 0 <= i < |txs| ==> txs[i].id == i + 1 && RecordWellFormed(txs[i])
  }

  /** Appending an accepted record keeps the ledger well formed. */
  lemma AppendKeepsLedger(txs: seq<Transaction>, f: Form, stamp: string, createdAt: string)
    requires LedgerWellFormed(txs) && Validate(f).None?
    ensures LedgerWellFormed(txs + [NewTransaction(txs, f, stamp, createdAt)])
  {
    AcceptedIffWellFormed(txs, f, stamp, createdAt);
  }

  /** The stored list of records (the data file). */
  class Store {
    var transactions: seq<Transaction>

    /** Every stored record is well formed, ids run 1, 2, ..., and every
        date is a calendar date, since dates come from the date picker. */
    predicate Valid()
      reads this
    {
      && LedgerWellFormed(transactions)
      && Report.DatesValid(transactions)
    }

    /** A fresh data file holds an empty list. */
    constructor()
      ensures transactions == [] && Valid()
    {
      transactions := [];
    }

    /** The save button: run the checks in order and report the first that
        fails, leaving the records alone; otherwise append the new record.
        The form's date comes from the date picker, so it is a calendar date. */
    method Save(f: Form, stamp: string, createdAt: string) returns (outcome: Option<EntryError>)
      requires ValidDate(f.date)
      modifies this
      ensures outcome == Validate(f)
      ensures outcome.Some? ==> transactions == old(transactions)
      ensures outcome.None? ==>
        transactions == old(transactions) + [NewTransaction(old(transactions), f, stamp, createdAt)]
      ensures old(Valid()) ==> Valid()
    {
      TrimEmptyIffBlank(f.staffName);
      TrimEmptyIffBlank(f.category);
      TrimEmptyIffBlank(f.purchaseItem);
      if f.amount <= 0 {
        outcome := Some(NonPositiveAmount);
      } else if Trim(f.staffName) == "" {
        outcome := Some(MissingStaff);
      } else if f.kind == Chi && Trim(f.category) == "" {
        outcome := Some(MissingCategory);
      } else if f.kind == Chi && Trim(f.purchaseItem) == "" {
        outcome := Some(MissingPurchaseItem);
      } else {
        var t := NewTransaction(transactions, f, stamp, createdAt);
        if Valid() {
          AppendKeepsLedger(transactions, f, stamp, createdAt);
        }
        transactions := transactions + [t];
        outcome := None;
      }
    }

    /** The delete-all button: the data file is reset to an empty list. */
    method Clear()
      modifies this
      ensures transactions == [] && Valid()
    {
      transactions := [];
    }
  }
}
