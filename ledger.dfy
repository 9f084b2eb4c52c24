/**
 * The transaction record of the salon ledger and the two operations every
 * report is built from: selecting the records that satisfy a condition, in
 * ledger order (a boolean-mask selection `df[mask]` in the program), and
 * adding up their amounts.
 */
module Ledger {
  import opened Dates

  /** The four kinds a record's `type` field holds: "thu" (income), "chi"
      (expense), "tip" and "chi_ho" (money the salon advances to a staff member). */
  datatype TxType = Thu | Chi | Tip | ChiHo

  /** The payment methods the entry form offers (app.py:63-67). */
  const CASH: string := "Tiền mặt"
  const TRANSFER: string := "Chuyển khoản"
  const CARD: string := "Quẹt thẻ"

  /** The income category whose records carry a debt amount (app.py:58). */
  const DEBT_CATEGORY: string := "Công nợ"

  /** One stored record, with every field the entry form writes (app.py:536-551).
      `date` is the calendar date of the stored "YYYY-MM-DD" text; `createdAt`
      is the stored creation timestamp text. */
  datatype Transaction = Transaction(
    id: int,
    kind: TxType,
    category: string,
    amount: int,
    description: string,
    paymentMethod: string,
    invoiceCount: int,
    staffName: string,
    purchaseItem: string,
    bossOrder: bool,
    imagePath: string,
    debtAmount: int,
    date: Date,
    createdAt: string)

  /** The field a rollup groups by. */
  datatype GroupKey = ByPaymentMethod | ByCategory

  function KeyOf(t: Transaction, g: GroupKey): string {
    match g
    case ByPaymentMethod => t.paymentMethod
    case ByCategory => t.category
  }

  /** The row conditions the program selects by. */
  datatype Selector =
    | OfKind(kind: TxType)                  // df['type'] == kind
    | OnDay(day: Date)                      // df['date'].dt.date == day
    | Between(start: Date, end: Date)       // start <= df['date'].dt.date <= end
    | WithKey(group: GroupKey, key: string) // one group of a groupby

  predicate Keeps(sel: Selector, t: Transaction) {
    match sel
    case OfKind(k) => t.kind == k
    case OnDay(d) => t.date == d
    case Between(lo, hi) => DateLe(lo, t.date) && DateLe(t.date, hi)
    case WithKey(g, k) => KeyOf(t, g) == k
  }

  /** The records of `s` that `sel` keeps, in their order in `s`. */
  function Select(s: seq<Transaction>, sel: Selector): (r: seq<Transaction>)
    ensures |r| <= |s|
  {
    if s == [] then []
    else Select(s[..|s| - 1], sel) + (if Keeps(sel, s[|s| - 1]) then [s[|s| - 1]] else [])
  }

  /** A selection holds each record that `sel` keeps exactly as often as `s`
      does, and no other record. */
  lemma {:induction false} SelectCount(s: seq<Transaction>, sel: Selector)
    ensures forall t :: multiset(Select(s, sel))[t] == if Keeps(sel, t) then multiset(s)[t] else 0
  {
    if s != [] {
      var init := s[..|s| - 1];
      assert s == init + [s[|s| - 1]];
      SelectCount(init, sel);
    }
  }

  /** A record is selected exactly when it is in `s` and `sel` keeps it. */
  lemma SelectMembers(s: seq<Transaction>, sel: Selector)
    ensures forall t :: t in Select(s, sel) <==> t in s && Keeps(sel, t)
  {
    SelectCount(s, sel);
    forall t ensures t in Select(s, sel) <==> t in s && Keeps(sel, t) {
      assert t in Select(s, sel) <==> multiset(Select(s, sel))[t] > 0;
      assert t in s <==> multiset(s)[t] > 0;
    }
  }

  /** Selection distributes over concatenation, so a selection keeps the
      relative order of the records it keeps. */
  lemma {:induction false} SelectConcat(a: seq<Transaction>, b: seq<Transaction>, sel: Selector)
    ensures Select(a + b, sel) == Select(a, sel) + Select(b, sel)
    decreases |b|
  {
    if b == [] {
      assert a + b == a;
    } else {
      var b' := b[..|b| - 1];
      assert (a + b)[..|a + b| - 1] == a + b';
      SelectConcat(a, b', sel);
    }
  }

  /** `df['amount'].sum()`: exact integer sum of the amounts, 0 for no rows. */
  function SumAmount(s: seq<Transaction>): (r: int)
    ensures s == [] ==> r == 0
    ensures |s| == 1 ==> r == s[0].amount
  {
    if s == [] then 0 else SumAmount(s[..|s| - 1]) + s[|s| - 1].amount
  }

  /** `df['invoice_count'].sum()`. */
  function SumInvoices(s: seq<Transaction>): (r: int)
    ensures s == [] ==> r == 0
    ensures |s| == 1 ==> r == s[0].invoiceCount
  {
    if s == [] then 0 else SumInvoices(s[..|s| - 1]) + s[|s| - 1].invoiceCount
  }

  /** The selection of a non-empty list, and its sums, in terms of the last record. */
  lemma SelectLast(txs: seq<Transaction>, sel: Selector)
    requires txs != []
    ensures var t := txs[|txs| - 1];
      SumAmount(Select(txs, sel)) == SumAmount(Select(txs[..|txs| - 1], sel)) + (if Keeps(sel, t) then t.amount else 0)
    ensures var t := txs[|txs| - 1];
      SumInvoices(Select(txs, sel)) == SumInvoices(Select(txs[..|txs| - 1], sel)) + (if Keeps(sel, t) then t.invoiceCount else 0)
    ensures Select(txs, sel) == [] <==> Select(txs[..|txs| - 1], sel) == [] && !Keeps(sel, txs[|txs| - 1])
  {
    var init := Select(txs[..|txs| - 1], sel);
    var t := txs[|txs| - 1];
    if Keeps(sel, t) {
      assert (init + [t])[..|init + [t]| - 1] == init;
    } else {
      assert Select(txs, sel) == init;
    }
  }

  /** The form only takes amounts of at least 0, and then no sum is negative. */
  lemma {:induction false} SumAmountNonNegative(s: seq<Transaction>)
    requires forall i :: 0 <= i < |s| ==> s[i].amount >= 0
    ensures SumAmount(s) >= 0
  {
    if s != [] {
      SumAmountNonNegative(s[..|s| - 1]);
    }
  }

  lemma {:induction false} SumAmountConcat(a: seq<Transaction>, b: seq<Transaction>)
    ensures SumAmount(a + b) == SumAmount(a) + SumAmount(b)
    decreases |b|
  {
    if b == [] {
      assert a + b == a;
    } else {
      assert (a + b)[..|a + b| - 1] == a + b[..|b| - 1];
      SumAmountConcat(a, b[..|b| - 1]);
    }
  }

  lemma {:induction false} SumInvoicesConcat(a: seq<Transaction>, b: seq<Transaction>)
    ensures SumInvoices(a + b) == SumInvoices(a) + SumInvoices(b)
    decreases |b|
  {
    if b == [] {
      assert a + b == a;
    } else {
      assert (a + b)[..|a + b| - 1] == a + b[..|b| - 1];
      SumInvoicesConcat(a, b[..|b| - 1]);
    }
  }

  /** The four kind selections split the ledger: together they hold every record
      exactly as often as the ledger does. */
  lemma KindsPartition(s: seq<Transaction>)
    ensures multiset(Select(s, OfKind(Thu)) + Select(s, OfKind(Chi))
                     + Select(s, OfKind(Tip)) + Select(s, OfKind(ChiHo))) == multiset(s)
  {
    var a, b, c, d := Select(s, OfKind(Thu)), Select(s, OfKind(Chi)),
                      Select(s, OfKind(Tip)), Select(s, OfKind(ChiHo));
    SelectCount(s, OfKind(Thu));
    SelectCount(s, OfKind(Chi));
    SelectCount(s, OfKind(Tip));
    SelectCount(s, OfKind(ChiHo));
    var m := multiset(a) + multiset(b) + multiset(c) + multiset(d);
    assert multiset(a + b + c + d) == m;
    forall t ensures m[t] == multiset(s)[t] {
    }
  }
}
