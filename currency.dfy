/**
 * `format_currency`: an integer amount in đồng written with its digits in
 * groups of three, separated by dots (Python's `f"{amount:,.0f}"` with the
 * commas replaced by dots), e.g. 1234567 as "1.234.567" and -5000 as "-5.000".
 */
module Currency {
  import opened Decimal
  import opened Wrappers

  /** A dot-grouped digit string: one to three leading digits, then groups of
      exactly three digits, each group preceded by a dot. */
  predicate WellGrouped(s: string)
    decreases |s|
  {
    if |s| <= 3 then 1 <= |s| && AllDigits(s)
    else s[|s| - 4] == '.' && AllDigits(s[|s| - 3..]) && WellGrouped(s[..|s| - 4])
  }

  /** Inserts a dot before every third digit counted from the right. */
  function Group(ds: string): (r: string)
    requires 1 <= |ds| && AllDigits(ds)
    ensures WellGrouped(r)
    ensures r[0] == ds[0]
    ensures Ungroup(r) == ds
    decreases |ds|
  {
    if |ds| <= 3 then
      UngroupDigits(ds);
      ds
    else
      var head := Group(ds[..|ds| - 3]);
      GroupStep(ds, head);
      head + "." + ds[|ds| - 3..]
  }

  /** Appending a dot and the last three digits to a grouping of the other digits. */
  lemma GroupStep(ds: string, head: string)
    requires |ds| > 3 && AllDigits(ds)
    requires WellGrouped(head) && |head| >= 1 && head[0] == ds[0] && Ungroup(head) == ds[..|ds| - 3]
    ensures WellGrouped(head + "." + ds[|ds| - 3..])
    ensures (head + "." + ds[|ds| - 3..])[0] == ds[0]
    ensures Ungroup(head + "." + ds[|ds| - 3..]) == ds
  {
    GroupStepShape(head, ds[|ds| - 3..]);
    GroupStepUngroup(head, ds[..|ds| - 3], ds[|ds| - 3..]);
    assert ds == ds[..|ds| - 3] + ds[|ds| - 3..];
  }

  lemma GroupStepShape(head: string, tail: string)
    requires WellGrouped(head) && |tail| == 3 && AllDigits(tail)
    ensures WellGrouped(head + "." + tail)
  {
    var r := head + "." + tail;
    assert r[..|r| - 4] == head;
    assert r[|r| - 3..] == tail;
  }

  lemma GroupStepUngroup(head: string, front: string, tail: string)
    requires Ungroup(head) == front && AllDigits(tail)
    ensures Ungroup(head + "." + tail) == front + tail
  {
    UngroupConcat(head + ".", tail);
    UngroupConcat(head, ".");
    UngroupDigits(tail);
    assert Ungroup(".") == [] by { assert "."[..0] == []; }
  }

  /** The string with its dots removed: undoes the grouping. */
  function Ungroup(s: string): (r: string)
  {
    if s == [] then []
    else Ungroup(s[..|s| - 1]) + (if s[|s| - 1] == '.' then [] else [s[|s| - 1]])
  }

  lemma {:induction false} UngroupConcat(a: string, b: string)
    ensures Ungroup(a + b) == Ungroup(a) + Ungroup(b)
    decreases |b|
  {
    if b != [] {
      assert (a + b)[..|a + b| - 1] == a + b[..|b| - 1];
      UngroupConcat(a, b[..|b| - 1]);
    } else {
      assert a + b == a;
    }
  }

  lemma {:induction false} UngroupDigits(s: string)
    requires AllDigits(s)
    ensures Ungroup(s) == s
  {
    if s != [] {
      UngroupDigits(s[..|s| - 1]);
      assert s == s[..|s| - 1] + [s[|s| - 1]];
    }
  }

  /** `format_currency(amount)` for an integer amount. */
  function FormatCurrency(amount: int): (r: string)
    ensures amount >= 0 ==> WellGrouped(r) && (r[0] == '0' ==> amount == 0 && r == "0")
    ensures amount < 0 ==> |r| >= 2 && r[0] == '-' && WellGrouped(r[1..]) && r[1] != '0'
  {
    if amount < 0 then
      var g := Group(Digits(-amount));
      assert ("-" + g)[1..] == g;
      "-" + g
    else Group(Digits(amount))
  }

  /** Reads a formatted amount back: an optional minus sign, then digits with dots. */
  function ParseCurrency(s: string): (r: Option<int>)
    ensures r.Some? && r.value < 0 ==> s != [] && s[0] == '-'
  {
    if s != [] && s[0] == '-' then
      (var ds := Ungroup(s[1..]); if AllDigits(ds) then var v: int := ValueOf(ds); Some(-v) else None)
    else
      (var ds := Ungroup(s); if AllDigits(ds) then Some(ValueOf(ds)) else None)
  }

  /** Formatting loses nothing: the printed text denotes the amount. */
  lemma FormatCurrencyRoundTrip(amount: int)
    ensures ParseCurrency(FormatCurrency(amount)) == Some(amount)
  {
    var n: nat := if amount < 0 then -amount else amount;
    var ds := Digits(n);
    var g := Group(ds);
    assert Ungroup(g) == ds && g[0] == ds[0];
    ValueOfDigits(n);
    if amount < 0 {
      var s := "-" + g;
      assert s == FormatCurrency(amount);
      assert s[1..] == g;
    } else {
      assert g == FormatCurrency(amount);
      assert IsDigit(g[0]);
    }
  }
}
