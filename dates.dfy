/**
 * Calendar dates. The ledger stores a date as text "YYYY-MM-DD" and the sheets
 * show it as "DD/MM/YYYY"; here a date is the (year, month, day) triple that
 * both texts denote, compared the way Python compares `date` values.
 */
module Dates {
  import opened Decimal
  import opened Wrappers

  datatype Date = Date(year: int, month: int, day: int)

  predicate IsLeapYear(y: int) {
    y % 4 == 0 && (y % 100 != 0 || y % 400 == 0)
  }

  function DaysInMonth(year: int, month: int): int
    requires 1 <= month <= 12
  {
    if month == 2 then (if IsLeapYear(year) then 29 else 28)
    else if month == 4 || month == 6 || month == 9 || month == 11 then 30
    else 31
  }

  /** A date Python's `datetime.date` can hold. */
  predicate ValidDate(d: Date) {
    && 1 <= d.year <= 9999
    && 1 <= d.month <= 12
    && 1 <= d.day <= DaysInMonth(d.year, d.month)
  }

  /** `a <= b` on dates: chronological order, which is the lexicographic order
      of (year, month, day). */
  predicate DateLe(a: Date, b: Date) {
    || a.year < b.year
    || (a.year == b.year && (a.month < b.month || (a.month == b.month && a.day <= b.day)))
  }

  lemma Pow10Values()
    ensures Pow10(2) == 100 && Pow10(4) == 10000
  {
    assert Pow10(1) == 10;
    assert Pow10(2) == 100;
    assert Pow10(3) == 1000;
  }

  /** `date.strftime("%Y-%m-%d")`, the form the ledger stores. */
  function IsoText(d: Date): (r: string)
    requires ValidDate(d)
    ensures |r| == 10 && r[4] == '-' && r[7] == '-'
  {
    Pow10Values();
    PadLength(d.year, 4);
    PadLength(d.month, 2);
    PadLength(d.day, 2);
    Pad(d.year, 4) + "-" + Pad(d.month, 2) + "-" + Pad(d.day, 2)
  }

  /** `strftime('%d/%m/%Y')`, the form every sheet shows. */
  function DisplayText(d: Date): (r: string)
    requires ValidDate(d)
    ensures |r| == 10 && r[2] == '/' && r[5] == '/'
  {
    Pow10Values();
    PadLength(d.year, 4);
    PadLength(d.month, 2);
    PadLength(d.day, 2);
    Pad(d.day, 2) + "/" + Pad(d.month, 2) + "/" + Pad(d.year, 4)
  }

  /** Reads "YYYY-MM-DD" text; anything else is not a stored date. */
  function ParseIso(s: string): (r: Option<Date>)
    ensures r.Some? ==> |s| == 10 && s[4] == '-' && s[7] == '-'
    ensures r.Some? ==> r.value.year >= 0 && r.value.month >= 0 && r.value.day >= 0
  {
    if |s| == 10 && s[4] == '-' && s[7] == '-'
       && AllDigits(s[..4]) && AllDigits(s[5..7]) && AllDigits(s[8..])
    then Some(Date(ValueOf(s[..4]), ValueOf(s[5..7]), ValueOf(s[8..])))
    else None
  }

  /** Reads "DD/MM/YYYY" text; anything else is not a shown date. */
  function ParseDisplay(s: string): Option<Date> {
    if |s| == 10 && s[2] == '/' && s[5] == '/'
       && AllDigits(s[..2]) && AllDigits(s[3..5]) && AllDigits(s[6..])
    then Some(Date(ValueOf(s[6..]), ValueOf(s[3..5]), ValueOf(s[..2])))
    else None
  }

  lemma IsoRoundTrip(d: Date)
    requires ValidDate(d)
    ensures ParseIso(IsoText(d)) == Some(d)
  {
    var s := IsoText(d);
    assert s[..4] == Pad(d.year, 4);
    assert s[5..7] == Pad(d.month, 2);
    assert s[8..] == Pad(d.day, 2);
  }

  lemma DisplayRoundTrip(d: Date)
    requires ValidDate(d)
    ensures ParseDisplay(DisplayText(d)) == Some(d)
  {
    var s := DisplayText(d);
    assert s[..2] == Pad(d.day, 2);
    assert s[3..5] == Pad(d.month, 2);
    assert s[6..] == Pad(d.year, 4);
  }

  /** The conversion the sheets apply to a stored date: "YYYY-MM-DD" text to
      "DD/MM/YYYY" text; text that is not a valid stored date has none. */
  function IsoToDisplay(s: string): Option<string> {
    match ParseIso(s)
    case Some(d) => if ValidDate(d) then Some(DisplayText(d)) else None
    case None => None
  }

  /** The stored text of a date is shown as that date's display text: the
      day, month and year swap places and the dashes become slashes. */
  lemma IsoToDisplayOfStored(d: Date)
    requires ValidDate(d)
    ensures IsoToDisplay(IsoText(d)) == Some(DisplayText(d))
    ensures var r := DisplayText(d); var s := IsoText(d);
      r[..2] == s[8..] && r[3..5] == s[5..7] && r[6..] == s[..4]
  {
    IsoRoundTrip(d);
    var s := IsoText(d);
    var r := DisplayText(d);
    assert s[..4] == Pad(d.year, 4) && s[5..7] == Pad(d.month, 2) && s[8..] == Pad(d.day, 2);
    assert r[..2] == Pad(d.day, 2) && r[3..5] == Pad(d.month, 2) && r[6..] == Pad(d.year, 4);
  }
}
