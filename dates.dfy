/** Calendar days and Python's `datetime.strptime(text, "%b %d, %Y")`, plus the `str()` of the
    resulting midnight datetime. */
module Dates {
  import opened Base
  import opened Text

  /** A calendar day. strptime with "%b %d, %Y" yields midnight of that day, so the time of
      day is always 00:00:00 and is not stored. */
  datatype Date = Date(year: int, month: int, day: int)

  predicate IsLeapYear(year: int) { year % 4 == 0 && (year % 100 != 0 || year % 400 == 0) }

  function DaysInMonth(year: int, month: int): int
    requires 1 <= month <= 12
  {
    if month == 2 then (if IsLeapYear(year) then 29 else 28)
    else if month == 4 || month == 6 || month == 9 || month == 11 then 30
    else 31
  }

  /** A day `datetime` accepts: years 1 to 9999 and the day range of the month. */
  predicate ValidDate(d: Date)
  {
    1 <= d.year <= 9999 && 1 <= d.month <= 12 && 1 <= d.day <= DaysInMonth(d.year, d.month)
  }

  /** The month abbreviations of the English locale, lower-cased as strptime compares them. */
  const MonthAbbreviations: seq<string> :=
    ["jan", "feb", "mar", "apr", "may", "jun", "jul", "aug", "sep", "oct", "nov", "dec"]

  lemma MonthAbbreviationsDistinct()
    ensures |MonthAbbreviations| == 12
    ensures forall i, j | 0 <= i < j < 12 :: MonthAbbreviations[i] != MonthAbbreviations[j]
    ensures forall i | 0 <= i < 12 :: |MonthAbbreviations[i]| == 3 && IsLowerWord(MonthAbbreviations[i])
  {
  }

  /** The `%b` directive: the number of the first month from `from` on whose abbreviation is
      `s` lower-cased. */
  function MonthNumber(s: string, from: nat): (r: Option<int>)
    requires from <= 12
    ensures r.Some? ==> from < r.value <= 12 && Lower(s) == MonthAbbreviations[r.value - 1]
    decreases 12 - from
  {
    if from == 12 then None
    else if Lower(s) == MonthAbbreviations[from] then Some(from + 1)
    else MonthNumber(s, from + 1)
  }

  /** `datetime.strptime(s, "%b %d, %Y")`, `None` where Python raises ValueError: a month
      abbreviation, one space, a day of one or two digits, a comma, one space and a
      four-digit year, naming a day that exists. */
  function StrpTime(s: string): (r: Option<Date>)
    ensures r.Some? ==> ValidDate(r.value)
  {
    if |s| < 4 || s[3] != ' ' then None
    else
      match MonthNumber(s[..3], 0)
      case None => None
      case Some(month) => DayAndYear(s[4..], month)
  }

  /** The "%d, %Y" part of the format, for a month already read. */
  function DayAndYear(rest: string, month: int): (r: Option<Date>)
    ensures r.Some? ==> ValidDate(r.value) && r.value.month == month
  {
    match IndexOf(rest, ',')
    case None => None
    case Some(p) =>
      var dayText, tail := rest[..p], rest[p + 1..];
      if 1 <= |dayText| <= 2 && AllDigits(dayText) && |tail| == 5 && tail[0] == ' ' && AllDigits(tail[1..])
      then
        var d := Date(DigitsValue(tail[1..]), month, DigitsValue(dayText));
        if ValidDate(d) then Some(d) else None
      else None
  }

  /** The way the portal writes a day: "Jan 5, 2024". */
  function FormatDate(d: Date): string
    requires ValidDate(d)
  {
    Capitalized(MonthAbbreviations[d.month - 1]) + " " + NatToDigits(d.day) + ", " + PadLeft(NatToDigits(d.year), 4)
  }

  lemma {:induction false} MonthSearch(m: int, from: nat)
    requires 1 <= m <= 12 && from < m
    ensures MonthNumber(Capitalized(MonthAbbreviations[m - 1]), from) == Some(m)
    decreases m - from
  {
    MonthAbbreviationsDistinct();
    var name := MonthAbbreviations[m - 1];
    LowerCapitalized(name);
    if from < m - 1 {
      assert MonthAbbreviations[from] != name;
      MonthSearch(m, from + 1);
    }
  }

  lemma DayAndYearOf(dayText: string, yearText: string, month: int)
    requires 1 <= |dayText| <= 2 && AllDigits(dayText) && |yearText| == 4 && AllDigits(yearText)
    requires ValidDate(Date(DigitsValue(yearText), month, DigitsValue(dayText)))
    ensures DayAndYear(dayText + ", " + yearText, month)
      == Some(Date(DigitsValue(yearText), month, DigitsValue(dayText)))
  {
    var rest := dayText + ", " + yearText;
    assert ',' !in dayText by {
      forall i | 0 <= i < |dayText| ensures dayText[i] != ',' { assert IsDigit(dayText[i]); }
    }
    var p := IndexOf(rest, ',').value;
    assert rest[|dayText|] == ',';
    assert forall i | 0 <= i < |dayText| :: rest[i] == dayText[i];
    assert p == |dayText|;
    assert rest[..p] == dayText;
    assert rest[p + 1..] == " " + yearText;
    assert (" " + yearText)[1..] == yearText;
  }

  lemma DayAndYearRoundTrip(d: Date)
    requires ValidDate(d)
    ensures DayAndYear(NatToDigits(d.day) + ", " + PadLeft(NatToDigits(d.year), 4), d.month) == Some(d)
  {
    DayAndYearOf(NatToDigits(d.day), PadLeft(NatToDigits(d.year), 4), d.month);
  }

  /** strptime reads the first three characters as the month and the text after the space as
      the day and year. */
  lemma StrpTimeSplit(name: string, rest: string)
    requires |name| == 3
    ensures StrpTime(name + " " + rest)
      == match MonthNumber(name, 0) case None => None case Some(m) => DayAndYear(rest, m)
  {
    var s := name + " " + rest;
    assert s[..3] == name && s[3] == ' ' && s[4..] == rest;
  }

  /** Every real day, written as the portal writes it, is read back by strptime as that day. */
  lemma {:induction false} StrpTimeFormatRoundTrip(d: Date)
    requires ValidDate(d)
    ensures StrpTime(FormatDate(d)) == Some(d)
  {
    var name := Capitalized(MonthAbbreviations[d.month - 1]);
    var day, year := NatToDigits(d.day), PadLeft(NatToDigits(d.year), 4);
    assert FormatDate(d) == name + " " + (day + ", " + year);
    MonthAbbreviationsDistinct();
    StrpTimeSplit(name, day + ", " + year);
    MonthSearch(d.month, 0);
    DayAndYearRoundTrip(d);
  }

  /** `str()` of the midnight datetime of a day: "2024-01-05 00:00:00". */
  function IsoFormat(d: Date): (r: string)
    requires ValidDate(d)
    ensures |r| == 19
  {
    PadLeft(NatToDigits(d.year), 4) + "-" + PadLeft(NatToDigits(d.month), 2) + "-"
      + PadLeft(NatToDigits(d.day), 2) + " 00:00:00"
  }

  /** The fields of a printed day sit at fixed positions. */
  lemma IsoFields(y: string, m: string, a: string)
    requires |y| == 4 && |m| == 2 && |a| == 2
    ensures var s := y + "-" + m + "-" + a + " 00:00:00"; s[0..4] == y && s[5..7] == m && s[8..10] == a
  {
  }

  /** Distinct days print differently. */
  lemma {:induction false} IsoFormatInjective(d1: Date, d2: Date)
    requires ValidDate(d1) && ValidDate(d2)
    requires IsoFormat(d1) == IsoFormat(d2)
    ensures d1 == d2
  {
    var y1, y2 := PadLeft(NatToDigits(d1.year), 4), PadLeft(NatToDigits(d2.year), 4);
    var m1, m2 := PadLeft(NatToDigits(d1.month), 2), PadLeft(NatToDigits(d2.month), 2);
    var a1, a2 := PadLeft(NatToDigits(d1.day), 2), PadLeft(NatToDigits(d2.day), 2);
    IsoFields(y1, m1, a1);
    IsoFields(y2, m2, a2);
    assert y1 == y2 && m1 == m2 && a1 == a2;
  }
}
