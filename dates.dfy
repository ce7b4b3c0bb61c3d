/**
 * Calendar days as the handlers read them off `new Date()`: the day of the
 * month, the month (`getMonth() + 1`) and the full year, and the `ddmmyyyy`
 * stamp built from them for SKUs and invoice numbers.
 */
module Dates {
  import opened Js

  datatype CalendarDay = CalendarDay(day: nat, month: nat, year: nat)

  predicate ValidDay(d: CalendarDay) {
    1 <= d.day <= 31 && 1 <= d.month <= 12 && 1000 <= d.year <= 9999
  }

  /**
   * `String(getDate()).padStart(2, '0') + String(getMonth() + 1).padStart(2, '0')
   * + getFullYear()`
   */
  function DdMmYyyy(d: CalendarDay): string {
    PadStart2(NatToString(d.day)) + PadStart2(NatToString(d.month)) + NatToString(d.year)
  }

  /** A one- or two-digit number, zero-padded: two digits that read back as the number. */
  lemma TwoDigits(n: nat)
    requires n < 100
    ensures |PadStart2(NatToString(n))| == 2
    ensures AllDigits(PadStart2(NatToString(n)))
    ensures DigitsValue(PadStart2(NatToString(n))) == n
  {
    NatToStringRoundTrip(n);
    assert Pow10(1) == 10 && Pow10(2) == 100;
    if n < 10 {
      NatToStringLength(n, 1);
      LeadingZero(NatToString(n));
      assert PadStart2(NatToString(n)) == "0" + NatToString(n);
    } else {
      NatToStringLength(n, 2);
    }
  }

  /**
   * For a real calendar day the stamp is eight digits, and its three fields
   * read back as the day, the month and the year.
   */
  lemma StampRoundTrip(d: CalendarDay)
    requires ValidDay(d)
    ensures var s := DdMmYyyy(d);
      |s| == 8 && AllDigits(s)
      && DigitsValue(s[..2]) == d.day && DigitsValue(s[2..4]) == d.month && DigitsValue(s[4..]) == d.year
  {
    TwoDigits(d.day);
    TwoDigits(d.month);
    assert Pow10(3) == 1000 && Pow10(4) == 10000;
    NatToStringLength(d.year, 4);
    NatToStringRoundTrip(d.year);
    var s := DdMmYyyy(d);
    var a, b, c := PadStart2(NatToString(d.day)), PadStart2(NatToString(d.month)), NatToString(d.year);
    assert s == a + b + c;
    assert s[..2] == a && s[2..4] == b && s[4..] == c;
  }
}
