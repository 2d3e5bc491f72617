/**
 * The settings panel's helpers (`SettingsWidget`): decoding the build's
 * version code into a date, preparing the page URL for the issue report,
 * the build label's double-tap toggle between date and git hash, and the
 * focus rule that dismisses the panel.
 */
module Settings {
  import opened Wrappers
  import opened JavaLang

  // ---------------------------------------------------------------------------
  // The Gregorian calendar, as far as a year and a day of the year go
  // ---------------------------------------------------------------------------

  predicate IsLeap(y: int)
  {
    y % 4 == 0 && (y % 100 != 0 || y % 400 == 0)
  }

  function DaysInYear(y: int): (n: int)
    ensures n == 365 || n == 366
  {
    if IsLeap(y) then 366 else 365
  }

  /** The days of year `y` that come before the first of month `m` (month 13 stands for the next year). */
  function DaysBefore(y: int, m: int): (n: int)
    requires 1 <= m <= 13
  {
    [0, 31, 59, 90, 120, 151, 181, 212, 243, 273, 304, 334, 365][m - 1] + (if m > 2 && IsLeap(y) then 1 else 0)
  }

  function MonthLength(y: int, m: int): int
    requires 1 <= m <= 12
  {
    DaysBefore(y, m + 1) - DaysBefore(y, m)
  }

  /** The month lengths are those of the Gregorian calendar, and they fill the year. */
  lemma MonthLengths(y: int, m: int)
    requires 1 <= m <= 12
    ensures 28 <= MonthLength(y, m) <= 31
    ensures MonthLength(y, m) == 31 <==> m in {1, 3, 5, 7, 8, 10, 12}
    ensures MonthLength(y, m) == 30 <==> m in {4, 6, 9, 11}
    ensures m == 2 ==> MonthLength(y, m) == (if IsLeap(y) then 29 else 28)
    ensures DaysBefore(y, 1) == 0 && DaysBefore(y, 13) == DaysInYear(y)
  {
  }

  lemma DaysBeforeIncreasing(y: int, m: int, n: int)
    requires 1 <= m < n <= 13
    ensures DaysBefore(y, m) < DaysBefore(y, n)
  {
  }

  lemma DaysBeforeMonotone(y: int)
    ensures forall m, n :: 1 <= m < n <= 13 ==> DaysBefore(y, m) < DaysBefore(y, n)
  {
    forall m, n | 1 <= m < n <= 13
      ensures DaysBefore(y, m) < DaysBefore(y, n)
    {
      DaysBeforeIncreasing(y, m, n);
    }
  }

  datatype CalendarDate = CalendarDate(year: int, month: int, day: int)

  predicate ValidDate(d: CalendarDate)
  {
    1 <= d.month <= 12 && 1 <= d.day <= MonthLength(d.year, d.month)
  }

  function DayOfYear(d: CalendarDate): int
    requires ValidDate(d)
  {
    DaysBefore(d.year, d.month) + d.day
  }

  /** The latest month, from `m` down, that starts before day `doy`. */
  function MonthDown(y: int, doy: int, m: int): (r: int)
    requires 1 <= m <= 12 && 1 <= doy
    ensures 1 <= r <= m && DaysBefore(y, r) < doy
    ensures forall k :: r < k <= m ==> DaysBefore(y, k) >= doy
  {
    if m == 1 || DaysBefore(y, m) < doy then m else MonthDown(y, doy, m - 1)
  }

  /** The date of day `doy` of year `y`. */
  function FromDayOfYear(y: int, doy: int): CalendarDate
    requires 1 <= doy <= DaysInYear(y)
  {
    var m := MonthDown(y, doy, 12);
    CalendarDate(y, m, doy - DaysBefore(y, m))
  }

  /** Day `doy` of the year is a valid date whose day of the year is `doy`. */
  lemma FromDayOfYearRoundTrip(y: int, doy: int)
    requires 1 <= doy <= DaysInYear(y)
    ensures ValidDate(FromDayOfYear(y, doy)) && DayOfYear(FromDayOfYear(y, doy)) == doy
    ensures FromDayOfYear(y, doy).year == y
  {
    var m := MonthDown(y, doy, 12);
    if m < 12 {
      assert DaysBefore(y, m + 1) >= doy;
    }
  }

  /** Every valid date is found again from its day of the year. */
  lemma DayOfYearRoundTrip(d: CalendarDate)
    requires ValidDate(d)
    ensures 1 <= DayOfYear(d) <= DaysInYear(d.year)
    ensures FromDayOfYear(d.year, DayOfYear(d)) == d
  {
    var doy := DayOfYear(d);
    MonthLengths(d.year, d.month);
    if d.month < 12 {
      DaysBeforeIncreasing(d.year, d.month + 1, 13);
    }
    DaysBeforeMonotone(d.year);
    var m := MonthDown(d.year, doy, 12);
    assert DaysBefore(d.year, d.month) < doy;
  }

  /**
   * A lenient calendar given a day of the year outside the year: day 0 is
   * the last day of the previous year, and days past the end run on into
   * the following years.
   */
  function Lenient(y: int, doy: int): CalendarDate
    decreases if doy < 1 then 1 else 0, if doy < 1 then -doy else doy
  {
    if doy < 1 then Lenient(y - 1, doy + DaysInYear(y - 1))
    else if doy > DaysInYear(y) then Lenient(y + 1, doy - DaysInYear(y))
    else FromDayOfYear(y, doy)
  }

  /** Every lenient date is a valid date; within the year it is the plain date. */
  lemma {:induction false} LenientValid(y: int, doy: int)
    ensures ValidDate(Lenient(y, doy))
    ensures 1 <= doy <= DaysInYear(y) ==> Lenient(y, doy) == FromDayOfYear(y, doy)
    decreases if doy < 1 then 1 else 0, if doy < 1 then -doy else doy
  {
    if doy < 1 {
      LenientValid(y - 1, doy + DaysInYear(y - 1));
    } else if doy > DaysInYear(y) {
      LenientValid(y + 1, doy - DaysInYear(y));
    } else {
      FromDayOfYearRoundTrip(y, doy);
    }
  }

  /** Day 0 is the 31st of December of the year before; day 366 of a common year is the 1st of January after. */
  lemma LenientEdges(y: int)
    ensures Lenient(y, 0) == CalendarDate(y - 1, 12, 31)
    ensures !IsLeap(y) ==> Lenient(y, 366) == CalendarDate(y + 1, 1, 1)
  {
    assert Lenient(y - 1, DaysInYear(y - 1)) == FromDayOfYear(y - 1, DaysInYear(y - 1));
    if !IsLeap(y) {
      assert Lenient(y + 1, 1) == FromDayOfYear(y + 1, 1);
    }
  }

  /** `SimpleDateFormat("yyyy-MM-dd")`. */
  function FormatDate(d: CalendarDate): string
  {
    ZeroPadded(d.year, 4) + "-" + ZeroPadded(d.month, 2) + "-" + ZeroPadded(d.day, 2)
  }

  /** A date with a four-digit year formats as ten characters whose fields read back as the date. */
  lemma FormatDateFields(d: CalendarDate)
    requires ValidDate(d) && 0 <= d.year < 10000
    ensures var s := FormatDate(d);
      && |s| == 10 && s[4] == '-' && s[7] == '-'
      && AllDigits(s[..4]) && AllDigits(s[5..7]) && AllDigits(s[8..])
      && DigitsValue(s[..4]) == d.year && DigitsValue(s[5..7]) == d.month && DigitsValue(s[8..]) == d.day
  {
    MonthLengths(d.year, d.month);
    assert Pow10(2) == 100 && Pow10(4) == 10000 by {
      assert Pow10(1) == 10;
      assert Pow10(3) == 1000;
    }
    ZeroPaddedValue(d.year, 4);
    ZeroPaddedValue(d.month, 2);
    ZeroPaddedValue(d.day, 2);
    DashedFields(ZeroPadded(d.year, 4), ZeroPadded(d.month, 2), ZeroPadded(d.day, 2));
  }

  lemma DashedFields(a: string, b: string, c: string)
    requires |a| == 4 && |b| == 2 && |c| == 2
    ensures var s := a + "-" + b + "-" + c;
      |s| == 10 && s[4] == '-' && s[7] == '-' && s[..4] == a && s[5..7] == b && s[8..] == c
  {
  }

  // ---------------------------------------------------------------------------
  // The version code
  // ---------------------------------------------------------------------------

  /**
   * What `versionCodeToDate` yields: a date, the developer-build text (the
   * code's decimal form is too short), or an uncaught NumberFormatException.
   */
  datatype BuildDate = DateText(text: string) | DeveloperText | NumberFormatCrash

  /**
   * The code is read as `yDDD…`: the first character is the year minus
   * 2016, the next three the day of the year; the rest is ignored.
   */
  function VersionCodeToDate(code: int): BuildDate
    requires IsInt32(code)
  {
    var s := IntToString(code);
    NatToStringSpec(if code < 0 then -code else code);
    match ParseInt(s[..1])
    case None => NumberFormatCrash
    case Some(y) =>
      if |s| < 4 then DeveloperText
      else match ParseInt(s[1..4])
        case None => NumberFormatCrash
        case Some(doy) => DateText(FormatDate(Lenient(y + 2016, doy)))
  }

  /** September 6th, 2017, 9:41 builds as 12490941. */
  lemma VersionCodeExample()
    ensures VersionCodeToDate(12490941) == DateText("2017-09-06")
  {
    ExampleDigits();
    ExampleDate();
    assert "12490941"[..1] == "1" && "12490941"[1..4] == "249";
    assert DigitsValue("1") == 1 by {
      assert "1"[..0] == [];
    }
    assert DigitsValue("249") == 249 by {
      assert "249"[..2] == "24" && "24"[..1] == "2" && "2"[..0] == [];
    }
    ParseDigits("1");
    ParseDigits("249");
  }

  lemma ExampleDigits()
    ensures IntToString(12490941) == "12490941"
  {
    assert NatToString(1) == "1";
    assert NatToString(12) == "12";
    assert NatToString(124) == "124";
    assert NatToString(1249) == "1249";
    assert NatToString(12490) == "12490";
    assert NatToString(124909) == "124909";
    assert NatToString(1249094) == "1249094";
  }

  lemma ExampleDate()
    ensures FormatDate(Lenient(2017, 249)) == "2017-09-06"
  {
    assert !IsLeap(2017);
    assert Lenient(2017, 249) == FromDayOfYear(2017, 249);
    assert MonthDown(2017, 249, 12) == 9;
    assert ZeroPadded(2017, 4) == "2017" by {
      assert NatToString(2017) == "2017" by {
        assert NatToString(20) == "20";
        assert NatToString(201) == "201";
      }
    }
    assert ZeroPadded(9, 2) == "09";
    assert ZeroPadded(6, 2) == "06";
  }

  /** A code below 1000 (the local build code 1, say) gives the developer text. */
  lemma ShortCodeIsDeveloper(code: int)
    requires 0 <= code < 1000
    ensures VersionCodeToDate(code) == DeveloperText
  {
    assert Pow10(3) == 1000 by {
      assert Pow10(1) == 10;
    }
    NatToStringFits(code, 3);
    NatToStringSpec(code);
    var s := NatToString(code);
    assert ParseInt(s[..1]) == Some(DigitsValue(s[..1]));
  }

  /** A negative code starts with a lone `-`, which the year parse rejects. */
  lemma NegativeCodeCrashes(code: int)
    requires IntMin <= code < 0
    ensures VersionCodeToDate(code) == NumberFormatCrash
  {
    assert IntToString(code)[..1] == "-";
  }

  /**
   * A code of 1000 or more is a date whose year is 2016 plus its first digit
   * and whose day of the year is its next three digits; later digits play no part.
   */
  lemma LongCodeIsDate(code: int)
    requires 1000 <= code <= IntMax
    ensures var s := NatToString(code);
      && |s| >= 4 && AllDigits(s)
      && VersionCodeToDate(code) == DateText(FormatDate(Lenient(2016 + DigitsValue(s[..1]), DigitsValue(s[1..4]))))
      && 1 <= DigitsValue(s[..1]) <= 9
  {
    assert Pow10(3) == 1000 by {
      assert Pow10(1) == 10;
    }
    NatToStringMinLength(code, 4);
    NatToStringSpec(code);
    var s := NatToString(code);
    DateFields(s);
    assert IntToString(code) == s;
  }

  /** The year and day fields of a decimal string of four or more digits both parse. */
  lemma DateFields(s: string)
    requires |s| >= 4 && AllDigits(s) && s[0] != '0'
    ensures 1 <= DigitsValue(s[..1]) <= 9
    ensures ParseInt(s[..1]) == Some(DigitsValue(s[..1]))
    ensures ParseInt(s[1..4]) == Some(DigitsValue(s[1..4]))
  {
    FirstDigit(s);
    SliceDigits(s, 1, 4);
    ThreeDigits(s[1..4]);
    ParseDigits(s[..1]);
    ParseDigits(s[1..4]);
  }

  lemma FirstDigit(s: string)
    requires |s| >= 1 && AllDigits(s) && s[0] != '0'
    ensures AllDigits(s[..1]) && 1 <= DigitsValue(s[..1]) <= 9
  {
    assert s[..1] == [s[0]];
    assert s[..1][..0] == [];
  }

  lemma ThreeDigits(t: string)
    requires |t| == 3 && AllDigits(t)
    ensures DigitsValue(t) < 1000
  {
    DigitsValueBound(t);
    assert Pow10(3) == 1000 by {
      assert Pow10(1) == 10;
    }
  }

  /** Two codes whose decimal forms share their first four characters decode to the same text. */
  lemma OnlyFirstFourCharacters(a: int, b: int)
    requires IsInt32(a) && IsInt32(b)
    requires |IntToString(a)| >= 4 && |IntToString(b)| >= 4
    requires IntToString(a)[..4] == IntToString(b)[..4]
    ensures VersionCodeToDate(a) == VersionCodeToDate(b)
  {
    var sa, sb := IntToString(a), IntToString(b);
    assert sa[..1] == sa[..4][..1] && sb[..1] == sb[..4][..1];
    assert sa[1..4] == sa[..4][1..4] && sb[1..4] == sb[..4][1..4];
  }

  /** The build label: it starts as the date and each double tap swaps date and git hash. */
  class VersionLabel {
    const date: string
    const gitHash: string
    var isHash: bool
    var text: string
    /** The number of double taps so far. */
    ghost var taps: nat

    ghost predicate Valid()
      reads this
    {
      && text == (if isHash then gitHash else date)
      && isHash == (taps % 2 == 1)
    }

    constructor (aDate: string, aGitHash: string)
      ensures Valid() && !isHash && text == aDate && date == aDate && gitHash == aGitHash
      ensures taps == 0 && text == LabelAfterTaps(taps, date, gitHash)
    {
      date := aDate;
      gitHash := aGitHash;
      isHash := false;
      text := aDate;
      taps := 0;
    }

    /** `onDoubleTap`: shows the other text; always consumes the gesture. */
    method OnDoubleTap() returns (handled: bool)
      requires Valid()
      modifies this
      ensures Valid() && isHash == !old(isHash)
      ensures text == (if old(isHash) then date else gitHash)
      ensures taps == old(taps) + 1 && text == LabelAfterTaps(taps, date, gitHash)
      ensures handled
    {
      if isHash {
        text := date;
      } else {
        text := gitHash;
      }
      isHash := !isHash;
      taps := taps + 1;
      handled := true;
      if date != gitHash {
        LabelAlternates(taps, date, gitHash);
      }
    }
  }

  /** The label's text after `n` double taps. */
  function LabelAfterTaps(n: nat, date: string, gitHash: string): string
  {
    if n == 0 then date else if LabelAfterTaps(n - 1, date, gitHash) == date && date != gitHash then gitHash else date
  }

  /** The label alternates: the date after an even number of taps, the hash after an odd one. */
  lemma {:induction false} LabelAlternates(n: nat, date: string, gitHash: string)
    requires date != gitHash
    ensures LabelAfterTaps(n, date, gitHash) == (if n % 2 == 0 then date else gitHash)
  {
    if n > 0 {
      LabelAlternates(n - 1, date, gitHash);
    }
  }

  // ---------------------------------------------------------------------------
  // The issue report
  // ---------------------------------------------------------------------------

  /**
   * The page URL as the report sends it: no URL or an internal one
   * (`jar:`, `resource:`, `about:`, case-sensitive) becomes empty, the home
   * page becomes its canonical form, anything else is kept.
   */
  function SanitizeReportUrl(url: Option<string>, isHomeUri: string -> bool, homeUri: string): string
  {
    match url
    case None => ""
    case Some(u) =>
      if StartsWith(u, "jar:") || StartsWith(u, "resource:") || StartsWith(u, "about:") then ""
      else if isHomeUri(u) then homeUri
      else u
  }

  /** The sanitised URL is empty, the home URI, or the URL unchanged, each exactly in its case. */
  lemma SanitizeCases(url: Option<string>, isHomeUri: string -> bool, homeUri: string)
    ensures url.None? ==> SanitizeReportUrl(url, isHomeUri, homeUri) == ""
    ensures url.Some? && (StartsWith(url.value, "jar:") || StartsWith(url.value, "resource:") || StartsWith(url.value, "about:")) ==>
      SanitizeReportUrl(url, isHomeUri, homeUri) == ""
    ensures url.Some? && !StartsWith(url.value, "jar:") && !StartsWith(url.value, "resource:") && !StartsWith(url.value, "about:") ==>
      SanitizeReportUrl(url, isHomeUri, homeUri) == (if isHomeUri(url.value) then homeUri else url.value)
  {
  }

  /** Internal schemes are blanked even when they would also count as home; upper-case schemes are not internal. */
  lemma SanitizeExamples(isHomeUri: string -> bool, homeUri: string)
    ensures SanitizeReportUrl(Some("about:blank"), isHomeUri, homeUri) == ""
    ensures SanitizeReportUrl(Some("resource://android/x"), isHomeUri, homeUri) == ""
    ensures SanitizeReportUrl(Some("ABOUT:blank"), isHomeUri, homeUri) ==
      (if isHomeUri("ABOUT:blank") then homeUri else "ABOUT:blank")
  {
    assert StartsWith("about:blank", "about:");
    assert StartsWith("resource://android/x", "resource:");
    assert !StartsWith("ABOUT:blank", "about:") by {
      assert "ABOUT:blank"[0] != "about:"[0];
    }
    assert !StartsWith("ABOUT:blank", "jar:") by {
      assert "ABOUT:blank"[0] != "jar:"[0];
    }
    assert !StartsWith("ABOUT:blank", "resource:") by {
      assert "ABOUT:blank"[0] != "resource:"[0];
    }
  }

  /** What a report click does: whether it creates a session first, and the URL argument of the report page. */
  datatype ReportClick = ReportClick(createsSession: bool, reportArgument: string)

  /**
   * `onSettingsReportClick`: a session is created if there is none; the
   * sanitised URL is URL-encoded, and kept unencoded when encoding fails.
   * The encoder is a parameter, `None` standing for its exception.
   */
  function OnReportClick(currentUri: Option<string>, hasSession: bool, isHomeUri: string -> bool, homeUri: string,
                         encode: string -> Option<string>): (r: ReportClick)
    ensures r.createsSession <==> !hasSession
    ensures var clean := SanitizeReportUrl(currentUri, isHomeUri, homeUri);
      r.reportArgument == (if encode(clean).Some? then encode(clean).value else clean)
  {
    var clean := SanitizeReportUrl(currentUri, isHomeUri, homeUri);
    ReportClick(!hasSession, match encode(clean) case Some(e) => e case None => clean)
  }

  /** With no page open, the report carries the encoding of the empty string (or the empty string). */
  lemma ReportWithoutPage(hasSession: bool, isHomeUri: string -> bool, homeUri: string, encode: string -> Option<string>)
    ensures OnReportClick(None, hasSession, isHomeUri, homeUri, encode).reportArgument ==
      (if encode("").Some? then encode("").value else "")
  {
  }

  // ---------------------------------------------------------------------------
  // Focus
  // ---------------------------------------------------------------------------

  type ViewId = nat

  /** The developer-options dialog, when it has been created. */
  datatype Dialog = Dialog(id: ViewId, children: set<ViewId>, visible: bool)

  /**
   * `onGlobalFocusChanged`: dismiss when focus leaves the visible dialog for
   * a view outside it, or leaves this visible panel.
   */
  function ShouldDismiss(self: ViewId, selfVisible: bool, dialog: Option<Dialog>,
                         oldFocus: Option<ViewId>, newFocus: Option<ViewId>): bool
  {
    if dialog.Some? && oldFocus == Some(dialog.value.id)
       && !(newFocus.Some? && newFocus.value in dialog.value.children) && dialog.value.visible then true
    else oldFocus == Some(self) && selfVisible
  }

  /** Moving focus inside the dialog, or from a view that is neither the dialog nor the panel, never dismisses. */
  lemma FocusDismissal(self: ViewId, selfVisible: bool, dialog: Option<Dialog>, oldFocus: Option<ViewId>, newFocus: Option<ViewId>)
    requires dialog.Some? ==> dialog.value.id != self
    ensures oldFocus == Some(self) && selfVisible ==> ShouldDismiss(self, selfVisible, dialog, oldFocus, newFocus)
    ensures dialog.Some? && oldFocus == Some(dialog.value.id) ==>
      (ShouldDismiss(self, selfVisible, dialog, oldFocus, newFocus) <==>
        dialog.value.visible && !(newFocus.Some? && newFocus.value in dialog.value.children))
    ensures (oldFocus.None? || (oldFocus != Some(self) && (dialog.None? || oldFocus != Some(dialog.value.id)))) ==>
      !ShouldDismiss(self, selfVisible, dialog, oldFocus, newFocus)
    ensures !selfVisible && (dialog.None? || !dialog.value.visible) ==> !ShouldDismiss(self, selfVisible, dialog, oldFocus, newFocus)
  {
  }
}
