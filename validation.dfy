/** The field validators of the backend: e-mail shape, `YYYY-MM-DD` dates, two-letter state codes,
    date ordering and night counting. */
module Validation {
  import opened Wrappers
  import opened Text

  // ---------------------------------------------------------------------------------------------
  // isValidEmail

  /** One `[^\s@]+` piece of the e-mail pattern: non-empty, with no '@' and no whitespace. */
  predicate EmailPiece(s: string) {
    |s| > 0 && forall i :: 0 <= i < |s| ==> s[i] != '@' && !IsJsWhitespace(s[i])
  }

  /** The split `local @ host . tail` of the e-mail pattern, with the '@' at `at` and the '.' at
      `dot`. */
  predicate EmailSplit(email: string, at: int, dot: int) {
    0 < at && at + 1 < dot && dot + 1 < |email|
    && email[at] == '@' && email[dot] == '.'
    && EmailPiece(email[..at]) && EmailPiece(email[at + 1..dot]) && EmailPiece(email[dot + 1..])
  }

  /** `isValidEmail`: the whole text matches `^[^\s@]+@[^\s@]+\.[^\s@]+$`, that is, some split
      into three pieces exists. */
  predicate IsValidEmail(email: string) {
    exists at, dot :: 0 < at < dot < |email| && EmailSplit(email, at, dot)
  }

  function CountChar(s: string, c: char): nat {
    if s == [] then 0 else (if s[0] == c then 1 else 0) + CountChar(s[1..], c)
  }

  /** Index of the first `c` in `s`, or `|s|` when there is none. */
  function IndexOf(s: string, c: char): (k: nat)
    ensures k <= |s|
    ensures k < |s| ==> s[k] == c
    ensures forall i :: 0 <= i < k ==> s[i] != c
  {
    if s == [] then 0 else if s[0] == c then 0 else 1 + IndexOf(s[1..], c)
  }

  /** The plain-words reading of the e-mail pattern: exactly one '@', no whitespace anywhere, a
      non-empty part before the '@', and after it a domain holding a '.' that is neither its first
      nor its last character. */
  predicate EmailByParts(email: string) {
    && CountChar(email, '@') == 1
    && (forall i :: 0 <= i < |email| ==> !IsJsWhitespace(email[i]))
    && 0 < IndexOf(email, '@') < |email|
    && var domain := email[IndexOf(email, '@') + 1..];
       exists k :: 0 < k < |domain| - 1 && domain[k] == '.'
  }

  lemma {:induction false} CountCharAppend(a: string, b: string, c: char)
    ensures CountChar(a + b, c) == CountChar(a, c) + CountChar(b, c)
  {
    if a == [] {
      assert a + b == b;
    } else {
      assert (a + b)[1..] == a[1..] + b;
      CountCharAppend(a[1..], b, c);
    }
  }

  lemma {:induction false} CountCharZero(s: string, c: char)
    ensures CountChar(s, c) == 0 <==> forall i :: 0 <= i < |s| ==> s[i] != c
  {
    if s != [] {
      CountCharZero(s[1..], c);
      assert forall i :: 1 <= i < |s| ==> s[i] == s[1..][i - 1];
    }
  }

  /** The regular expression and the plain-words reading accept the same addresses. */
  lemma EmailCharacterization(email: string)
    ensures IsValidEmail(email) <==> EmailByParts(email)
  {
    if IsValidEmail(email) {
      var at, dot :| 0 < at < dot < |email| && EmailSplit(email, at, dot);
      EmailSplitByParts(email, at, dot);
    }
    if EmailByParts(email) {
      EmailByPartsSplit(email);
    }
  }

  /** The characters of a piece of the pattern, read in place. */
  lemma PieceChars(email: string, lo: int, hi: int)
    requires 0 <= lo <= hi <= |email| && EmailPiece(email[lo..hi])
    ensures forall i :: lo <= i < hi ==> email[i] != '@' && !IsJsWhitespace(email[i])
  {
    forall i | lo <= i < hi ensures email[i] != '@' && !IsJsWhitespace(email[i]) {
      assert email[i] == email[lo..hi][i - lo];
    }
  }

  /** A text whose only '@' is at `at` counts one '@'. */
  lemma OneAt(email: string, at: int)
    requires 0 <= at < |email| && email[at] == '@'
    requires forall i :: 0 <= i < |email| && i != at ==> email[i] != '@'
    ensures CountChar(email, '@') == 1
  {
    var local, rest := email[..at], email[at + 1..];
    assert email == local + [email[at]] + rest;
    assert forall i :: 0 <= i < |rest| ==> rest[i] == email[at + 1 + i];
    CountCharZero(local, '@');
    CountCharZero(rest, '@');
    CountCharAppend(local + [email[at]], rest, '@');
    CountCharAppend(local, [email[at]], '@');
  }

  lemma EmailSplitByParts(email: string, at: int, dot: int)
    requires EmailSplit(email, at, dot)
    ensures EmailByParts(email)
  {
    PieceChars(email, 0, at);
    PieceChars(email, at + 1, dot);
    PieceChars(email, dot + 1, |email|);
    OneAt(email, at);
    assert IndexOf(email, '@') == at;
    var domain := email[at + 1..];
    assert domain[dot - at - 1] == '.';
  }

  /** With exactly one '@', nothing after the first '@' is another one. */
  lemma SingleAtHasNoSuccessor(email: string)
    requires CountChar(email, '@') == 1
    ensures IndexOf(email, '@') < |email|
    ensures forall i :: IndexOf(email, '@') < i < |email| ==> email[i] != '@'
  {
    var at := IndexOf(email, '@');
    if at == |email| {
      CountCharZero(email, '@');
    }
    var local, domain := email[..at], email[at + 1..];
    assert email == local + [email[at]] + domain;
    CountCharAppend(local + [email[at]], domain, '@');
    CountCharAppend(local, [email[at]], '@');
    CountCharZero(local, '@');
    CountCharZero(domain, '@');
    forall i | at < i < |email| ensures email[i] != '@' {
      assert email[i] == domain[i - at - 1];
    }
  }

  /** A non-empty stretch without '@' or whitespace is a piece of the pattern. */
  lemma StretchIsPiece(email: string, lo: int, hi: int)
    requires 0 <= lo < hi <= |email|
    requires forall i :: lo <= i < hi ==> email[i] != '@' && !IsJsWhitespace(email[i])
    ensures EmailPiece(email[lo..hi])
  {
    forall i | 0 <= i < hi - lo ensures email[lo..hi][i] != '@' && !IsJsWhitespace(email[lo..hi][i]) {
      assert email[lo..hi][i] == email[lo + i];
    }
  }

  lemma EmailByPartsSplit(email: string)
    requires EmailByParts(email)
    ensures exists at, dot :: 0 < at < dot < |email| && EmailSplit(email, at, dot)
  {
    var at := IndexOf(email, '@');
    var domain := email[at + 1..];
    var k :| 0 < k < |domain| - 1 && domain[k] == '.';
    var dot := at + 1 + k;
    assert email[dot] == '.';
    SingleAtHasNoSuccessor(email);
    StretchIsPiece(email, 0, at);
    StretchIsPiece(email, at + 1, dot);
    StretchIsPiece(email, dot + 1, |email|);
    assert EmailSplit(email, at, dot);
  }

  // ---------------------------------------------------------------------------------------------
  // isValidDate and the engine's date parser

  /** The text matches `^\d{4}-\d{2}-\d{2}$`. */
  predicate IsDateShape(s: string) {
    |s| == 10 && forall i :: 0 <= i < |s| ==> if i == 4 || i == 7 then s[i] == '-' else IsAsciiDigit(s[i])
  }

  predicate IsLeapYear(y: nat) {
    y % 4 == 0 && (y % 100 != 0 || y % 400 == 0)
  }

  function DaysInYear(y: nat): nat {
    if IsLeapYear(y) then 366 else 365
  }

  function DaysInMonth(y: nat, m: int): nat
    requires 1 <= m <= 12
  {
    if m == 2 then (if IsLeapYear(y) then 29 else 28)
    else if m == 4 || m == 6 || m == 9 || m == 11 then 30
    else 31
  }

  /** Days from 0000-01-01 (proleptic Gregorian) to the first day of year `y`. */
  function DaysBeforeYear(y: nat): nat {
    if y == 0 then 0 else DaysBeforeYear(y - 1) + DaysInYear(y - 1)
  }

  /** Days from the first of January of `y` to the first day of month `m` (13: of next year). */
  function DaysBeforeMonth(y: nat, m: int): nat
    requires 1 <= m <= 13
  {
    if m == 1 then 0 else DaysBeforeMonth(y, m - 1) + DaysInMonth(y, m - 1)
  }

  /** The day number of year `y`, month `m`, day `d`; a day past the end of its month counts on
      into the following month, as the engine's day arithmetic does. */
  function DayNumber(y: nat, m: int, d: int): int
    requires 1 <= m <= 12
  {
    DaysBeforeYear(y) + DaysBeforeMonth(y, m) + d - 1
  }

  /** The day after the last day of a month is the first day of the next month, and the day after
      31 December is 1 January of the next year. */
  lemma DayNumberNextDay(y: nat, m: int)
    requires 1 <= m <= 12
    ensures m < 12 ==> DayNumber(y, m, DaysInMonth(y, m)) + 1 == DayNumber(y, m + 1, 1)
    ensures m == 12 ==> DayNumber(y, m, DaysInMonth(y, m)) + 1 == DayNumber(y + 1, 1, 1)
  {
    if m == 12 {
      DaysBeforeNextYear(y);
    }
  }

  /** The twelve months make up the year. */
  lemma DaysBeforeNextYear(y: nat)
    ensures DaysBeforeMonth(y, 13) == DaysInYear(y)
  {
    var feb := DaysInMonth(y, 2);
    assert DaysBeforeMonth(y, 2) == 31;
    assert DaysBeforeMonth(y, 3) == 31 + feb;
    assert DaysBeforeMonth(y, 4) == 62 + feb;
    assert DaysBeforeMonth(y, 5) == 92 + feb;
    assert DaysBeforeMonth(y, 6) == 123 + feb;
    assert DaysBeforeMonth(y, 7) == 153 + feb;
    assert DaysBeforeMonth(y, 8) == 184 + feb;
    assert DaysBeforeMonth(y, 9) == 215 + feb;
    assert DaysBeforeMonth(y, 10) == 245 + feb;
    assert DaysBeforeMonth(y, 11) == 276 + feb;
    assert DaysBeforeMonth(y, 12) == 306 + feb;
    assert DaysBeforeMonth(y, 13) == 337 + feb;
  }

  /** `new Date(text)` for a date-only text, as a day number, or None for Invalid Date. The
      engine (V8, as used by Node) takes months 01..12 and days 01..31 and rolls a day past the
      end of its month into the next month; date-only texts are read as UTC midnight. Texts of
      any other shape are treated as Invalid Date. */
  function ParseDate(s: string): (r: Option<int>)
    ensures r.Some? ==> IsDateShape(s)
  {
    if !IsDateShape(s) then None
    else
      assert AllDigits(s[..4]) && AllDigits(s[5..7]) && AllDigits(s[8..]) by {
        assert forall i :: 0 <= i < 4 ==> s[..4][i] == s[i];
        assert forall i :: 0 <= i < 2 ==> s[5..7][i] == s[5 + i] && s[8..][i] == s[8 + i];
      }
      var y, m, d := DigitsValue(s[..4]), DigitsValue(s[5..7]), DigitsValue(s[8..]);
      if 1 <= m <= 12 && 1 <= d <= 31 then Some(DayNumber(y, m, d)) else None
  }

  /** `isValidDate`: the shape check first, then the engine must not produce Invalid Date. */
  function IsValidDate(s: string): (r: bool)
    ensures r ==> |s| == 10 && s[4] == '-' && s[7] == '-'
    ensures r ==> forall i :: 0 <= i < 10 && i != 4 && i != 7 ==> IsAsciiDigit(s[i])
    ensures r <==> ParseDate(s).Some?
  {
    if !IsDateShape(s) then false
    else ParseDate(s).Some?
  }

  // ---------------------------------------------------------------------------------------------
  // isValidStateCode

  /** `isValidStateCode`: the text matches `^[A-Z]{2}$` case-insensitively. */
  function IsValidStateCode(state: string): (r: bool)
    ensures r <==> |state| == 2 && IsAsciiLetter(state[0]) && IsAsciiLetter(state[1])
  {
    |state| == 2 && forall i :: 0 <= i < |state| ==> IsAsciiLetter(state[i])
  }

  // ---------------------------------------------------------------------------------------------
  // isEndDateAfterStartDate and calculateNights

  /** `new Date(end) > new Date(start)`; a comparison with Invalid Date (NaN) is false. */
  function IsEndDateAfterStartDate(start: string, end: string): (r: bool)
    ensures r ==> ParseDate(start).Some? && ParseDate(end).Some?
  {
    match (ParseDate(start), ParseDate(end))
    case (Some(s), Some(e)) => e > s
    case _ => false
  }

  /** The ordering is strict: irreflexive, asymmetric and transitive. */
  lemma EndAfterStartIsStrict(a: string, b: string, c: string)
    ensures !IsEndDateAfterStartDate(a, a)
    ensures IsEndDateAfterStartDate(a, b) ==> !IsEndDateAfterStartDate(b, a)
    ensures IsEndDateAfterStartDate(a, b) && IsEndDateAfterStartDate(b, c) ==> IsEndDateAfterStartDate(a, c)
  {
  }

  const MsPerDay: nat := 1000 * 60 * 60 * 24

  /** A day number as the engine's time value: milliseconds at UTC midnight. */
  function TimeValue(day: int): int {
    day * MsPerDay
  }

  /** `Math.ceil(n / d)` for integers. */
  function CeilDiv(n: int, d: nat): int
    requires d > 0
  {
    if n >= 0 then (n + d - 1) / d else -((-n) / d)
  }

  /** Dividing a whole number of days' milliseconds by the length of a day leaves no fraction
      for `Math.ceil` to round. */
  lemma CeilDivOfWholeDays(k: int)
    ensures CeilDiv(k * MsPerDay, MsPerDay) == k
  {
  }

  /** `calculateNights`: `Math.ceil(Math.abs(end - start) / MsPerDay)`; NaN (None) when either
      date is invalid. */
  function CalculateNights(start: string, end: string): (r: Option<int>)
    ensures r.Some? <==> ParseDate(start).Some? && ParseDate(end).Some?
  {
    match (ParseDate(start), ParseDate(end))
    case (Some(s), Some(e)) => Some(CeilDiv(Abs(TimeValue(e) - TimeValue(s)), MsPerDay))
    case _ => None
  }

  /** For valid dates the night count is the distance between their day numbers; it is therefore
      never negative, symmetric, and zero for the same date. */
  lemma NightsIsDayDistance(start: string, end: string)
    requires ParseDate(start).Some? && ParseDate(end).Some?
    ensures CalculateNights(start, end) == Some(Abs(ParseDate(end).value - ParseDate(start).value))
    ensures CalculateNights(start, end) == CalculateNights(end, start)
    ensures CalculateNights(start, start) == Some(0)
  {
    var s, e := ParseDate(start).value, ParseDate(end).value;
    assert Abs(TimeValue(e) - TimeValue(s)) == Abs(e - s) * MsPerDay by {
      assert TimeValue(e) - TimeValue(s) == (e - s) * MsPerDay;
      if e < s {
        assert -((e - s) * MsPerDay) == (s - e) * MsPerDay;
      }
    }
    assert Abs(TimeValue(s) - TimeValue(e)) == Abs(e - s) * MsPerDay by {
      assert TimeValue(s) - TimeValue(e) == (s - e) * MsPerDay;
      if s < e {
        assert -((s - e) * MsPerDay) == (e - s) * MsPerDay;
      }
    }
    CeilDivOfWholeDays(Abs(e - s));
    CeilDivOfWholeDays(0);
  }
}
