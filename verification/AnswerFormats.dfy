/**
 What the formats of the guided questions mean, told without their parsers: dates, e-mail addresses, mobile numbers
 and lists of outdoor areas.
 (apps/api/src/messaging/messaging-quote-guided-visit-household.ts, messaging-quote-guided-final-details.ts,
 messaging-quote-guided-post-event.ts)
 */
module AnswerFormats {
  import opened Prelude
  import opened Json
  import opened InterviewBase
  import GuidedPostEvent
  import opened GuidedVisitHousehold
  import opened GuidedFinalDetails
  import Text

  // ---- e-mail and mobile ---------------------------------------------------------------------

  predicate IsSolid(s: string) {
    s != "" && forall i | 0 <= i < |s| :: !Text.IsSpace(s[i])
  }

  ghost predicate IsAddress(text: string) {
    exists name, host, domain ::
      IsSolid(name) && IsSolid(host) && IsSolid(domain) && text == name + "@" + host + "." + domain
  }

  lemma EmailReads(text: string)
    ensures IsEmail(text) <==> IsAddress(text)
  {
    if IsEmail(text) {
      var at, dot :| 1 <= at < |text| && at + 2 <= dot <= |text| - 2 && text[at] == '@' && text[dot] == '.';
      var name, host, domain := text[..at], text[at + 1..dot], text[dot + 1..];
      assert IsSolid(name) && IsSolid(host) && IsSolid(domain);
      assert text == name + "@" + host + "." + domain;
    }
    if IsAddress(text) {
      var name, host, domain :|
        IsSolid(name) && IsSolid(host) && IsSolid(domain) && text == name + "@" + host + "." + domain;
      var at, dot := |name|, |name| + 1 + |host|;
      forall i | 0 <= i < |text|
        ensures !Text.IsSpace(text[i])
      {
        if i < at { assert text[i] == name[i]; }
        else if at < i < dot { assert text[i] == host[i - at - 1]; }
        else if dot < i { assert text[i] == domain[i - dot - 1]; }
      }
      assert text[at] == '@' && text[dot] == '.';
    }
  }

  /** A plus sign and eight to fifteen digits, the first not a zero. */
  lemma MobileReads(text: string)
    ensures IsMobile(text) <==>
              exists digits :: text == "+" + digits && 8 <= |digits| <= 15 && Text.AllDigits(digits) && digits[0] != '0'
  {
    if IsMobile(text) {
      var digits := text[1..];
      assert text == "+" + digits && digits == [text[1]] + text[2..];
      assert Text.AllDigits(digits);
    }
    if exists digits :: text == "+" + digits && 8 <= |digits| <= 15 && Text.AllDigits(digits) && digits[0] != '0' {
      var digits :| text == "+" + digits && 8 <= |digits| <= 15 && Text.AllDigits(digits) && digits[0] != '0';
      assert text[2..] == digits[1..];
    }
  }

  // ---- dates ---------------------------------------------------------------------------------

  predicate IsLeapYear(year: nat) {
    year % 4 == 0 && (year % 100 == 0 ==> year % 400 == 0)
  }

  const MONTH_LENGTHS: seq<nat> := [31, 28, 31, 30, 31, 30, 31, 31, 30, 31, 30, 31]

  lemma DaysInReads(year: nat, month: nat)
    requires 1 <= month <= 12
    ensures DaysIn(year, month) == MONTH_LENGTHS[month - 1] + if month == 2 && IsLeapYear(year) then 1 else 0
  {
  }

  /** The leap years before a year, counted. */
  function LeapsBefore(year: nat): int {
    (year + 3) / 4 - (year + 99) / 100 + (year + 399) / 400
  }

  /** The leap rule is the one whose years drift by 97 days in 400. */
  lemma LeapYearsAreCounted(year: nat)
    ensures LeapsBefore(year + 1) - LeapsBefore(year) == if IsLeapYear(year) then 1 else 0
    ensures LeapsBefore(year + 400) == LeapsBefore(year) + 97
  {
    Fours(year);
    Hundreds(year);
    FourHundreds(year);
    Divides(year);
  }

  lemma Divides(n: nat)
    ensures n % 400 == 0 ==> n % 100 == 0
    ensures n % 100 == 0 ==> n % 4 == 0
  {
    if n % 400 == 0 { assert n == 100 * (4 * (n / 400)); }
    if n % 100 == 0 { assert n == 4 * (25 * (n / 100)); }
  }

  lemma Fours(n: nat)
    ensures (n + 1 + 3) / 4 - (n + 3) / 4 == (if n % 4 == 0 then 1 else 0) && (n + 400 + 3) / 4 == (n + 3) / 4 + 100
  {
  }

  lemma Hundreds(n: nat)
    ensures (n + 1 + 99) / 100 - (n + 99) / 100 == (if n % 100 == 0 then 1 else 0)
    ensures (n + 400 + 99) / 100 == (n + 99) / 100 + 4
  {
  }

  lemma FourHundreds(n: nat)
    ensures (n + 1 + 399) / 400 - (n + 399) / 400 == (if n % 400 == 0 then 1 else 0)
    ensures (n + 400 + 399) / 400 == (n + 399) / 400 + 1
  {
  }

  /** A number in a fixed count of digits. */
  function Padded(n: nat, width: nat): (s: string)
    ensures |s| == width && Text.AllDigits(s)
  {
    if width == 0 then "" else Padded(n / 10, width - 1) + [Text.DigitOf(n % 10)]
  }

  lemma {:induction false} PaddingIsItsNumber(s: string)
    requires Text.AllDigits(s)
    ensures Padded(Text.Decimal(s), |s|) == s
    decreases |s|
  {
    if s != "" {
      var front, last := s[..|s| - 1], s[|s| - 1];
      PaddingIsItsNumber(front);
      PaddedLast(Text.Decimal(front), last, |front|);
      assert Text.Decimal(s) == Text.Decimal(front) * 10 + Text.DigitValue(last);
      hide Padded, Text.Decimal, Text.DigitValue;
      assert s == front + [last];
    }
  }

  lemma PaddedLast(tens: nat, c: char, width: nat)
    requires Text.IsDigit(c)
    ensures Padded(tens * 10 + Text.DigitValue(c), width + 1) == Padded(tens, width) + [c]
  {
    Text.TensAndOnes(tens, c);
    hide Text.DigitValue;
    assert Padded(tens * 10 + Text.DigitValue(c), width + 1)
        == Padded((tens * 10 + Text.DigitValue(c)) / 10, width) + [Text.DigitOf((tens * 10 + Text.DigitValue(c)) % 10)];
  }

  /** A number with no more digits than the width reads back. */
  lemma {:induction false} PaddedReadsBack(n: nat, width: nat)
    requires n < Power(width)
    ensures Text.Decimal(Padded(n, width)) == n
  {
    if width > 0 {
      Tenths(n, Power(width - 1));
      PaddedReadsBack(n / 10, width - 1);
      PaddedDigit(n, width - 1);
      hide Text.Decimal, Padded;
    }
  }

  lemma Tenths(n: nat, p: nat)
    ensures n < 10 * p ==> n / 10 < p
    ensures n == n / 10 * 10 + n % 10
  {
  }

  function Power(width: nat): nat {
    if width == 0 then 1 else 10 * Power(width - 1)
  }

  lemma PaddedDigit(n: nat, width: nat)
    ensures Text.Decimal(Padded(n, width + 1)) == Text.Decimal(Padded(n / 10, width)) * 10 + n % 10
  {
    var s := Padded(n, width + 1);
    assert s[..|s| - 1] == Padded(n / 10, width) && s[|s| - 1] == Text.DigitOf(n % 10);
  }

  predicate IsDay(year: nat, month: nat, day: nat) {
    100 <= year <= 9999 && 1 <= month <= 12 && 1 <= day <= DaysIn(year, month)
  }

  function WrittenDate(year: nat, month: nat, day: nat): (s: string)
    ensures |s| == 10
  {
    Padded(year, 4) + "-" + Padded(month, 2) + "-" + Padded(day, 2)
  }

  /** The dates accepted are the days of the calendar from the year 100, as ISO 8601 writes them. */
  lemma DateReads(text: string)
    ensures IsCalendarDate(text) <==> exists year, month, day :: IsDay(year, month, day) && text == WrittenDate(year, month, day)
  {
    hide Padded, WrittenDate, IsDay;
    if IsCalendarDate(text) {
      var year, month, day := DateIsWritten(text);
    }
    forall year, month, day | IsDay(year, month, day)
      ensures IsCalendarDate(WrittenDate(year, month, day))
    {
      WrittenIsDate(year, month, day);
    }
    hide IsCalendarDate;
  }

  lemma DateIsWritten(text: string) returns (year: nat, month: nat, day: nat)
    requires IsCalendarDate(text)
    ensures IsDay(year, month, day) && text == WrittenDate(year, month, day)
  {
    var y, m, d := text[..4], text[5..7], text[8..];
    year, month, day := Text.Decimal(y), Text.Decimal(m), Text.Decimal(d);
    PaddingIsItsNumber(y);
    PaddingIsItsNumber(m);
    PaddingIsItsNumber(d);
    FourDigits(y);
    hide Padded, Text.Decimal, DaysIn;
    assert text == y + "-" + m + "-" + d;
  }

  lemma WrittenIsDate(year: nat, month: nat, day: nat)
    requires IsDay(year, month, day)
    ensures IsCalendarDate(WrittenDate(year, month, day))
  {
    var s := WrittenDate(year, month, day);
    assert s[..4] == Padded(year, 4) && s[5..7] == Padded(month, 2) && s[8..] == Padded(day, 2);
    assert Power(2) == 100 && Power(4) == 10_000;
    PaddedReadsBack(year, 4);
    PaddedReadsBack(month, 2);
    PaddedReadsBack(day, 2);
    hide DaysIn, Padded, Text.Decimal;
  }

  lemma FourDigits(s: string)
    requires |s| == 4 && Text.AllDigits(s)
    ensures Text.Decimal(s) <= 9999
  {
    var a, b, c := s[..3], s[..2], s[..1];
    assert s[..3][..2] == b && b[..1] == c && c[..0] == "";
    assert Text.Decimal(s) == Text.Decimal(a) * 10 + Text.DigitValue(s[3]);
    assert Text.Decimal(a) == Text.Decimal(b) * 10 + Text.DigitValue(s[2]);
    assert Text.Decimal(b) == Text.Decimal(c) * 10 + Text.DigitValue(s[1]);
    assert Text.Decimal(c) == Text.DigitValue(s[0]);
  }

  // ---- outdoor areas -------------------------------------------------------------------------

  const AREAS: seq<string> := ["PATIO", "BALCONY", "BRAAI_AREA", "GARDEN_ENTERTAINMENT_AREA"]

  predicate ArePicks(picks: seq<nat>) {
    picks != [] && (forall i | 0 <= i < |picks| :: 1 <= picks[i] <= 4) &&
    forall i, j | 0 <= i < j < |picks| :: picks[i] != picks[j]
  }

  function WrittenPicks(picks: seq<nat>): string
    requires ArePicks(picks)
  {
    Text.Joined(Numerals(picks), ',')
  }

  function PickedAreas(picks: seq<nat>): Json
    requires ArePicks(picks)
  {
    Arr(seq(|picks|, i requires 0 <= i < |picks| => Str(AREAS[picks[i] - 1])))
  }

  lemma AreaNumbers(part: string)
    ensures GuidedPostEvent.IsAreaNumber(part) <==> exists n :: 1 <= n <= 4 && part == Text.Written(n)
    ensures forall n | 1 <= n <= 4 && part == Text.Written(n) :: Choice(GuidedPostEvent.OUTDOOR_AREAS, part) == Some(Str(AREAS[n - 1]))
  {
    FourNumerals();
    if GuidedPostEvent.IsAreaNumber(part) {
      var n := if part == "1" then 1 else if part == "2" then 2 else if part == "3" then 3 else 4;
      assert part == Text.Written(n);
    }
    forall n | 1 <= n <= 4 && part == Text.Written(n)
      ensures GuidedPostEvent.IsAreaNumber(part) && Choice(GuidedPostEvent.OUTDOOR_AREAS, part) == Some(Str(AREAS[n - 1]))
    {
      AreaOfNumber(n);
    }
    hide Text.Written, Choice, GuidedPostEvent.IsAreaNumber;
  }

  lemma FourNumerals()
    ensures Text.Written(1) == "1" && Text.Written(2) == "2" && Text.Written(3) == "3" && Text.Written(4) == "4"
  {
  }

  lemma AreaOfNumber(n: nat)
    requires 1 <= n <= 4
    ensures GuidedPostEvent.IsAreaNumber(Text.Written(n))
    ensures Choice(GuidedPostEvent.OUTDOOR_AREAS, Text.Written(n)) == Some(Str(AREAS[n - 1]))
  {
    FourNumerals();
    hide Text.Written;
    assert n == 1 || n == 2 || n == 3 || n == 4;
  }

  function Numerals(picks: seq<nat>): (parts: seq<string>)
    ensures |parts| == |picks|
  {
    seq(|picks|, i requires 0 <= i < |picks| => Text.Written(picks[i]))
  }

  lemma PicksSplit(picks: seq<nat>)
    requires ArePicks(picks)
    ensures WrittenPicks(picks) != "0" && Text.Split(WrittenPicks(picks), ',') == Numerals(picks)
    ensures !GuidedPostEvent.Repeats(Numerals(picks))
  {
    var parts := Numerals(picks);
    FourNumerals();
    forall i | 0 <= i < |parts|
      ensures parts[i] == Text.Written(picks[i]) && ',' !in parts[i] && parts[i] != "0"
    {
      assert picks[i] == 1 || picks[i] == 2 || picks[i] == 3 || picks[i] == 4;
    }
    forall i, j | 0 <= i < j < |parts|
      ensures parts[i] != parts[j]
    {
      Text.WrittenReadsBack(picks[i]);
      Text.WrittenReadsBack(picks[j]);
    }
    hide Text.Written;
    Text.JoinedSplits(parts, ',');
    Text.SplitNothing("0", ',');
    hide Text.Split, Text.Joined;
  }

  /** A comma list of different area numbers, in any order, stores those areas in that order. */
  lemma PicksAreRead(picks: seq<nat>)
    requires ArePicks(picks)
    ensures WrittenPicks(picks) != "0"
    ensures GuidedPostEvent.ParseOutdoorAreas(WrittenPicks(picks)) == Some(PickedAreas(picks))
  {
    var parts := Numerals(picks);
    PicksSplit(picks);
    hide Text.Split, WrittenPicks, GuidedPostEvent.Repeats;
    forall i | 0 <= i < |parts|
      ensures GuidedPostEvent.IsAreaNumber(parts[i])
      ensures Choice(GuidedPostEvent.OUTDOOR_AREAS, parts[i]) == Some(Str(AREAS[picks[i] - 1]))
    {
      assert parts[i] == Text.Written(picks[i]);
      AreaNumbers(parts[i]);
    }
    hide GuidedPostEvent.IsAreaNumber, Choice, Numerals, Text.Written;
    assert GuidedPostEvent.SelectedAreas(parts) == PickedAreas(picks).items;
  }

  /** Anything else, apart from 0, is refused. */
  lemma OnlyPicksAreRead(text: string) returns (picks: seq<nat>)
    requires text != "0" && GuidedPostEvent.ParseOutdoorAreas(text).Some?
    ensures ArePicks(picks) && text == WrittenPicks(picks)
  {
    var parts := Text.Split(text, ',');
    Text.SplitJoins(text, ',');
    picks := [];
    while |picks| < |parts|
      invariant |picks| <= |parts|
      invariant forall i | 0 <= i < |picks| :: 1 <= picks[i] <= 4 && parts[i] == Text.Written(picks[i])
    {
      AreaNumbers(parts[|picks|]);
      var n :| 1 <= n <= 4 && parts[|picks|] == Text.Written(n);
      picks := picks + [n];
    }
    hide Text.Split, Text.Joined, Text.Written, GuidedPostEvent.IsAreaNumber;
    assert forall i, j | 0 <= i < j < |picks| :: parts[i] != parts[j];
    assert Numerals(picks) == parts;
  }
}
