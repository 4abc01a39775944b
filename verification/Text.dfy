/** The few JavaScript string operations the model needs. */
module Text {

  /** White space and line terminators, as `String.prototype.trim` and `\s` see them. */
  predicate IsSpace(c: char) {
    var code := c as int;
    9 <= code <= 13 || code == 32 || code == 0xA0 || code == 0x1680 || 0x2000 <= code <= 0x200A ||
    code == 0x2028 || code == 0x2029 || code == 0x202F || code == 0x205F || code == 0x3000 || code == 0xFEFF
  }

  predicate IsDigit(c: char) {
    '0' <= c <= '9'
  }

  predicate Trimmed(s: string) {
    s == "" || (!IsSpace(s[0]) && !IsSpace(s[|s| - 1]))
  }

  function Trim(s: string): (t: string)
    ensures Trimmed(t)
    ensures Trimmed(s) ==> t == s
    decreases |s|
  {
    if s == "" then ""
    else if IsSpace(s[0]) then Trim(s[1..])
    else if IsSpace(s[|s| - 1]) then Trim(s[..|s| - 1])
    else s
  }

  predicate AllSpace(s: string) {
    forall i | 0 <= i < |s| :: IsSpace(s[i])
  }

  /** Trimming takes white space off both ends, and nothing else. */
  lemma {:induction false} TrimTakesSpace(s: string) returns (before: string, after: string)
    ensures s == before + Trim(s) + after && AllSpace(before) && AllSpace(after)
    decreases |s|
  {
    hide IsSpace, Trimmed;
    if s != "" && IsSpace(s[0]) {
      var rest;
      rest, after := TrimTakesSpace(s[1..]);
      before := [s[0]] + rest;
      assert s == [s[0]] + s[1..];
    } else if s != "" && IsSpace(s[|s| - 1]) {
      var rest;
      before, rest := TrimTakesSpace(s[..|s| - 1]);
      after := rest + [s[|s| - 1]];
      assert s == s[..|s| - 1] + [s[|s| - 1]];
    } else {
      before, after := "", "";
    }
  }

  /** A string with visible content: what `Boolean(value.trim())` tests. */
  predicate NonBlank(s: string) {
    Trim(s) != ""
  }

  predicate AllDigits(s: string) {
    forall i | 0 <= i < |s| :: IsDigit(s[i])
  }

  function DigitValue(c: char): nat
    requires IsDigit(c)
  {
    c as int - '0' as int
  }

  /** The number a run of decimal digits denotes. */
  function Decimal(s: string): nat
    requires AllDigits(s)
  {
    if s == "" then 0 else Decimal(s[..|s| - 1]) * 10 + DigitValue(s[|s| - 1])
  }

  function DigitOf(n: nat): (c: char)
    requires n < 10
    ensures IsDigit(c) && DigitValue(c) == n
  {
    ('0' as int + n) as char
  }

  /** A number as people write it. */
  function Written(n: nat): (s: string)
    ensures s != ""
  {
    if n < 10 then [DigitOf(n)] else Written(n / 10) + [DigitOf(n % 10)]
  }

  lemma {:induction false} WrittenReadsBack(n: nat)
    ensures AllDigits(Written(n)) && Decimal(Written(n)) == n
  {
    if n >= 10 {
      WrittenReadsBack(n / 10);
      var s := Written(n);
      assert s[..|s| - 1] == Written(n / 10) && s[|s| - 1] == DigitOf(n % 10);
    } else {
      assert Written(n)[..0] == "";
    }
  }

  /** Zeros in front change nothing. */
  lemma {:induction false} LeadingZero(s: string)
    requires AllDigits(s)
    ensures AllDigits("0" + s) && Decimal("0" + s) == Decimal(s)
    decreases |s|
  {
    var zeroed := "0" + s;
    if s == "" {
      assert zeroed == "0" && zeroed[..0] == "";
    } else {
      assert zeroed[..|zeroed| - 1] == "0" + s[..|s| - 1] && zeroed[|zeroed| - 1] == s[|s| - 1];
      LeadingZero(s[..|s| - 1]);
    }
  }

  /** So the number of a text is n exactly when the text is n as people write it, with zeros in front or not. */
  predicate Spells(s: string, n: nat)
    decreases |s|
  {
    s == Written(n) || (|s| > 1 && s[0] == '0' && Spells(s[1..], n))
  }

  lemma {:induction false} SpellingDecides(s: string, n: nat)
    requires s != ""
    ensures Spells(s, n) <==> AllDigits(s) && Decimal(s) == n
    decreases |s|
  {
    WrittenReadsBack(n);
    if |s| > 1 && s[0] == '0' {
      SpellingDecides(s[1..], n);
      assert s == "0" + s[1..];
      if AllDigits(s) {
        LeadingZero(s[1..]);
      }
      if Spells(s[1..], n) {
        LeadingZero(s[1..]);
      }
    } else if AllDigits(s) {
      WrittenIsItsNumber(s);
    }
  }

  /** A run of digits without a leading zero is how its number is written. */
  lemma {:induction false} WrittenIsItsNumber(s: string)
    requires s != "" && AllDigits(s) && (s[0] != '0' || |s| == 1)
    ensures Written(Decimal(s)) == s
    ensures s[0] != '0' ==> Decimal(s) >= 1
    decreases |s|
  {
    var front, last := s[..|s| - 1], s[|s| - 1];
    assert s == front + [last];
    if front != "" {
      assert front[0] == s[0];
      WrittenIsItsNumber(front);
      TensAndOnes(Decimal(front), last);
      hide AllDigits;
      assert Decimal(s) == Decimal(front) * 10 + DigitValue(last) && Decimal(s) >= 10;
      assert Written(Decimal(s)) == Written(Decimal(front)) + [last];
    } else {
      assert Decimal(front) == 0;
    }
  }

  lemma TensAndOnes(tens: nat, c: char)
    requires IsDigit(c)
    ensures (tens * 10 + DigitValue(c)) / 10 == tens
    ensures DigitOf((tens * 10 + DigitValue(c)) % 10) == c
  {
  }

  function Lower(s: string): (t: string)
    ensures |t| == |s|
    ensures forall i | 0 <= i < |s| :: t[i] == LowerChar(s[i])
  {
    seq(|s|, i requires 0 <= i < |s| => LowerChar(s[i]))
  }

  function LowerChar(c: char): char {
    if 'A' <= c <= 'Z' then ((c as int) + 32) as char else c
  }

  /** `text.split(separator)` on a single character. */
  function Split(s: string, separator: char): (parts: seq<string>)
    ensures |parts| >= 1
    decreases |s|
  {
    if s == "" then [""]
    else
      var rest := Split(s[1..], separator);
      if s[0] == separator then [""] + rest
      else [[s[0]] + rest[0]] + rest[1..]
  }

  const CAPITALS := "ABCDEFGHIJKLMNOPQRSTUVWXYZ"
  const SMALL := "abcdefghijklmnopqrstuvwxyz"

  /** Each capital becomes its small letter, and every other character stays. */
  lemma LowerCharPairsLetters(c: char)
    ensures forall i | 0 <= i < 26 :: CAPITALS[i] == c ==> LowerChar(c) == SMALL[i]
    ensures c !in CAPITALS ==> LowerChar(c) == c
  {
    if 'A' <= c <= 'Z' {
      assert CAPITALS[c as int - 'A' as int] == c;
    }
  }

  function Joined(parts: seq<string>, separator: char): string
    requires |parts| >= 1
  {
    if |parts| == 1 then parts[0] else parts[0] + [separator] + Joined(parts[1..], separator)
  }

  lemma JoinedAfter(first: string, rest: seq<string>, separator: char)
    requires |rest| >= 1
    ensures Joined([first] + rest, separator) == first + [separator] + Joined(rest, separator)
  {
    assert ([first] + rest)[1..] == rest;
  }

  lemma JoinedLonger(c: char, first: string, rest: seq<string>, separator: char)
    ensures Joined([[c] + first] + rest, separator) == [c] + Joined([first] + rest, separator)
  {
    if rest != [] {
      JoinedAfter([c] + first, rest, separator);
      JoinedAfter(first, rest, separator);
      hide Joined;
      assert [c] + first + [separator] + Joined(rest, separator) == [c] + (first + [separator] + Joined(rest, separator));
    }
  }

  /** Splitting cuts at every separator: joining the parts gives the text back, and no part contains one. */
  lemma {:induction false} SplitJoins(s: string, separator: char)
    ensures Joined(Split(s, separator), separator) == s
    ensures forall i | 0 <= i < |Split(s, separator)| :: separator !in Split(s, separator)[i]
    decreases |s|
  {
    if s != "" {
      var rest := Split(s[1..], separator);
      SplitJoins(s[1..], separator);
      assert Split(s, separator) == if s[0] == separator then [""] + rest else [[s[0]] + rest[0]] + rest[1..];
      hide Split;
      if s[0] == separator {
        JoinedAfter("", rest, separator);
        hide Joined;
        assert s == "" + [separator] + s[1..];
      } else {
        JoinedLonger(s[0], rest[0], rest[1..], separator);
        hide Joined;
        assert rest == [rest[0]] + rest[1..];
        assert s == [s[0]] + s[1..];
      }
    }
  }

  /** A part without separators in front is cut off whole. */
  lemma {:induction false} SplitPart(part: string, s: string, separator: char)
    requires separator !in part
    ensures Split(part + [separator] + s, separator) == [part] + Split(s, separator)
    decreases |part|
  {
    var all := part + [separator] + s;
    if part == "" {
      assert all[1..] == s;
    } else {
      assert part == [part[0]] + part[1..];
      assert all[1..] == part[1..] + [separator] + s;
      SplitPart(part[1..], s, separator);
      assert all[0] == part[0] != separator;
    }
  }

  lemma {:induction false} SplitNothing(s: string, separator: char)
    requires separator !in s
    ensures Split(s, separator) == [s]
    decreases |s|
  {
    if s != "" {
      assert s == [s[0]] + s[1..] && s[0] != separator;
      SplitNothing(s[1..], separator);
    }
  }

  /** And splitting a joined text gives its parts back. */
  lemma {:induction false} JoinedSplits(parts: seq<string>, separator: char)
    requires |parts| >= 1 && forall i | 0 <= i < |parts| :: separator !in parts[i]
    ensures Split(Joined(parts, separator), separator) == parts
    decreases |parts|
  {
    if |parts| == 1 {
      SplitNothing(parts[0], separator);
    } else {
      JoinedSplits(parts[1..], separator);
      SplitPart(parts[0], Joined(parts[1..], separator), separator);
      assert parts == [parts[0]] + parts[1..];
    }
  }

  predicate HasNewline(s: string) {
    '\n' in s
  }

  /** Two newline-joined pairs agree only when both parts do, if the last parts have no newline. */
  lemma {:induction false} LastLineUnique(a: string, m: string, a': string, m': string)
    requires a + "\n" + m == a' + "\n" + m'
    requires !HasNewline(m) && !HasNewline(m')
    ensures a == a' && m == m'
  {
    var s, s' := a + "\n" + m, a' + "\n" + m';
    assert s[|a|] == '\n' && s'[|a'|] == '\n';
    assert |a| == |a'|;
    assert s[..|a|] == a && s'[..|a|] == a';
    assert s[|a| + 1..] == m && s'[|a| + 1..] == m';
  }

  /** The same from the front, if the first parts have no newline. */
  lemma {:induction false} FirstLineUnique(a: string, m: string, a': string, m': string)
    requires a + "\n" + m == a' + "\n" + m'
    requires !HasNewline(a) && !HasNewline(a')
    ensures a == a' && m == m'
  {
    var s, s' := a + "\n" + m, a' + "\n" + m';
    assert s[|a|] == '\n' && s'[|a'|] == '\n';
    assert forall i | 0 <= i < |a| :: s[i] == a[i] != '\n';
    assert forall i | 0 <= i < |a'| :: s'[i] == a'[i] != '\n';
    assert |a| == |a'|;
    assert s[..|a|] == a && s'[..|a|] == a';
    assert s[|a| + 1..] == m && s'[|a| + 1..] == m';
  }
}
