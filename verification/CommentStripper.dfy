/**
 The scanner that decides whether a change touches comments only, for the
 languages with C-style comments.
 (scripts/validate_documentation.py, `normalized` and `comment_only`)
 */
module CommentStripper {
  import opened Prelude
  import Text

  predicate IsQuote(c: char) {
    c == '"' || c == '\'' || c == '`'
  }

  // ---- what the scanner computes -------------------------------------------------------------

  /** From the next newline on, or nothing. */
  function FromNewline(t: string): (rest: string)
    ensures |rest| <= |t|
  {
    if t == "" || t[0] == '\n' then t else FromNewline(t[1..])
  }

  /** What follows the next closing mark, or nothing. */
  function AfterClose(t: string): (rest: string)
    ensures |rest| <= |t|
  {
    if |t| < 2 then "" else if t[0] == '*' && t[1] == '/' then t[2..] else AfterClose(t[1..])
  }

  predicate StartsLineComment(t: string) {
    |t| >= 2 && t[0] == '/' && t[1] == '/'
  }

  predicate StartsBlockComment(t: string) {
    |t| >= 2 && t[0] == '/' && t[1] == '*'
  }

  /** The text without its comments, read from inside `quote` if there is one. */
  function Strip(t: string, quote: Option<char>): string
    decreases |t|
  {
    if t == "" then ""
    else if quote.Some? then
      if t[0] == '\\' && |t| >= 2 then t[..2] + Strip(t[2..], quote)
      else if t[0] == quote.value then [t[0]] + Strip(t[1..], None)
      else [t[0]] + Strip(t[1..], quote)
    else if IsQuote(t[0]) then [t[0]] + Strip(t[1..], Some(t[0]))
    else if StartsLineComment(t) then Strip(FromNewline(t[2..]), None)
    else if StartsBlockComment(t) then Strip(AfterClose(t[2..]), None)
    else [t[0]] + Strip(t[1..], None)
  }

  /** White space as Python's `\s` sees it in text. */
  predicate IsPythonSpace(c: char) {
    var code := c as int;
    9 <= code <= 13 || 28 <= code <= 32 || code == 0x85 || code == 0xA0 || code == 0x1680 || 0x2000 <= code <= 0x200A ||
    code == 0x2028 || code == 0x2029 || code == 0x202F || code == 0x205F || code == 0x3000
  }

  function WithoutSpace(t: string): string {
    if t == "" then "" else (if IsPythonSpace(t[0]) then [] else [t[0]]) + WithoutSpace(t[1..])
  }

  // ---- the scanner ---------------------------------------------------------------------------

  /** `text.find('\n', from)` */
  function FindNewline(text: string, from: nat): (r: Option<nat>)
    requires from <= |text|
    ensures r.Some? ==> from <= r.value < |text| && text[r.value] == '\n'
    decreases |text| - from
  {
    if from == |text| then None else if text[from] == '\n' then Some(from) else FindNewline(text, from + 1)
  }

  /** `text.find('*' + '/', from)` */
  function FindClose(text: string, from: nat): (r: Option<nat>)
    requires from <= |text|
    ensures r.Some? ==> from <= r.value && r.value + 2 <= |text|
    decreases |text| - from
  {
    if from + 2 > |text| then None
    else if text[from] == '*' && text[from + 1] == '/' then Some(from)
    else FindClose(text, from + 1)
  }

  lemma {:induction false} NewlineFound(text: string, from: nat)
    requires from <= |text|
    ensures match FindNewline(text, from)
            case None => FromNewline(text[from..]) == ""
            case Some(k) => FromNewline(text[from..]) == text[k..]
    decreases |text| - from
  {
    if from < |text| {
      assert text[from..][1..] == text[from + 1..];
      NewlineFound(text, from + 1);
    }
  }

  lemma {:induction false} CloseFound(text: string, from: nat)
    requires from <= |text|
    ensures match FindClose(text, from)
            case None => AfterClose(text[from..]) == ""
            case Some(k) => AfterClose(text[from..]) == text[k + 2..]
    decreases |text| - from
  {
    if from + 2 <= |text| {
      assert text[from..][1..] == text[from + 1..] && text[from..][2..] == text[from + 2..];
      CloseFound(text, from + 1);
    }
  }

  function Rest(text: string, index: nat): string {
    if index <= |text| then text[index..] else ""
  }

  /** What has been put out so far, with what is still to come, is the whole answer. */
  predicate OnTrack(text: string, output: string, index: nat, quote: Option<char>) {
    output + Strip(Rest(text, index), quote) == Strip(text, None)
  }

  lemma LineCommentStep(text: string, output: string, index: nat)
    requires OnTrack(text, output, index, None)
    requires index + 1 < |text| && text[index] == '/' && text[index + 1] == '/'
    ensures match FindNewline(text, index)
            case None => OnTrack(text, output, |text| + 1, None)
            case Some(k) => index + 2 <= k < |text| && OnTrack(text, output, k, None)
  {
    NewlineFound(text, index);
    NewlineFound(text, index + 2);
    var rest := text[index..];
    assert rest[2..] == text[index + 2..] && rest[1..][1..] == rest[2..];
    assert FromNewline(rest) == FromNewline(rest[2..]);
  }

  lemma BlockCommentStep(text: string, output: string, index: nat)
    requires OnTrack(text, output, index, None)
    requires index + 1 < |text| && text[index] == '/' && text[index + 1] == '*'
    ensures match FindClose(text, index + 2)
            case None => OnTrack(text, output, |text| + 1, None)
            case Some(k) => index + 2 <= k && k + 2 <= |text| && OnTrack(text, output, k + 2, None)
  {
    CloseFound(text, index + 2);
    assert text[index..][2..] == text[index + 2..];
  }

  lemma EscapeStep(text: string, output: string, index: nat, quote: Option<char>)
    requires OnTrack(text, output, index, quote)
    requires quote.Some? && index + 1 < |text| && text[index] == '\\'
    ensures OnTrack(text, output + [text[index]] + [text[index + 1]], index + 2, quote)
  {
    var rest := text[index..];
    assert rest[2..] == Rest(text, index + 2) && rest[..2] == [text[index]] + [text[index + 1]];
    assert output + [text[index]] + [text[index + 1]] == output + rest[..2];
  }

  /** The quote after one character that is put out as it stands. */
  function QuoteAfter(c: char, quote: Option<char>): Option<char> {
    if quote.Some? then (if c == quote.value then None else quote) else if IsQuote(c) then Some(c) else None
  }

  lemma StripOne(t: string, quote: Option<char>)
    requires t != "" && !(quote.Some? && t[0] == '\\' && |t| >= 2)
    requires quote.None? && t[0] == '/' && |t| >= 2 ==> t[1] != '/' && t[1] != '*'
    ensures Strip(t, quote) == [t[0]] + Strip(t[1..], QuoteAfter(t[0], quote))
  {
    StripUnfolds(t, quote);
    hide Strip, FromNewline, AfterClose;
  }

  lemma CharacterStep(text: string, output: string, index: nat, quote: Option<char>)
    requires OnTrack(text, output, index, quote) && index < |text|
    requires quote.None? && text[index] == '/' && index + 1 < |text| ==>
               text[index + 1] != '/' && text[index + 1] != '*'
    requires !(quote.Some? && index + 1 < |text| && text[index] == '\\')
    ensures OnTrack(text, output + [text[index]], index + 1, QuoteAfter(text[index], quote))
  {
    hide Strip, QuoteAfter;
    var rest := text[index..];
    assert rest[1..] == Rest(text, index + 1) && rest[0] == text[index];
    StripOne(rest, quote);
    assert output + ([text[index]] + Strip(rest[1..], QuoteAfter(text[index], quote)))
        == output + [text[index]] + Strip(rest[1..], QuoteAfter(text[index], quote));
  }

  lemma ReachedTheEnd(text: string, output: string, index: nat, quote: Option<char>)
    requires OnTrack(text, output, index, quote) && index >= |text|
    ensures output == Strip(text, None)
  {
  }

  /** The index-driven loop, with the last index it looks at left one short of where it goes on. */
  method StripComments(text: string) returns (output: string)
    ensures output == Strip(text, None)
  {
    output := "";
    var index: nat := 0;
    var quote: Option<char> := None;
    assert OnTrack(text, "", 0, None) by { assert text[0..] == text; }
    hide OnTrack, Strip, FromNewline, AfterClose, Rest, FindNewline, FindClose;
    while index < |text|
      invariant index <= |text| + 1 && OnTrack(text, output, index, quote)
      decreases |text| + 1 - index
    {
      var c := text[index];
      if quote.Some? {
        if c == '\\' && index + 1 < |text| {
          EscapeStep(text, output, index, quote);
          output := output + [c];
          index := index + 1;
          output := output + [text[index]];
        } else {
          CharacterStep(text, output, index, quote);
          output := output + [c];
          if c == quote.value {
            quote := None;
          }
        }
      } else if IsQuote(c) {
        CharacterStep(text, output, index, quote);
        quote := Some(c);
        output := output + [c];
      } else if index + 1 < |text| && c == '/' && text[index + 1] == '/' {
        LineCommentStep(text, output, index);
        var newline := FindNewline(text, index);
        index := if newline.None? then |text| else newline.value - 1;
      } else if index + 1 < |text| && c == '/' && text[index + 1] == '*' {
        BlockCommentStep(text, output, index);
        var end := FindClose(text, index + 2);
        index := if end.None? then |text| else end.value + 1;
      } else {
        CharacterStep(text, output, index, quote);
        output := output + [c];
      }
      index := index + 1;
    }
    ReachedTheEnd(text, output, index, quote);
  }

  /** `re.sub(r'\s+', '', text)` after stripping. */
  function Normalized(text: string): string {
    WithoutSpace(Strip(text, None))
  }

  predicate CommentOnly(base: string, head: string) {
    Normalized(base) == Normalized(head)
  }

  // ---- an independent account: one character at a time ---------------------------------------

  /** Where a reader is after some prefix. `Slash` holds back a `/` that may start a comment. */
  datatype Mode = Code | Slash | Quoted(mark: char) | Escaped(mark: char) | InLine | InBlock | InBlockStar

  function NextFromCode(c: char): (string, Mode) {
    if IsQuote(c) then ([c], Quoted(c)) else if c == '/' then ("", Slash) else ([c], Code)
  }

  /** What one character adds to the output, and the mode it leads to. */
  function Next(mode: Mode, c: char): (string, Mode) {
    match mode
    case Code => NextFromCode(c)
    case Slash =>
      if c == '/' then ("", InLine) else if c == '*' then ("", InBlock)
      else var (out, next) := NextFromCode(c); ("/" + out, next)
    case Quoted(mark) => ([c], if c == '\\' then Escaped(mark) else if c == mark then Code else mode)
    case Escaped(mark) => ([c], Quoted(mark))
    case InLine => if c == '\n' then ([c], Code) else ("", InLine)
    case InBlock => ("", if c == '*' then InBlockStar else InBlock)
    case InBlockStar => ("", if c == '/' then Code else if c == '*' then InBlockStar else InBlock)
  }

  function Read(mode: Mode, t: string): string
    decreases |t|
  {
    if t == "" then (if mode == Slash then "/" else "")
    else var (out, next) := Next(mode, t[0]); out + Read(next, t[1..])
  }

  function ModeAfter(mode: Mode, t: string): Mode
    decreases |t|
  {
    if t == "" then mode else ModeAfter(Next(mode, t[0]).1, t[1..])
  }

  lemma {:induction false} ReadInLine(t: string)
    ensures Read(InLine, t) == Read(InLine, FromNewline(t))
    decreases |t|
  {
    if t != "" && t[0] != '\n' {
      ReadInLine(t[1..]);
    }
  }

  lemma {:induction false} ReadInBlock(t: string)
    ensures Read(InBlock, t) == Read(Code, AfterClose(t))
    ensures |t| >= 1 && t[0] == '/' ==> Read(InBlockStar, t) == Read(Code, t[1..])
    ensures t == "" || t[0] != '/' ==> Read(InBlockStar, t) == Read(InBlock, t)
    decreases |t|
  {
    if t != "" {
      ReadInBlock(t[1..]);
    }
  }

  predicate IsMark(quote: Option<char>) {
    quote.Some? ==> IsQuote(quote.value)
  }

  lemma ReadUnfolds(mode: Mode, t: string)
    requires t != ""
    ensures Read(mode, t) == Next(mode, t[0]).0 + Read(Next(mode, t[0]).1, t[1..])
    ensures HasNoComment(mode, t) <==> !InComment(mode) && HasNoComment(Next(mode, t[0]).1, t[1..])
  {
  }

  lemma StripUnfolds(t: string, quote: Option<char>)
    requires t != ""
    ensures Strip(t, quote) ==
              if quote.Some? then
                if t[0] == '\\' && |t| >= 2 then t[..2] + Strip(t[2..], quote)
                else [t[0]] + Strip(t[1..], if t[0] == quote.value then None else quote)
              else if IsQuote(t[0]) then [t[0]] + Strip(t[1..], Some(t[0]))
              else if StartsLineComment(t) then Strip(FromNewline(t[2..]), None)
              else if StartsBlockComment(t) then Strip(AfterClose(t[2..]), None)
              else [t[0]] + Strip(t[1..], None)
  {
  }

  lemma QuotedAgrees(t: string, mark: char)
    requires t != "" && IsQuote(mark)
    requires Strip(t[1..], Some(mark)) == Read(Quoted(mark), t[1..]) && Strip(t[1..], None) == Read(Code, t[1..])
    requires |t| >= 2 ==> Strip(t[2..], Some(mark)) == Read(Quoted(mark), t[2..])
    ensures Strip(t, Some(mark)) == Read(Quoted(mark), t)
  {
    assert Read(Escaped(mark), "") == "" && Read(Quoted(mark), "") == "";
    hide Strip, Read, FromNewline, AfterClose, StartsLineComment, StartsBlockComment;
    StripUnfolds(t, Some(mark));
    ReadUnfolds(Quoted(mark), t);
    if t[0] == '\\' {
      if |t| >= 2 {
        var rest := Read(Quoted(mark), t[2..]);
        ReadUnfolds(Escaped(mark), t[1..]);
        assert t[1..][1..] == t[2..];
        assert t[..2] + rest == [t[0]] + ([t[1]] + rest);
      } else {
        assert t[1..] == "";
      }
    }
  }

  lemma LineCommentAgrees(t: string)
    requires StartsLineComment(t)
    requires Strip(FromNewline(t[2..]), None) == Read(Code, FromNewline(t[2..]))
    ensures Strip(t, None) == Read(Code, t)
  {
    hide Strip, Read, FromNewline, AfterClose;
    StripUnfolds(t, None);
    ReadUnfolds(Code, t);
    ReadUnfolds(Slash, t[1..]);
    assert t[1..][1..] == t[2..];
    ReadInLine(t[2..]);
    StartsAtNewline(t[2..]);
  }

  lemma BlockCommentAgrees(t: string)
    requires StartsBlockComment(t)
    requires Strip(AfterClose(t[2..]), None) == Read(Code, AfterClose(t[2..]))
    ensures Strip(t, None) == Read(Code, t)
  {
    hide Strip, Read, FromNewline, AfterClose;
    StripUnfolds(t, None);
    ReadUnfolds(Code, t);
    ReadUnfolds(Slash, t[1..]);
    assert t[1..][1..] == t[2..];
    ReadInBlock(t[2..]);
  }

  lemma PlainAgrees(t: string)
    requires t != "" && !StartsLineComment(t) && !StartsBlockComment(t)
    requires Strip(t[1..], None) == Read(Code, t[1..])
    requires IsQuote(t[0]) ==> Strip(t[1..], Some(t[0])) == Read(Quoted(t[0]), t[1..])
    ensures Strip(t, None) == Read(Code, t)
  {
    hide Strip, Read, FromNewline, AfterClose;
    StripUnfolds(t, None);
    ReadUnfolds(Code, t);
    if t[0] == '/' {
      SlashIsHeldBack(t[1..]);
    }
  }

  /** The look-ahead scanner and the one-character reader agree on every text. */
  lemma {:induction false} ScannerAgreesWithReader(t: string, quote: Option<char>)
    requires IsMark(quote)
    ensures Strip(t, quote) == Read(if quote.Some? then Quoted(quote.value) else Code, t)
    decreases |t|
  {
    if t != "" {
      hide Strip, Read, FromNewline, AfterClose;
      ScannerAgreesWithReader(t[1..], quote);
      if quote.Some? {
        ScannerAgreesWithReader(t[1..], None);
        if |t| >= 2 { ScannerAgreesWithReader(t[2..], quote); }
        QuotedAgrees(t, quote.value);
      } else if StartsLineComment(t) {
        ScannerAgreesWithReader(FromNewline(t[2..]), None);
        LineCommentAgrees(t);
      } else if StartsBlockComment(t) {
        ScannerAgreesWithReader(AfterClose(t[2..]), None);
        BlockCommentAgrees(t);
      } else {
        if IsQuote(t[0]) { ScannerAgreesWithReader(t[1..], Some(t[0])); }
        PlainAgrees(t);
      }
    }
  }

  lemma {:induction false} StartsAtNewline(t: string)
    ensures FromNewline(t) != "" ==> FromNewline(t)[0] == '\n'
    ensures Read(InLine, FromNewline(t)) == Read(Code, FromNewline(t))
    decreases |t|
  {
    if t != "" && t[0] != '\n' {
      StartsAtNewline(t[1..]);
    }
  }

  lemma SlashIsHeldBack(t: string)
    requires t == "" || (t[0] != '/' && t[0] != '*')
    ensures Read(Slash, t) == "/" + Read(Code, t)
  {
  }

  // ---- no comment survives -------------------------------------------------------------------

  /** Reading the text never enters a comment. */
  predicate HasNoComment(mode: Mode, t: string)
    decreases |t|
  {
    mode != InLine && mode != InBlock && mode != InBlockStar && (t == "" || HasNoComment(Next(mode, t[0]).1, t[1..]))
  }

  function Held(mode: Mode): string {
    if mode == Slash then "/" else ""
  }

  predicate InComment(mode: Mode) {
    mode == InLine || mode == InBlock || mode == InBlockStar
  }

  /** Reading adds nothing, and loses something as soon as there is a comment. */
  lemma {:induction false} ReadShrinks(mode: Mode, t: string)
    ensures |Read(mode, t)| <= |Held(mode)| + |t|
    ensures HasNoComment(mode, t) ==> Read(mode, t) == Held(mode) + t
    ensures !HasNoComment(mode, t) && !InComment(mode) ==> |Read(mode, t)| < |Held(mode)| + |t|
    decreases |t|
  {
    if t != "" {
      ReadShrinks(Next(mode, t[0]).1, t[1..]);
      assert t == [t[0]] + t[1..];
      hide Read, HasNoComment;
      ReadUnfolds(mode, t);
    }
  }

  /** Stripping leaves a text alone exactly when no comment starts outside its quotes. */
  lemma UnchangedExactlyWhen(t: string)
    ensures Strip(t, None) == t <==> HasNoComment(Code, t)
  {
    ScannerAgreesWithReader(t, None);
    ReadShrinks(Code, t);
  }

  /** The mode in which the output of a reader has to be read. */
  function OutputMode(mode: Mode): Mode {
    if InComment(mode) || mode == Slash then Code else mode
  }

  lemma NoCommentUnfolds(mode: Mode, c: char, rest: string)
    ensures HasNoComment(mode, [c] + rest) <==> !InComment(mode) && HasNoComment(Next(mode, c).1, rest)
  {
    assert ([c] + rest)[1..] == rest;
  }

  /** What is put out holds no comment, read from the mode the reader was in. */
  lemma {:induction false} OutputHasNoComment(mode: Mode, t: string)
    ensures HasNoComment(OutputMode(mode), Read(mode, t))
    decreases |t|, if mode == Slash then 1 else 0
  {
    if t == "" {
      assert "/"[1..] == "";
    } else {
      var (out, next) := Next(mode, t[0]);
      OutputHasNoComment(next, t[1..]);
      ReadUnfolds(mode, t);
      hide Read, HasNoComment;
      if mode == Slash && t[0] != '/' && t[0] != '*' {
        OutputHasNoComment(Code, t);
        SlashIsHeldBack(t);
        SlashBefore(Read(Code, t), t);
      } else if out != "" {
        NoCommentUnfolds(OutputMode(mode), t[0], Read(next, t[1..]));
      } else {
        assert "" + Read(next, t[1..]) == Read(next, t[1..]);
      }
    }
  }

  lemma SlashBefore(s: string, t: string)
    requires t != "" && t[0] != '/' && t[0] != '*' && s == Read(Code, t) && HasNoComment(Code, s)
    ensures HasNoComment(Code, "/" + s)
  {
    assert s != "" && s[0] == t[0];
    assert ("/" + s)[1..] == s;
  }

  /** Stripping twice is stripping once. */
  lemma StripIsIdempotent(t: string)
    ensures Strip(Strip(t, None), None) == Strip(t, None)
  {
    ScannerAgreesWithReader(t, None);
    OutputHasNoComment(Code, t);
    UnchangedExactlyWhen(Strip(t, None));
    hide Read, Strip, HasNoComment;
  }

  // ---- comments make no difference -----------------------------------------------------------

  /** What a prefix has put out once its mode is settled; a held-back slash is still to come. */
  function Emitted(mode: Mode, t: string): string
    decreases |t|
  {
    if t == "" then "" else var (out, next) := Next(mode, t[0]); out + Emitted(next, t[1..])
  }

  lemma {:induction false} ReadInParts(mode: Mode, a: string, b: string)
    ensures Read(mode, a + b) == Emitted(mode, a) + Read(ModeAfter(mode, a), b)
    decreases |a|
  {
    if a == "" {
      assert a + b == b;
    } else {
      assert (a + b)[0] == a[0] && (a + b)[1..] == a[1..] + b;
      ReadInParts(Next(mode, a[0]).1, a[1..], b);
    }
  }

  /** The text of a comment that would end before its end. */
  predicate ClosesEarly(c: string) {
    |c| >= 2 && ((c[0] == '*' && c[1] == '/') || ClosesEarly(c[1..]))
  }

  /** A block comment read from its first character on puts nothing out and ends in code. */
  lemma {:induction false} BlockIsSkipped(c: string, mode: Mode)
    requires !ClosesEarly(c) && (mode == InBlock || (mode == InBlockStar && (c == "" || c[0] != '/')))
    ensures Emitted(mode, c + "*/") == "" && ModeAfter(mode, c + "*/") == Code
    decreases |c|
  {
    var t := c + "*/";
    if c == "" {
      assert t == "*/" && t[1..] == "/" && "/"[1..] == "";
      assert ModeAfter(InBlockStar, "/") == Code && Emitted(InBlockStar, "/") == "";
    } else {
      assert t[0] == c[0] && t[1..] == c[1..] + "*/";
      BlockIsSkipped(c[1..], Next(mode, c[0]).1);
    }
  }

  lemma CommentIsSkipped(c: string)
    requires !ClosesEarly(c)
    ensures Emitted(Code, "/*" + c + "*/") == "" && ModeAfter(Code, "/*" + c + "*/") == Code
  {
    var t := "/*" + c + "*/";
    assert t[0] == '/' && t[1..] == "*" + c + "*/";
    assert t[1..][0] == '*' && t[1..][1..] == c + "*/";
    BlockIsSkipped(c, InBlock);
  }

  /** A closed block comment at a code position leaves the output as it was. */
  lemma BlockCommentMakesNoDifference(a: string, c: string, b: string)
    requires ModeAfter(Code, a) == Code && !ClosesEarly(c)
    ensures Strip(a + ("/*" + c + "*/") + b, None) == Strip(a + b, None)
    ensures CommentOnly(a + b, a + ("/*" + c + "*/") + b)
  {
    var comment := "/*" + c + "*/";
    ScannerAgreesWithReader(a + comment + b, None);
    ScannerAgreesWithReader(a + b, None);
    ReadInParts(Code, a, b);
    assert a + comment + b == a + (comment + b);
    ReadInParts(Code, a, comment + b);
    CommentIsSkipped(c);
    ReadInParts(Code, comment, b);
    hide Read, Strip, Emitted, ModeAfter, ClosesEarly;
  }

  lemma {:induction false} LineIsSkipped(c: string)
    requires !Text.HasNewline(c)
    ensures Emitted(InLine, c) == "" && ModeAfter(InLine, c) == InLine
    decreases |c|
  {
    if c != "" {
      assert c[0] in c;
      LineIsSkipped(c[1..]);
    }
  }

  lemma LineCommentIsSkipped(c: string)
    requires !Text.HasNewline(c)
    ensures Emitted(Code, "//" + c) == "" && ModeAfter(Code, "//" + c) == InLine
  {
    var comment := "//" + c;
    LineIsSkipped(c);
    assert comment[0] == '/' && comment[1..] == "/" + c && comment[1..][0] == '/' && comment[1..][1..] == c;
  }

  /** A line comment at a code position, up to the newline or the end, leaves the output as it was. */
  lemma LineCommentMakesNoDifference(a: string, c: string, b: string)
    requires ModeAfter(Code, a) == Code && !Text.HasNewline(c) && (b == "" || b[0] == '\n')
    ensures Strip(a + ("//" + c) + b, None) == Strip(a + b, None)
  {
    assert Read(InLine, b) == Read(Code, b);
    hide Read, Strip, Emitted, ModeAfter;
    var comment := "//" + c;
    ScannerAgreesWithReader(a + comment + b, None);
    ScannerAgreesWithReader(a + b, None);
    ReadInParts(Code, a, b);
    assert a + comment + b == a + (comment + b);
    ReadInParts(Code, a, comment + b);
    LineCommentIsSkipped(c);
    ReadInParts(Code, comment, b);
  }

  /** A place outside quotes and comments: in code, or right after a slash that may yet start a comment. */
  predicate IsCodePosition(a: string) {
    ModeAfter(Code, a) == Code || ModeAfter(Code, a) == Slash
  }

  lemma InLineIsNoSlash(t: string)
    ensures Read(InLine, t) != "/"
  {
    ReadInLine(t);
    StartsAtNewline(t);
    var rest := FromNewline(t);
    if rest != "" {
      assert Read(InLine, rest) == [rest[0]] + Read(Code, rest[1..]);
      assert Read(InLine, rest)[0] == '\n';
    }
  }

  /** After a slash, a comment mark begins a line comment, and the slash itself is lost with it. */
  lemma SlashIsLost(a: string, t: string)
    requires ModeAfter(Code, a) == Slash && t != "" && t[0] == '/'
    ensures Strip(a + t + "", None) != Strip(a + "", None)
  {
    assert a + t + "" == a + t && a + "" == a;
    ScannerAgreesWithReader(a + t, None);
    ScannerAgreesWithReader(a, None);
    ReadInParts(Code, a, t);
    ReadInParts(Code, a, "");
    assert Read(Slash, t) == Read(InLine, t[1..]) && Read(Slash, "") == "/";
    InLineIsNoSlash(t[1..]);
    hide Read, Strip, Emitted, ModeAfter;
    var start := Emitted(Code, a);
    assert (start + Read(Slash, t))[|start|..] == Read(Slash, t) && (start + "/")[|start|..] == "/";
  }

  /** At a code position a closed block comment is harmless, whatever follows, exactly when no slash is pending. */
  lemma BlockCommentIsHarmlessExactlyWhen(a: string, c: string)
    requires IsCodePosition(a) && !ClosesEarly(c)
    ensures (forall b :: Strip(a + ("/*" + c + "*/") + b, None) == Strip(a + b, None)) <==> ModeAfter(Code, a) == Code
  {
    hide Strip, ModeAfter, ClosesEarly;
    if ModeAfter(Code, a) == Code {
      forall b
        ensures Strip(a + ("/*" + c + "*/") + b, None) == Strip(a + b, None)
      {
        BlockCommentMakesNoDifference(a, c, b);
      }
    } else {
      SlashIsLost(a, "/*" + c + "*/");
    }
  }

  /** The same for a line comment, whatever follows from the newline on. */
  lemma LineCommentIsHarmlessExactlyWhen(a: string, c: string)
    requires IsCodePosition(a) && !Text.HasNewline(c)
    ensures (forall b | b == "" || b[0] == '\n' :: Strip(a + ("//" + c) + b, None) == Strip(a + b, None))
       <==> ModeAfter(Code, a) == Code
  {
    hide Strip, ModeAfter, Text.HasNewline;
    if ModeAfter(Code, a) == Code {
      forall b | b == "" || b[0] == '\n'
        ensures Strip(a + ("//" + c) + b, None) == Strip(a + b, None)
      {
        LineCommentMakesNoDifference(a, c, b);
      }
    } else {
      SlashIsLost(a, "//" + c);
    }
  }

  /** After a slash the same insertion can swallow code: `x/` and ` y` lose everything from the slash on. */
  lemma CommentAfterASlash()
    ensures ModeAfter(Code, "x/") == Slash && !ClosesEarly("")
    ensures Strip("x/" + ("/*" + "" + "*/") + " y", None) == "x"
    ensures Strip("x/" + " y", None) == "x/ y"
  {
    var t := "x/" + ("/*" + "" + "*/") + " y";
    assert t == "x//**/ y";
    assert "x//**/ y"[1..] == "//**/ y" && "//**/ y"[2..] == "**/ y";
    NoNewlineLeft("**/ y");
    assert "x/" + " y" == "x/ y";
    assert "x/ y"[1..] == "/ y" && "/ y"[1..] == " y" && " y"[1..] == "y" && "y"[1..] == "";
    assert Strip("y", None) == "y" && Strip(" y", None) == " y" && Strip("/ y", None) == "/ y";
    assert "x/"[1..] == "/" && "/"[1..] == "";
  }

  lemma {:induction false} NoNewlineLeft(t: string)
    requires forall i | 0 <= i < |t| :: t[i] != '\n'
    ensures FromNewline(t) == ""
    decreases |t|
  {
    if t != "" {
      NoNewlineLeft(t[1..]);
    }
  }
}
