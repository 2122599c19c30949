/** The text level of an SSH config file: lines, words, and one directive. */
module SshText {
  import opened Common
  import Decimal

  // -------------------------------------------------------------------------- characters

  /** `str.isspace`, also `\s` */
  predicate IsSpace(c: char) {
    var n := c as int;
    || 9 <= n <= 13 || 28 <= n <= 32 || n == 0x85 || n == 0xA0 || n == 0x1680 || 0x2000 <= n <= 0x200A
    || n == 0x2028 || n == 0x2029 || n == 0x202F || n == 0x205F || n == 0x3000
  }

  /** The line boundaries of `str.splitlines`. */
  predicate IsBreak(c: char) {
    var n := c as int;
    10 <= n <= 13 || 28 <= n <= 30 || n == 0x85 || n == 0x2028 || n == 0x2029
  }

  /** Word separators of `shlex`. */
  predicate IsBlank(c: char) {
    c == ' ' || c == '\t' || c == '\r' || c == '\n'
  }

  predicate IsSpecial(c: char) {
    IsBlank(c) || c == '#' || c == '\\' || c == '\'' || c == '"'
  }

  /** A word that `shlex` leaves alone. */
  predicate Plain(text: string) {
    forall i :: 0 <= i < |text| ==> !IsSpecial(text[i])
  }

  predicate NoBreaks(text: string) {
    forall i :: 0 <= i < |text| ==> !IsBreak(text[i])
  }

  function StripLeft(text: string): string {
    if text != "" && IsSpace(text[0]) then StripLeft(text[1..]) else text
  }

  function StripRight(text: string): string {
    if text != "" && IsSpace(text[|text| - 1]) then StripRight(text[..|text| - 1]) else text
  }

  function Strip(text: string): string {
    StripRight(StripLeft(text))
  }

  function LowerChar(c: char): char {
    if 'A' <= c <= 'Z' then (c as int + 32) as char else c
  }

  function Lower(text: string): string {
    seq(|text|, i requires 0 <= i < |text| => LowerChar(text[i]))
  }

  // ------------------------------------------------------------------------------- lines

  function BreakAt(text: string): (n: nat)
    ensures n <= |text| && NoBreaks(text[..n]) && (n < |text| ==> IsBreak(text[n]))
  {
    if text == "" || IsBreak(text[0]) then 0 else
      var n := 1 + BreakAt(text[1..]);
      assert forall i :: 0 < i < n ==> text[..n][i] == text[1..][..n - 1][i - 1];
      n
  }

  /** The length of the line boundary at `n`; a carriage return and a newline are one. */
  function BreakLength(text: string, n: nat): (k: nat)
    requires n <= |text|
    ensures n + k <= |text|
  {
    if n == |text| then 0
    else if text[n] == '\r' && n + 1 < |text| && text[n + 1] == '\n' then 2
    else 1
  }

  /** What follows the first line and its boundary. */
  function AfterLine(text: string): (rest: string)
    ensures text != "" ==> |rest| < |text|
  {
    text[BreakAt(text) + BreakLength(text, BreakAt(text))..]
  }

  /** `str.splitlines`, which universal newlines do not change. */
  function Lines(text: string): seq<string> {
    if text == "" then [] else [text[..BreakAt(text)]] + Lines(AfterLine(text))
  }

  lemma BreakAtAppend(a: string, b: string)
    ensures BreakAt(a) < |a| ==> BreakAt(a + b) == BreakAt(a)
    ensures BreakAt(a) == |a| ==> BreakAt(a + b) == |a| + BreakAt(b)
  {
    if a == "" {
      assert a + b == b;
    } else if !IsBreak(a[0]) {
      assert (a + b)[1..] == a[1..] + b;
      BreakAtAppend(a[1..], b);
    }
  }

  /** A text that ends a line, followed by one that does not continue its boundary. */
  predicate CleanCut(a: string, b: string) {
    && (a != "" ==> IsBreak(a[|a| - 1]))
    && !(a != "" && b != "" && a[|a| - 1] == '\r' && b[0] == '\n')
  }

  lemma CutAppend(a: string, b: string, n: nat)
    requires n <= |a|
    ensures (a + b)[n..] == a[n..] + b && (a + b)[..n] == a[..n]
  {
  }

  lemma CutInside(a: string)
    requires a != "" && IsBreak(a[|a| - 1])
    ensures BreakAt(a) < |a|
  {
    assert a[..|a|] == a;
  }

  /** The first line of `a` is the first line of `a + b`. */
  lemma CutStep(a: string, b: string)
    requires CleanCut(a, b) && a != ""
    ensures BreakAt(a) < |a| && BreakAt(a + b) == BreakAt(a) && (a + b)[..BreakAt(a)] == a[..BreakAt(a)]
    ensures AfterLine(a + b) == AfterLine(a) + b && CleanCut(AfterLine(a), b)
  {
    CutInside(a);
    BreakAtAppend(a, b);
    var n := BreakAt(a);
    var k := BreakLength(a, n);
    assert BreakLength(a + b, n) == k;
    CutAppend(a, b, n);
    CutAppend(a, b, n + k);
  }

  lemma {:induction false} LinesAppend(a: string, b: string)
    requires CleanCut(a, b)
    ensures Lines(a + b) == Lines(a) + Lines(b)
  {
    if a == "" {
      assert a + b == b;
      assert [] + Lines(b) == Lines(b);
    } else {
      CutStep(a, b);
      LinesAppend(AfterLine(a), b);
      ConsAppend(a[..BreakAt(a)], Lines(AfterLine(a)), Lines(b));
      LinesStep(a);
      LinesStep(a + b);
    }
  }

  lemma LinesStep(text: string)
    requires text != ""
    ensures Lines(text) == [text[..BreakAt(text)]] + Lines(AfterLine(text))
  {
  }

  lemma ConsAppend(first: string, rest: seq<string>, more: seq<string>)
    ensures [first] + (rest + more) == ([first] + rest) + more
  {
  }

  lemma {:induction false} NoBreakAt(line: string)
    requires NoBreaks(line)
    ensures BreakAt(line) == |line|
  {
    if line != "" {
      NoBreakAt(line[1..]);
    }
  }

  lemma LineFirst(line: string, rest: string)
    requires NoBreaks(line)
    ensures Lines(line + "\n" + rest) == [line] + Lines(rest)
  {
    var text := line + "\n" + rest;
    NoBreakAt(line);
    BreakAtAppend(line, "\n" + rest);
    assert text == line + ("\n" + rest);
    assert ("\n" + rest)[0] == '\n';
    assert BreakAt(text) == |line| && text[|line|] == '\n';
    assert text[|line| + 1..] == rest && text[..|line|] == line;
  }

  // ------------------------------------------------------------------------ shell words

  datatype Mode = Between | Word | Quote(mark: char) | Escape(quoted: bool)

  function Emit(token: string, quoted: bool, rest: Option<seq<string>>): Option<seq<string>> {
    if rest.None? || (token == "" && !quoted) then rest else Some([token] + rest.value)
  }

  /** `shlex` over one line in POSIX mode with comments; None stands for its ValueError. */
  function Tokens(text: string, mode: Mode, token: string, quoted: bool): Option<seq<string>>
    decreases |text|
  {
    if text == "" then
      if mode.Quote? || mode.Escape? then None else Emit(token, quoted, Some([]))
    else
      var c, rest := text[0], text[1..];
      match mode
      case Between =>
        if IsBlank(c) then Tokens(rest, Between, "", false)
        else if c == '#' then Some([])
        else if c == '\\' then Tokens(rest, Escape(false), "", false)
        else if c == '\'' || c == '"' then Tokens(rest, Quote(c), "", true)
        else Tokens(rest, Word, [c], false)
      case Word =>
        if IsBlank(c) then Emit(token, quoted, Tokens(rest, Between, "", false))
        else if c == '#' then Emit(token, quoted, Some([]))
        else if c == '\\' then Tokens(rest, Escape(false), token, quoted)
        else if c == '\'' || c == '"' then Tokens(rest, Quote(c), token, true)
        else Tokens(rest, Word, token + [c], quoted)
      case Quote(mark) =>
        if c == mark then Tokens(rest, Word, token, true)
        else if c == '\\' && mark == '"' then Tokens(rest, Escape(true), token, true)
        else Tokens(rest, mode, token + [c], true)
      case Escape(inside) =>
        if inside then Tokens(rest, Quote('"'), token + (if c != '\\' && c != '"' then "\\" else "") + [c], true)
        else Tokens(rest, Word, token + [c], quoted)
  }

  /** `shlex.split(text, comments=True)` */
  function Split(text: string): Option<seq<string>> {
    Tokens(text, Between, "", false)
  }

  lemma {:induction false} WordOfPlain(text: string, token: string)
    requires Plain(text) && token != ""
    ensures Tokens(text, Word, token, false) == Some([token + text])
  {
    if text == "" {
      assert token + text == token && [token] + [] == [token];
    } else {
      WordOfPlain(text[1..], token + [text[0]]);
      assert token + [text[0]] + text[1..] == token + text;
    }
  }

  lemma SplitPlain(text: string)
    requires Plain(text) && text != ""
    ensures Split(text) == Some([text])
  {
    WordOfPlain(text[1..], [text[0]]);
    assert [text[0]] + text[1..] == text;
  }

  /** Characters are never made up: what the first word may hold at most, by mode. */
  function Room(text: string, mode: Mode, token: string): int {
    match mode
    case Between => |text|
    case Word => |token| + |text|
    case Quote(_) => |token| + |text| - 1
    case Escape(_) => |token| + |text|
  }

  lemma {:induction false} FirstWordBound(text: string, mode: Mode, token: string, quoted: bool)
    requires mode.Between? ==> token == "" && !quoted
    requires mode.Word? ==> token != "" || quoted
    requires mode.Quote? ==> quoted
    requires mode == Escape(true) ==> quoted
    ensures var ts := Tokens(text, mode, token, quoted);
            ts.Some? && ts.value != [] ==>
              && |ts.value[0]| <= Room(text, mode, token)
              && ((mode.Between? || mode.Word?) && !Plain(text) ==> |ts.value[0]| < Room(text, mode, token))
    decreases |text|
  {
    if text != "" {
      var c, rest := text[0], text[1..];
      assert Plain(text) <==> !IsSpecial(c) && Plain(rest);
      match mode
      case Between => FirstFromBetween(text);
      case Word =>
        if c == '\\' {
          FirstWordBound(rest, Escape(false), token, quoted);
        } else if c == '\'' || c == '"' {
          FirstWordBound(rest, Quote(c), token, true);
        } else if !IsSpecial(c) {
          FirstWordBound(rest, Word, token + [c], quoted);
        }
      case Quote(mark) =>
        if c == mark {
          FirstWordBound(rest, Word, token, true);
        } else if c == '\\' && mark == '"' {
          FirstWordBound(rest, Escape(true), token, true);
        } else {
          FirstWordBound(rest, mode, token + [c], true);
        }
      case Escape(inside) =>
        if inside {
          FirstWordBound(rest, Quote('"'), token + (if c != '\\' && c != '"' then "\\" else "") + [c], true);
        } else {
          FirstWordBound(rest, Word, token + [c], quoted);
        }
    }
  }

  lemma {:induction false} FirstFromBetween(text: string)
    requires text != ""
    ensures var ts := Tokens(text, Between, "", false);
            ts.Some? && ts.value != [] ==> |ts.value[0]| <= |text| && (!Plain(text) ==> |ts.value[0]| < |text|)
    decreases |text|, 0
  {
    var c, rest := text[0], text[1..];
    assert Plain(text) <==> !IsSpecial(c) && Plain(rest);
    if IsBlank(c) {
      FirstWordBound(rest, Between, "", false);
    } else if c == '\\' {
      FirstWordBound(rest, Escape(false), "", false);
    } else if c == '\'' || c == '"' {
      FirstWordBound(rest, Quote(c), "", true);
    } else if c != '#' {
      FirstWordBound(rest, Word, [c], false);
    }
  }

  /** The first word of a value, None when it cannot be split or is empty. */
  function FirstWord(text: string): Option<string> {
    match Split(text)
    case Some(words) => if words == [] then None else Some(words[0])
    case None => None
  }

  /** A value reads back as its own first word exactly when it has no blank, quote, backslash
      or comment mark. */
  lemma FirstWordIff(text: string)
    requires text != ""
    ensures FirstWord(text) == Some(text) <==> Plain(text)
  {
    if Plain(text) {
      SplitPlain(text);
    } else {
      FirstFromBetween(text);
    }
  }

  // --------------------------------------------------------------------- one directive

  datatype Directive = Directive(keyword: string, args: seq<string>)

  /** Where the keyword ends: at the first space or equals sign after its first character. */
  function KeywordEnd(text: string, from: nat): (n: nat)
    requires from <= |text|
    ensures from <= n <= |text|
    decreases |text| - from
  {
    if from == |text| || IsSpace(text[from]) || text[from] == '=' then from else KeywordEnd(text, from + 1)
  }

  /** `_parse_line`. The pattern tries a run of spaces before an equals sign. */
  function ParseLine(line: string): Option<Directive> {
    ParseStripped(Strip(line))
  }

  function ParseStripped(text: string): Option<Directive> {
    if text == "" || text[0] == '#' then None
    else
      var n := KeywordEnd(text, 1);
      if n == |text| then None
      else
        var value := StripLeft(if IsSpace(text[n]) then text[n..] else text[n + 1..]);
        match Split(value)
        case None => None
        case Some(args) => Some(Directive(Lower(text[..n]), args))
  }

  /** A keyword as written in a config file. */
  predicate IsKeyword(text: string) {
    text != "" && text[0] != '#' && forall i :: 0 <= i < |text| ==> !IsSpace(text[i]) && text[i] != '='
  }

  predicate AllSpaces(text: string) {
    forall i :: 0 <= i < |text| ==> IsSpace(text[i])
  }

  /** No space at either end. */
  predicate Stripped(text: string) {
    text == "" || (!IsSpace(text[0]) && !IsSpace(text[|text| - 1]))
  }

  lemma {:induction false} KeywordEndsAt(text: string, from: nat, n: nat)
    requires from <= n <= |text|
    requires forall i :: from <= i < n ==> !IsSpace(text[i]) && text[i] != '='
    requires n < |text| ==> IsSpace(text[n]) || text[n] == '='
    ensures KeywordEnd(text, from) == n
    decreases n - from
  {
    if from < n {
      KeywordEndsAt(text, from + 1, n);
    }
  }

  lemma {:induction false} StripLeftSpaces(spaces: string, text: string)
    requires AllSpaces(spaces) && (text == "" || !IsSpace(text[0]))
    ensures StripLeft(spaces + text) == text
  {
    if spaces == "" {
      assert spaces + text == text;
    } else {
      assert (spaces + text)[1..] == spaces[1..] + text;
      StripLeftSpaces(spaces[1..], text);
    }
  }

  /** The words of a value, as the arguments of a keyword. */
  function WithArgs(keyword: string, value: string): Option<Directive> {
    match Split(value)
    case None => None
    case Some(args) => Some(Directive(Lower(keyword), args))
  }

  /** Where the keyword of a line ends, and what is on either side. */
  lemma KeywordCut(keyword: string, rest: string)
    requires IsKeyword(keyword) && rest != "" && (IsSpace(rest[0]) || rest[0] == '=')
    ensures var text := keyword + rest;
            && KeywordEnd(text, 1) == |keyword| && text[..|keyword|] == keyword && text[|keyword|..] == rest
            && text[|keyword|] == rest[0] && text[|keyword| + 1..] == rest[1..] && text[0] == keyword[0]
  {
    var text := keyword + rest;
    assert text[|keyword|] == rest[0];
    KeywordEndsAt(text, 1, |keyword|);
  }

  /** A keyword, then something that begins with a space or an equals sign. */
  lemma ParseKeyword(keyword: string, rest: string)
    requires IsKeyword(keyword) && rest != "" && (IsSpace(rest[0]) || rest[0] == '=') && !IsSpace(rest[|rest| - 1])
    ensures ParseStripped(keyword + rest) == WithArgs(keyword, StripLeft(if IsSpace(rest[0]) then rest else rest[1..]))
    ensures Stripped(keyword + rest)
  {
    KeywordCut(keyword, rest);
    assert (keyword + rest)[|keyword + rest| - 1] == rest[|rest| - 1];
  }

  lemma StripOfStripped(text: string)
    requires Stripped(text)
    ensures Strip(text) == text
  {
  }

  lemma StripIndented(indent: string, text: string)
    requires AllSpaces(indent) && Stripped(text)
    ensures Strip(indent + text) == text
  {
    StripLeftSpaces(indent, text);
  }

  /** An indented `Keyword value` line, for any value. */
  lemma ParseSpaced(indent: string, keyword: string, value: string)
    requires AllSpaces(indent) && IsKeyword(keyword) && value != "" && Stripped(value)
    ensures ParseLine(indent + (keyword + (" " + value))) == WithArgs(keyword, value)
  {
    var rest := " " + value;
    assert rest[0] == ' ' && rest[|rest| - 1] == value[|value| - 1];
    ParseIndented(indent, keyword, rest);
    StripLeftSpaces(" ", value);
  }

  lemma ParseIndented(indent: string, keyword: string, rest: string)
    requires AllSpaces(indent)
    requires IsKeyword(keyword) && rest != "" && (IsSpace(rest[0]) || rest[0] == '=') && !IsSpace(rest[|rest| - 1])
    ensures ParseLine(indent + (keyword + rest)) ==
            WithArgs(keyword, StripLeft(if IsSpace(rest[0]) then rest else rest[1..]))
  {
    ParseKeyword(keyword, rest);
    StripIndented(indent, keyword + rest);
  }

  lemma {:induction false} StripRightSpaces(text: string, spaces: string)
    requires AllSpaces(spaces) && (text == "" || !IsSpace(text[|text| - 1]))
    ensures StripRight(text + spaces) == text
  {
    if spaces == "" {
      assert text + spaces == text;
    } else {
      var all := text + spaces;
      assert all[|all| - 1] == spaces[|spaces| - 1] && all[..|all| - 1] == text + spaces[..|spaces| - 1];
      StripRightSpaces(text, spaces[..|spaces| - 1]);
    }
  }

  lemma StripBoth(indent: string, text: string, trail: string)
    requires AllSpaces(indent) && AllSpaces(trail) && text != "" && Stripped(text)
    ensures Strip(indent + (text + trail)) == text
  {
    assert (text + trail)[0] == text[0];
    StripLeftSpaces(indent, text + trail);
    StripRightSpaces(text, trail);
  }

  /** A word under way is never taken back. */
  lemma {:induction false} WordGrows(text: string, mode: Mode, token: string, quoted: bool)
    requires !mode.Between? && token != ""
    ensures var ts := Tokens(text, mode, token, quoted); ts.Some? ==> ts.value != [] && token <= ts.value[0]
    decreases |text|
  {
    if text != "" {
      var c, rest := text[0], text[1..];
      match mode
      case Word =>
        if c == '\\' {
          WordGrows(rest, Escape(false), token, quoted);
        } else if c == '\'' || c == '"' {
          WordGrows(rest, Quote(c), token, true);
        } else if !IsSpecial(c) {
          WordGrows(rest, Word, token + [c], quoted);
        }
      case Quote(mark) =>
        if c == mark {
          WordGrows(rest, Word, token, true);
        } else if c == '\\' && mark == '"' {
          WordGrows(rest, Escape(true), token, true);
        } else {
          WordGrows(rest, mode, token + [c], true);
        }
      case Escape(inside) =>
        if inside {
          WordGrows(rest, Quote('"'), token + (if c != '\\' && c != '"' then "\\" else "") + [c], true);
        } else {
          WordGrows(rest, Word, token + [c], quoted);
        }
    }
  }

  lemma SignEnds(rest: string)
    requires rest == "" || !IsSpace(rest[|rest| - 1])
    ensures ("=" + rest)[0] == '=' && ("=" + rest)[1..] == rest && !IsSpace(("=" + rest)[|"=" + rest| - 1])
  {
    if rest != "" {
      assert ("=" + rest)[|rest|] == rest[|rest| - 1];
    }
  }

  /** A space before the sign: it belongs to the value. */
  lemma ParseSpacedSign(keyword: string, before: string, rest: string)
    requires IsKeyword(keyword) && AllSpaces(before) && before != "" && (rest == "" || !IsSpace(rest[|rest| - 1]))
    ensures ParseStripped(keyword + (before + ("=" + rest))) == WithArgs(keyword, "=" + rest)
    ensures Stripped(keyword + (before + ("=" + rest)))
  {
    SignEnds(rest);
    var tail := before + ("=" + rest);
    assert tail[0] == before[0] && tail[|tail| - 1] == ("=" + rest)[|"=" + rest| - 1];
    ParseKeyword(keyword, tail);
    StripLeftSpaces(before, "=" + rest);
  }

  lemma SignStartsWord(rest: string)
    ensures var words := Split("=" + rest); words.Some? ==> words.value != [] && "=" <= words.value[0]
  {
    assert ("=" + rest)[1..] == rest;
    WordGrows(rest, Word, "=", false);
  }

  /** Every line with a keyword, perhaps spaces, and an equals sign: with no space before it the
      sign is a separator and the words of the rest are the arguments; with any space before it
      the first argument begins with the sign, whatever follows. The source's comment calls
      `Keyword = value` valid, but the sign becomes the value. */
  lemma ParseEquals(indent: string, keyword: string, before: string, rest: string, trail: string)
    requires AllSpaces(indent) && IsKeyword(keyword) && AllSpaces(before) && AllSpaces(trail)
    requires rest == "" || !IsSpace(rest[|rest| - 1])
    ensures var parsed := ParseLine(indent + ((keyword + (before + ("=" + rest))) + trail));
            if before == "" then parsed == WithArgs(keyword, StripLeft(rest))
            else parsed == WithArgs(keyword, "=" + rest)
                 && (parsed.Some? ==> parsed.value.args != [] && "=" <= parsed.value.args[0])
  {
    var text := keyword + (before + ("=" + rest));
    if before == "" {
      assert before + ("=" + rest) == "=" + rest;
      SignEnds(rest);
      ParseKeyword(keyword, "=" + rest);
    } else {
      ParseSpacedSign(keyword, before, rest);
      SignStartsWord(rest);
    }
    StripBoth(indent, text, trail);
  }

  // ---------------------------------------------------------------------------- integers

  /** Digits with single underscores between them. */
  predicate IsNumeral(text: string) {
    && text != "" && Decimal.IsDigit(text[0]) && Decimal.IsDigit(text[|text| - 1])
    && (forall i :: 0 <= i < |text| ==> Decimal.IsDigit(text[i]) || text[i] == '_')
    && (forall i :: 0 < i < |text| && text[i] == '_' ==> text[i - 1] != '_')
  }

  function Digits(text: string): (digits: string)
    requires forall i :: 0 <= i < |text| ==> Decimal.IsDigit(text[i]) || text[i] == '_'
    ensures forall i :: 0 <= i < |digits| ==> Decimal.IsDigit(digits[i])
  {
    if text == "" then "" else (if text[0] == '_' then "" else [text[0]]) + Digits(text[1..])
  }

  /** `int(text)` over ASCII; None stands for its ValueError. */
  function IntOf(text: string): Option<int> {
    var t := Strip(text);
    var signed := t != "" && (t[0] == '+' || t[0] == '-');
    var body := if signed then t[1..] else t;
    if !IsNumeral(body) then None
    else
      var n: int := Decimal.Value(Digits(body));
      Some(if signed && t[0] == '-' then -n else n)
  }

  lemma {:induction false} DigitsOnly(text: string)
    requires forall i :: 0 <= i < |text| ==> Decimal.IsDigit(text[i])
    ensures Digits(text) == text
  {
    if text != "" {
      DigitsOnly(text[1..]);
      assert [text[0]] + text[1..] == text;
    }
  }

  lemma DigitIsPlain(c: char)
    requires Decimal.IsDigit(c)
    ensures !IsSpace(c) && !IsSpecial(c) && !IsBreak(c) && c != '+' && c != '-' && c != '_'
  {
  }

  lemma DigitsArePlain(text: string)
    requires Decimal.AllDigits(text)
    ensures Plain(text) && Stripped(text) && NoBreaks(text)
  {
    forall i | 0 <= i < |text| ensures !IsSpace(text[i]) && !IsSpecial(text[i]) && !IsBreak(text[i]) {
      DigitIsPlain(text[i]);
    }
  }

  lemma IntOfRender(n: nat)
    ensures IntOf(Decimal.Render(n)) == Some(n)
  {
    var text := Decimal.Render(n);
    DigitsArePlain(text);
    DigitIsPlain(text[0]);
    StripOfStripped(text);
    DigitsOnly(text);
    Decimal.ValueOfRender(n);
  }
}
