/**
 What an SSH config says, independently of how it is read: the words of a line, the sign of a
 number, which directives belong to which Host entry, and the text an appended entry has.
 */
module SshSections {
  import opened Common
  import opened SshText
  import opened SshConfigReader
  import opened SshAliases
  import opened SshConfigWriter
  import Decimal

  // ------------------------------------------------------------------------------- words

  /** Every word followed by the same blank. */
  function Spaced(words: seq<string>, blank: char): string {
    if words == [] then "" else words[0] + ([blank] + Spaced(words[1..], blank))
  }

  predicate PlainWords(words: seq<string>) {
    forall i :: 0 <= i < |words| ==> words[i] != "" && Plain(words[i])
  }

  /** These words, then those of the rest, if the rest can be split. */
  function Then(words: seq<string>, rest: Option<seq<string>>): Option<seq<string>> {
    if rest.None? then None else Some(words + rest.value)
  }

  lemma {:induction false} WordThen(text: string, blank: char, rest: string, token: string)
    requires Plain(text) && IsBlank(blank) && token != ""
    ensures Tokens(text + ([blank] + rest), Word, token, false) == Then([token + text], Split(rest))
  {
    var all := text + ([blank] + rest);
    if text == "" {
      assert all == [blank] + rest && all[1..] == rest && token + text == token;
    } else {
      assert all[1..] == text[1..] + ([blank] + rest) && all[0] == text[0];
      WordThen(text[1..], blank, rest, token + [text[0]]);
      assert token + [text[0]] + text[1..] == token + text;
    }
  }

  lemma PlainWordThen(word: string, blank: char, rest: string)
    requires word != "" && Plain(word) && IsBlank(blank)
    ensures Split(word + ([blank] + rest)) == Then([word], Split(rest))
  {
    var all := word + ([blank] + rest);
    assert all[0] == word[0] && all[1..] == word[1..] + ([blank] + rest);
    WordThen(word[1..], blank, rest, [word[0]]);
    assert [word[0]] + word[1..] == word;
  }

  /** Words without blanks, quotes, backslashes or comment marks are split at the blanks, and what
      follows them is split as if it stood alone. */
  lemma {:induction false} SplitWords(words: seq<string>, blank: char, rest: string)
    requires PlainWords(words) && IsBlank(blank)
    ensures Split(Spaced(words, blank) + rest) == Then(words, Split(rest))
  {
    if words == [] {
      assert Spaced(words, blank) + rest == rest;
      assert Split(rest).Some? ==> [] + Split(rest).value == Split(rest).value;
    } else {
      SplitWords(words[1..], blank, rest);
      var tail := Spaced(words[1..], blank) + rest;
      assert Spaced(words, blank) + rest == words[0] + ([blank] + tail);
      PlainWordThen(words[0], blank, tail);
      if Split(rest).Some? {
        assert [words[0]] + (words[1..] + Split(rest).value) == words + Split(rest).value;
      }
    }
  }

  /** A comment mark between words hides the rest of the line, quotes included. */
  lemma CommentIsCut(words: seq<string>, blank: char, comment: string)
    requires PlainWords(words) && IsBlank(blank)
    ensures Split(Spaced(words, blank) + ("#" + comment)) == Some(words)
  {
    SplitWords(words, blank, "#" + comment);
    assert Split("#" + comment) == Some([]);
    assert words + [] == words;
  }

  lemma {:induction false} WordThenComment(text: string, comment: string, token: string)
    requires Plain(text) && token != ""
    ensures Tokens(text + ("#" + comment), Word, token, false) == Some([token + text])
  {
    var all := text + ("#" + comment);
    if text == "" {
      assert all == "#" + comment && token + text == token && [token] + [] == [token];
    } else {
      assert all[1..] == text[1..] + ("#" + comment) && all[0] == text[0];
      WordThenComment(text[1..], comment, token + [text[0]]);
      assert token + [text[0]] + text[1..] == token + text;
    }
  }

  /** A comment mark ends a word too, which is not so in a shell. */
  lemma CommentEndsWord(words: seq<string>, blank: char, word: string, comment: string)
    requires PlainWords(words) && IsBlank(blank) && word != "" && Plain(word)
    ensures Split(Spaced(words, blank) + (word + ("#" + comment))) == Some(words + [word])
  {
    var last := word + ("#" + comment);
    SplitWords(words, blank, last);
    assert last[0] == word[0] && last[1..] == word[1..] + ("#" + comment);
    WordThenComment(word[1..], comment, [word[0]]);
    assert [word[0]] + word[1..] == word;
  }

  /** What stands for itself between two such marks. */
  predicate Quotable(text: string, mark: char) {
    forall i :: 0 <= i < |text| ==> text[i] != mark && (mark == '"' ==> text[i] != '\\')
  }

  lemma {:induction false} InQuotes(text: string, mark: char, rest: string, token: string)
    requires Quotable(text, mark)
    ensures Tokens(text + ([mark] + rest), Quote(mark), token, true) == Tokens(rest, Word, token + text, true)
    ensures Tokens(text, Quote(mark), token, true) == None
  {
    var all := text + ([mark] + rest);
    if text == "" {
      assert all == [mark] + rest && all[1..] == rest && token + text == token;
    } else {
      assert all[1..] == text[1..] + ([mark] + rest) && all[0] == text[0];
      InQuotes(text[1..], mark, rest, token + [text[0]]);
      assert token + [text[0]] + text[1..] == token + text;
    }
  }

  /** A quoted text is one word, blanks and comment marks included, even if it is empty; a quote
      that is not closed makes the whole line unreadable. */
  lemma QuotedIsOneWord(text: string, mark: char, blank: char, rest: string)
    requires (mark == '"' || mark == '\'') && Quotable(text, mark) && IsBlank(blank)
    ensures Split([mark] + (text + [mark])) == Some([text])
    ensures Split([mark] + (text + ([mark] + ([blank] + rest)))) == Then([text], Split(rest))
    ensures Split([mark] + text) == None
  {
    var more := [blank] + rest;
    InQuotes(text, mark, "", "");
    InQuotes(text, mark, more, "");
    assert [mark] + "" == [mark] && "" + text == text;
    assert ([mark] + (text + [mark]))[1..] == text + [mark];
    assert ([mark] + (text + ([mark] + more)))[1..] == text + ([mark] + more);
    assert ([mark] + text)[1..] == text;
    assert more[0] == blank && more[1..] == rest;
    assert [text] + [] == [text];
  }

  /** A backslash takes the next character as it is; in double quotes only another backslash or a
      double quote loses it. */
  lemma BackslashTakesOne(c: char, word: string)
    requires Plain(word)
    ensures Split("\\" + ([c] + word)) == Some([[c] + word])
    ensures Split("\"\\" + ([c] + "\"")) == Some([if c == '\\' || c == '"' then [c] else "\\" + [c]])
  {
    var bare := "\\" + ([c] + word);
    assert bare[1..] == [c] + word && ([c] + word)[1..] == word && "" + [c] == [c];
    WordOfPlain(word, [c]);
    assert Tokens([c] + word, Escape(false), "", false) == Tokens(word, Word, [c], false);
    var quoted := "\"\\" + ([c] + "\"");
    assert quoted[1..] == "\\" + ([c] + "\"") && quoted[1..][1..] == [c] + "\"";
    assert ([c] + "\"")[1..] == "\"" && "\""[1..] == "";
    var inner := "" + (if c != '\\' && c != '"' then "\\" else "") + [c];
    assert [inner] + [] == [inner];
    assert Tokens("\"", Quote('"'), inner, true) == Tokens("", Word, inner, true) == Some([inner]);
    assert Tokens([c] + "\"", Escape(true), "", true) == Some([inner]);
    assert inner == if c == '\\' || c == '"' then [c] else "\\" + [c];
    assert Tokens("\\" + ([c] + "\""), Quote('"'), "", true) == Some([inner]);
    assert quoted[0] == '"';
  }

  // ----------------------------------------------------------------------------- numbers

  lemma DigitsAreNumeral(digits: string)
    requires digits != "" && Decimal.AllDigits(digits)
    ensures IsNumeral(digits) && Digits(digits) == digits
    ensures digits[0] != '+' && digits[0] != '-' && Stripped(digits)
  {
    DigitsArePlain(digits);
    DigitIsPlain(digits[0]);
    DigitsOnly(digits);
  }

  /** What a stripped text with this numeral in it is read as. */
  lemma IntOfStripped(text: string, t: string, digits: string, negative: bool)
    requires Strip(text) == t && t != "" && IsNumeral(digits)
    requires if t[0] == '+' || t[0] == '-' then t[1..] == digits else t == digits
    requires negative <==> t[0] == '-'
    ensures IntOf(text) == Some(if negative then 0 - Decimal.Value(Digits(digits)) as int
                                else Decimal.Value(Digits(digits)) as int)
  {
  }

  /** Digits may have a sign and spaces around them. */
  lemma SignedNumber(text: string, before: string, sign: string, digits: string, after: string)
    requires text == before + ((sign + digits) + after) && AllSpaces(before) && AllSpaces(after)
    requires (sign == "" || sign == "+" || sign == "-") && digits != "" && Decimal.AllDigits(digits)
    ensures IntOf(text) == Some(if sign == "-" then 0 - Decimal.Value(digits) as int else Decimal.Value(digits) as int)
  {
    DigitsAreNumeral(digits);
    StripSigned(before, sign, digits, after);
    IntOfStripped(text, sign + digits, digits, sign == "-");
  }

  lemma StripSigned(before: string, sign: string, digits: string, after: string)
    requires AllSpaces(before) && AllSpaces(after) && (sign == "" || sign == "+" || sign == "-")
    requires digits != "" && Stripped(digits)
    ensures Strip(before + ((sign + digits) + after)) == sign + digits
    ensures var t := sign + digits; t != "" && if sign == "" then t == digits else t[0] == sign[0] && t[1..] == digits
  {
    SignCut(sign, digits);
    StripBoth(before, sign + digits, after);
  }

  lemma SignCut(sign: string, digits: string)
    requires (sign == "" || sign == "+" || sign == "-") && digits != "" && Stripped(digits)
    ensures var text := sign + digits;
            && text != "" && Stripped(text)
            && (if sign == "" then text == digits else text[0] == sign[0] && text[1..] == digits)
  {
    var text := sign + digits;
    assert text[|text| - 1] == digits[|digits| - 1];
    if sign == "" {
      assert text == digits;
    } else {
      assert text[0] == sign[0] && text[1..] == digits;
      assert !IsSpace('+') && !IsSpace('-');
    }
  }

  // ---------------------------------------------------------------------------- sections

  predicate HaveArgs(ds: seq<Directive>) {
    forall i :: 0 <= i < |ds| ==> ds[i].args != []
  }

  function First(d: Directive, keyword: string): Option<string> {
    if d.keyword == keyword && d.args != [] then Some(d.args[0]) else None
  }

  function PortIn(d: Directive): Option<int> {
    if d.keyword == "port" && d.args != [] then IntOf(d.args[0]) else None
  }

  /** `field` is what the last of the directives from `h` to `n` says that says anything. */
  ghost predicate LastSays<T(!new)>(ds: seq<Directive>, h: nat, n: nat, of: Directive -> Option<T>, field: Option<T>)
    requires h <= n <= |ds|
  {
    match field
    case Some(_) => exists k :: h <= k < n && of(ds[k]) == field && forall j :: k < j < n ==> of(ds[j]).None?
    case None => forall k :: h <= k < n ==> of(ds[k]).None?
  }

  /** The block is what the directives from the Host line `h` up to `n` make of it. */
  ghost predicate IsSection(block: Block, ds: seq<Directive>, h: nat, n: nat)
    requires h < n <= |ds|
  {
    && block.patterns == ds[h].args
    && LastSays(ds, h + 1, n, (d: Directive) => First(d, "hostname"), block.hostname)
    && LastSays(ds, h + 1, n, PortIn, block.port)
    && LastSays(ds, h + 1, n, (d: Directive) => First(d, "user"), block.user)
  }

  lemma OneSaysMore<T(!new)>(ds: seq<Directive>, h: nat, n: nat, of: Directive -> Option<T>, field: Option<T>)
    requires h <= n < |ds| && LastSays(ds, h, n, of, field)
    ensures LastSays(ds, h, n + 1, of, if of(ds[n]).Some? then of(ds[n]) else field)
  {
    if of(ds[n]).None? && field.Some? {
      var k :| h <= k < n && of(ds[k]) == field && forall j :: k < j < n ==> of(ds[j]).None?;
      assert h <= k < n + 1;
    }
  }

  predicate Counts(keyword: string) {
    keyword == "hostname" || keyword == "port" || keyword == "user"
  }

  lemma CountedAreNoCredentials(keyword: string)
    requires Counts(keyword)
    ensures !IsCredential(keyword)
  {
    assert "identityfile"[0] == 'i' && "certificatefile"[0] == 'c' && "identityagent"[0] == 'i';
    assert "password"[0] == 'p' && "password"[1] == 'a';
    assert keyword[0] == 'h' || keyword[0] == 'u' || (keyword[0] == 'p' && keyword[1] == 'o');
  }

  /** One directive of a section: keywords other than the three, credentials too, change nothing. */
  lemma SectionGrows(block: Block, ds: seq<Directive>, h: nat, n: nat)
    requires h < n < |ds| && HaveArgs(ds) && IsSection(block, ds, h, n)
    ensures IsSection(Apply(block, ds[n]), ds, h, n + 1)
  {
    if Counts(ds[n].keyword) {
      CountedAreNoCredentials(ds[n].keyword);
      OneSaysMore(ds, h + 1, n, (d: Directive) => First(d, "hostname"), block.hostname);
      OneSaysMore(ds, h + 1, n, PortIn, block.port);
      OneSaysMore(ds, h + 1, n, (d: Directive) => First(d, "user"), block.user);
    } else {
      SectionSkips(block, ds, h, n);
    }
  }

  lemma SectionSkips(block: Block, ds: seq<Directive>, h: nat, n: nat)
    requires h < n < |ds| && IsSection(block, ds, h, n)
    requires !Counts(ds[n].keyword)
    ensures IsSection(block, ds, h, n + 1)
  {
    OneSaysMore(ds, h + 1, n, (d: Directive) => First(d, "hostname"), block.hostname);
    OneSaysMore(ds, h + 1, n, PortIn, block.port);
    OneSaysMore(ds, h + 1, n, (d: Directive) => First(d, "user"), block.user);
  }

  /** `h` is the last Host line before `n`. */
  predicate LastHost(ds: seq<Directive>, h: nat, n: nat) {
    h < n <= |ds| && ds[h].keyword == "host" && forall j :: h < j < n ==> ds[j].keyword != "host"
  }

  lemma {:induction false} FilesExtend(fs: Files, paths: seq<Path>, s: Scan)
    requires ScanValid(s)
    ensures s.blocks <= ReadFiles(fs, paths, s).blocks
    decreases |paths|
  {
    if paths != [] {
      var first := ReadFile(fs, paths[0], s);
      FilesExtend(fs, paths[1..], first);
    }
  }

  /** The scan of a file after its first `n` directives. */
  function After(fs: Files, path: Path, ds: seq<Directive>, n: nat, s: Scan): (t: Scan)
    requires n <= |ds| && HaveArgs(ds) && ScanValid(s)
    ensures ScanValid(t)
  {
    ReadDirectives(fs, path, ds[..n], s)
  }

  lemma AfterNext(fs: Files, path: Path, ds: seq<Directive>, n: nat, s: Scan)
    requires n < |ds| && HaveArgs(ds) && ScanValid(s)
    ensures After(fs, path, ds, n + 1, s) == ReadDirective(fs, path, ds[n], After(fs, path, ds, n, s))
  {
    assert ds[..n + 1] == ds[..n] + [ds[n]];
    ReadAppend(fs, path, ds[..n], [ds[n]], s);
    var t := After(fs, path, ds, n, s);
    assert [ds[n]][1..] == [];
  }

  /** The block under way is the section of the last Host line, Includes in it or not. */
  lemma {:induction false} CurrentIsSection(fs: Files, path: Path, ds: seq<Directive>, h: nat, n: nat, s: Scan)
    requires HaveArgs(ds) && ScanValid(s) && LastHost(ds, h, n)
    ensures var t := After(fs, path, ds, n, s);
            && t.current == Some(|After(fs, path, ds, h, s).blocks|)
            && IsSection(t.blocks[t.current.value], ds, h, n)
    decreases n
  {
    AfterNext(fs, path, ds, n - 1, s);
    if h + 1 < n {
      CurrentIsSection(fs, path, ds, h, n - 1, s);
      var before, d := After(fs, path, ds, n - 1, s), ds[n - 1];
      if d.keyword == "include" {
        FilesExtend(fs, Named(fs, path, d.args), before);
        SectionSkips(before.blocks[before.current.value], ds, h, n - 1);
      } else {
        SectionGrows(before.blocks[before.current.value], ds, h, n - 1);
      }
    }
  }

  /** Blocks before the one under way are finished. */
  lemma {:induction false} FinishedStay(fs: Files, path: Path, ds: seq<Directive>, s: Scan, done: nat)
    requires HaveArgs(ds) && ScanValid(s) && done <= |s.blocks|
    requires s.current.Some? ==> done <= s.current.value
    ensures var t := ReadDirectives(fs, path, ds, s); done <= |t.blocks| && t.blocks[..done] == s.blocks[..done]
    decreases |ds|
  {
    if ds != [] {
      var first := ReadDirective(fs, path, ds[0], s);
      if ds[0].keyword == "include" {
        FilesExtend(fs, Named(fs, path, ds[0].args), s);
      }
      FinishedStay(fs, path, ds[1..], first, done);
    }
  }

  /** The directives of a file. */
  function DirectivesIn(fs: Files, path: Path): (ds: seq<Directive>)
    requires fs.resolve(path) in fs.text
    ensures HaveArgs(ds)
  {
    var ds := DirectivesOf(Lines(fs.text[fs.resolve(path)]));
    assert forall i :: 0 <= i < |ds| ==> ds[i] in ds;
    ds
  }

  /** Every Host line of a config is one block: it has the line's patterns, and each field is what
      the last directive for it says before the next Host line, Includes between them or not. The
      blocks come in the order of the lines: before it stand exactly those that the directives
      before its line give. */
  lemma HostLineIsBlock(fs: Files, path: Path, h: nat, n: nat) returns (k: nat)
    requires fs.resolve(path) in fs.text
    requires var ds := DirectivesIn(fs, path);
             LastHost(ds, h, n) && (n < |ds| ==> ds[n].keyword == "host")
    ensures var ds := DirectivesIn(fs, path);
            var start := Scan([], None, {fs.resolve(path)}, [path]);
            && k < |Blocks(fs, path)| && IsSection(Blocks(fs, path)[k], ds, h, n)
            && k == |After(fs, path, ds, h, start).blocks|
  {
    var ds := DirectivesIn(fs, path);
    var start := Scan([], None, {fs.resolve(path)}, [path]);
    var t := After(fs, path, ds, n, start);
    k := |After(fs, path, ds, h, start).blocks|;
    CurrentIsSection(fs, path, ds, h, n, start);
    assert ds == ds[..n] + ds[n..];
    ReadAppend(fs, path, ds[..n], ds[n..], start);
    if n < |ds| {
      assert ds[n..][0] == ds[n];
      var next := ReadDirective(fs, path, ds[n], t);
      FinishedStay(fs, path, ds[n + 1..], next, |t.blocks|);
      assert ds[n..][1..] == ds[n + 1..];
      assert next.blocks[..|t.blocks|] == t.blocks;
      assert ReadDirectives(fs, path, ds[n..], t).blocks[k] == t.blocks[k];
    } else {
      assert ds[n..] == [];
    }
    OwnBlocks(fs, path);
    assert IsSection(t.blocks[k], ds, h, n);
  }

  lemma OwnBlocks(fs: Files, path: Path)
    requires fs.resolve(path) in fs.text
    ensures Blocks(fs, path) ==
            ReadDirectives(fs, path, DirectivesIn(fs, path), Scan([], None, {fs.resolve(path)}, [path])).blocks
  {
    assert {} + {fs.resolve(path)} == {fs.resolve(path)};
    assert [] + [path] == [path];
    var inner := ReadDirectives(fs, path, DirectivesIn(fs, path), Scan([], None, {fs.resolve(path)}, [path]));
    assert [] + inner.blocks == inner.blocks;
  }

  lemma {:induction false} NamedSnoc(fs: Files, path: Path, args: seq<string>, arg: string)
    ensures Named(fs, path, args + [arg]) == Named(fs, path, args) + fs.names(path, arg)
  {
    if args == [] {
      assert [arg][1..] == [];
      assert fs.names(path, arg) + [] == fs.names(path, arg) == [] + fs.names(path, arg);
    } else {
      assert (args + [arg])[1..] == args[1..] + [arg];
      NamedSnoc(fs, path, args[1..], arg);
    }
  }

  lemma {:induction false} FilesAppend(fs: Files, some: seq<Path>, more: seq<Path>, s: Scan)
    requires ScanValid(s)
    ensures ReadFiles(fs, some + more, s) == ReadFiles(fs, more, ReadFiles(fs, some, s))
    decreases |some|
  {
    if some == [] {
      assert some + more == more;
    } else {
      assert (some + more)[1..] == some[1..] + more;
      FilesAppend(fs, some[1..], more, ReadFile(fs, some[0], s));
    }
  }

  /** An Include reads what its arguments name in their order: those of one more argument come last. */
  lemma IncludedInOrder(fs: Files, path: Path, args: seq<string>, arg: string, s: Scan)
    requires ScanValid(s)
    ensures ReadFiles(fs, Named(fs, path, args + [arg]), s) ==
            ReadFiles(fs, fs.names(path, arg), ReadFiles(fs, Named(fs, path, args), s))
  {
    NamedSnoc(fs, path, args, arg);
    FilesAppend(fs, Named(fs, path, args), fs.names(path, arg), s);
  }

  // ----------------------------------------------------------------------------- aliases

  /** The block lists the alias among its patterns. */
  predicate Lists(block: Block, alias: string) {
    alias in block.patterns
  }

  /** An alias is found exactly when some block lists it and it is no pattern; it then has that
      name, the last host name any such block gives unless that is missing or empty, and the last
      port and user any of them gives. */
  lemma FoundMeans(blocks: seq<Block>, alias: string)
    ensures ResolveAlias(blocks, alias).NotFound? <==>
            || !(exists k :: 0 <= k < |blocks| && Lists(blocks[k], alias))
            || (alias != "" && alias[0] == '!') || '*' in alias || '?' in alias
    ensures ResolveAlias(blocks, alias).Found? ==>
              var option := ResolveAlias(blocks, alias).option;
              && option.alias == alias
              && (option.port.Some? ==> 1 <= option.port.value <= 65535)
              && LastEntryWins(blocks, alias, (b: Block) => b.port, option.port)
              && LastEntryWins(blocks, alias, (b: Block) => b.user, option.user)
              && (|| (option.hostname != "" && LastEntryWins(blocks, alias, (b: Block) => b.hostname, Some(option.hostname)))
                  || (option.hostname == alias
                      && (|| LastEntryWins(blocks, alias, (b: Block) => b.hostname, None)
                          || LastEntryWins(blocks, alias, (b: Block) => b.hostname, Some("")))))
  {
    ResolveIsLastEntryWins(blocks, alias);
    assert "!" <= alias <==> alias != "" && alias[0] == '!';
    if k :| 0 <= k < |blocks| && Lists(blocks[k], alias) {
      assert Literal(alias) ==> Mentions(blocks[k], alias);
    }
    if k :| 0 <= k < |blocks| && Mentions(blocks[k], alias) {
      assert Lists(blocks[k], alias);
    }
  }

  // -------------------------------------------------------------------- an appended entry

  lemma UnlinesOf(first: string, rest: seq<string>)
    ensures Unlines([first] + rest) == first + "\n" + Unlines(rest)
  {
    assert ([first] + rest)[1..] == rest;
  }

  /** The text of an entry: the user line only for a named user, and with a key file the line that
      keeps other keys from being offered. */
  lemma EntryText(e: Entry)
    ensures RenderEntry(e) ==
            "Host " + e.alias + "\n" + ("    HostName " + e.hostname + "\n" + ("    Port " + Decimal.Render(e.port) + "\n"
            + ((if e.user.Some? && e.user.value != "" then "    User " + e.user.value + "\n" else "")
               + (if e.identityFile.Some? && e.identityFile.value != ""
                  then "    IdentityFile " + e.identityFile.value + "\n" + ("    IdentitiesOnly yes" + "\n") else ""))))
  {
    var key: seq<string> :=
      if Given(e.identityFile)
      then [Line(INDENT, "IdentityFile", e.identityFile.value), Line(INDENT, "IdentitiesOnly", "yes")] else [];
    var user: seq<string> := if Given(e.user) then [Line(INDENT, "User", e.user.value)] else [];
    KeyText(e, key);
    UserText(e, user, key);
    assert BodyLines(e) == [Line(INDENT, "HostName", e.hostname)]
                           + ([Line(INDENT, "Port", Decimal.Render(e.port))] + (user + key));
    EntryTextOf(e, Decimal.Render(e.port), user + key);
  }

  lemma EntryTextOf(e: Entry, port: string, rest: seq<string>)
    requires BodyLines(e) == [Line(INDENT, "HostName", e.hostname)] + ([Line(INDENT, "Port", port)] + rest)
    ensures RenderEntry(e) ==
            "Host " + e.alias + "\n" + ("    HostName " + e.hostname + "\n" + ("    Port " + port + "\n" + Unlines(rest)))
  {
    UnlinesOf(Line(INDENT, "Port", port), rest);
    UnlinesOf(Line(INDENT, "HostName", e.hostname), [Line(INDENT, "Port", port)] + rest);
    UnlinesOf(Line("", "Host", e.alias), BodyLines(e));
    LineText(e.alias, e.hostname, port);
  }

  lemma LineText(alias: string, hostname: string, port: string)
    ensures Line("", "Host", alias) == "Host " + alias
    ensures Line(INDENT, "HostName", hostname) == "    HostName " + hostname
    ensures Line(INDENT, "Port", port) == "    Port " + port
  {
  }

  lemma KeyText(e: Entry, key: seq<string>)
    requires key == if Given(e.identityFile)
                    then [Line(INDENT, "IdentityFile", e.identityFile.value), Line(INDENT, "IdentitiesOnly", "yes")] else []
    ensures Unlines(key) ==
            if e.identityFile.Some? && e.identityFile.value != ""
            then "    IdentityFile " + e.identityFile.value + "\n" + ("    IdentitiesOnly yes" + "\n") else ""
  {
    if Given(e.identityFile) {
      var first, second := Line(INDENT, "IdentityFile", e.identityFile.value), Line(INDENT, "IdentitiesOnly", "yes");
      assert first == "    IdentityFile " + e.identityFile.value;
      assert second == "    IdentitiesOnly yes";
      assert key == [first] + [second] && [second] == [second] + [];
      UnlinesOf(first, [second]);
      UnlinesOf(second, []);
      assert second + "\n" + "" == second + "\n";
    }
  }

  lemma UserText(e: Entry, user: seq<string>, key: seq<string>)
    requires user == if Given(e.user) then [Line(INDENT, "User", e.user.value)] else []
    ensures Unlines(user + key) ==
            (if e.user.Some? && e.user.value != "" then "    User " + e.user.value + "\n" else "") + Unlines(key)
  {
    if Given(e.user) {
      assert Line(INDENT, "User", e.user.value) == "    User " + e.user.value;
      UnlinesOf(Line(INDENT, "User", e.user.value), key);
    } else {
      assert user + key == key && "" + Unlines(key) == Unlines(key);
    }
  }
}
