/** Appending a Host entry to an SSH config: it reads back, and a failed dial undoes it. */
module SshConfigWriter {
  import opened Common
  import opened SshText
  import opened SshConfigReader
  import opened SshAliases
  import Decimal

  datatype Entry = Entry(alias: string, hostname: string, port: nat, user: Option<string>, identityFile: Option<string>)

  predicate AliasChar(c: char) {
    'A' <= c <= 'Z' || 'a' <= c <= 'z' || '0' <= c <= '9' || c == '.' || c == '_' || c == '-'
  }

  predicate ControlFree(text: string) {
    forall i :: 0 <= i < |text| ==>
      var n := text[i] as int; !(n <= 0x1F || 0x7F <= n <= 0x9F || n == 0x2028 || n == 0x2029)
  }

  /** A value the schema accepts: no control characters, no space at either end. */
  predicate ValidValue(text: string) {
    ControlFree(text) && Stripped(text)
  }

  /** `SshHostAliasCreate`, lengths aside. */
  predicate ValidEntry(e: Entry) {
    && e.alias != "" && (forall i :: 0 <= i < |e.alias| ==> AliasChar(e.alias[i]))
    && e.alias[0] !in "._-"
    && e.hostname != "" && ValidValue(e.hostname)
    && 1 <= e.port <= 65535
    && (e.user.Some? ==> ValidValue(e.user.value))
    && (e.identityFile.Some? ==> ValidValue(e.identityFile.value))
  }

  predicate Given(value: Option<string>) {
    value.Some? && value.value != ""
  }

  function Line(indent: string, keyword: string, value: string): string {
    indent + (keyword + (" " + value))
  }

  const INDENT := "    "

  /** What follows the Host line. */
  function BodyLines(e: Entry): seq<string> {
    [Line(INDENT, "HostName", e.hostname), Line(INDENT, "Port", Decimal.Render(e.port))]
    + (if Given(e.user) then [Line(INDENT, "User", e.user.value)] else [])
    + (if Given(e.identityFile)
       then [Line(INDENT, "IdentityFile", e.identityFile.value), Line(INDENT, "IdentitiesOnly", "yes")] else [])
  }

  function EntryLines(e: Entry): seq<string> {
    [Line("", "Host", e.alias)] + BodyLines(e)
  }

  function Unlines(lines: seq<string>): string {
    if lines == [] then "" else lines[0] + "\n" + Unlines(lines[1..])
  }

  /** `_render_entry` */
  function RenderEntry(e: Entry): string {
    Unlines(EntryLines(e))
  }

  /** Where an entry is appended. Read as text, a final carriage return ends a line too. */
  function Append(text: string, entry: string): string {
    if text == "" then entry
    else
      var ended := text[|text| - 1] == '\n' || text[|text| - 1] == '\r';
      text + (if ended then "" else "\n") + ("\n" + entry)
  }

  /** The file after `add_host_alias`. */
  function Appended(text: string, e: Entry): string {
    Append(text, RenderEntry(e))
  }

  // --------------------------------------------------------------------- lines and words

  predicate AllNoBreaks(lines: seq<string>) {
    forall i :: 0 <= i < |lines| ==> NoBreaks(lines[i])
  }

  lemma {:induction false} LinesOfUnlines(lines: seq<string>)
    requires AllNoBreaks(lines)
    ensures Lines(Unlines(lines)) == lines
  {
    if lines != [] {
      LineFirst(lines[0], Unlines(lines[1..]));
      LinesOfUnlines(lines[1..]);
    }
  }

  lemma BlankFirst(text: string)
    ensures Lines("\n" + text) == [""] + Lines(text)
  {
    var all := "\n" + text;
    assert all[0] == '\n' && BreakAt(all) == 0 && all[..0] == "" && all[1..] == text;
    assert AfterLine(all) == text;
  }

  lemma NewlineEnds(text: string)
    ensures BreakAt(text + "\n") == BreakAt(text) && (text + "\n")[..BreakAt(text)] == text[..BreakAt(text)]
  {
    BreakAtAppend(text, "\n");
    assert BreakAt("\n") == 0;
  }

  lemma OneLine(text: string)
    requires text != "" && AfterLine(text) == ""
    ensures Lines(text) == [text[..BreakAt(text)]]
  {
    assert [text[..BreakAt(text)]] + [] == [text[..BreakAt(text)]];
  }

  lemma NewlineAt(text: string)
    ensures var all := text + "\n"; all[|text|] == '\n' && all[|text|..] == "\n" && all[|text| + 1..] == ""
  {
  }

  /** The boundary that ends a single line has one character, unless there is none. */
  lemma SingleBoundary(text: string)
    requires text != "" && text[|text| - 1] != '\n' && AfterLine(text) == ""
    ensures BreakAt(text) < |text| ==> BreakAt(text) + 1 == |text|
  {
    var n := BreakAt(text);
    assert n + BreakLength(text, n) == |text|;
  }

  /** What is left after the first line, when a newline is added to a single line. */
  lemma NewlineRest(text: string)
    requires text != "" && text[|text| - 1] != '\n' && AfterLine(text) == ""
    ensures AfterLine(text + "\n") == if BreakAt(text) == |text| || text[BreakAt(text)] == '\r' then "" else "\n"
  {
    NewlineEnds(text);
    NewlineAt(text);
    SingleBoundary(text);
    if BreakAt(text) < |text| {
      assert (text + "\n")[BreakAt(text)] == text[BreakAt(text)];
    }
  }

  /** The last line of a text, closed by a newline. */
  lemma CloseLast(text: string)
    requires text != "" && text[|text| - 1] != '\n' && AfterLine(text) == ""
    ensures Lines(text + "\n") == Lines(text) || Lines(text + "\n") == Lines(text) + [""]
  {
    NewlineEnds(text);
    NewlineRest(text);
    OneLine(text);
    LinesStep(text + "\n");
    BlankFirst("");
    assert "\n" + "" == "\n" && [""] + [] == [""];
  }

  /** Ending a text with a newline adds at most an empty line. */
  lemma {:induction false} CloseLine(text: string)
    requires text != "" && text[|text| - 1] != '\n'
    ensures Lines(text + "\n") == Lines(text) || Lines(text + "\n") == Lines(text) + [""]
  {
    if AfterLine(text) == "" {
      CloseLast(text);
    } else {
      var rest, first := AfterLine(text), text[..BreakAt(text)];
      NewlineEnds(text);
      assert AfterLine(text + "\n") == rest + "\n";
      CloseLine(rest);
      PrependLine(first, Lines(rest), Lines(rest + "\n"));
    }
  }

  lemma PrependLine(first: string, before: seq<string>, after: seq<string>)
    requires after == before || after == before + [""]
    ensures [first] + after == [first] + before || [first] + after == ([first] + before) + [""]
  {
  }

  lemma LineHasNoBreaks(indent: string, keyword: string, value: string)
    requires indent in {"", INDENT} && IsKeyword(keyword) && NoBreaks(value)
    ensures NoBreaks(Line(indent, keyword, value))
  {
    var line := Line(indent, keyword, value);
    forall i | 0 <= i < |line| ensures !IsBreak(line[i]) {
      if |indent| <= i < |indent| + |keyword| {
        assert line[i] == keyword[i - |indent|];
      } else if i > |indent| + |keyword| {
        assert line[i] == value[i - |indent| - |keyword| - 1];
      }
    }
  }

  lemma AliasIsPlain(alias: string)
    requires alias != "" && forall i :: 0 <= i < |alias| ==> AliasChar(alias[i])
    ensures Plain(alias) && Stripped(alias) && NoBreaks(alias)
  {
  }

  lemma EntryHasNoBreaks(e: Entry)
    requires ValidEntry(e)
    ensures AllNoBreaks(EntryLines(e))
  {
    HostKeywords();
    KeyKeywords();
    AliasIsPlain(e.alias);
    DigitsArePlain(Decimal.Render(e.port));
    LineHasNoBreaks("", "Host", e.alias);
    LineHasNoBreaks(INDENT, "HostName", e.hostname);
    LineHasNoBreaks(INDENT, "Port", Decimal.Render(e.port));
    if Given(e.user) {
      LineHasNoBreaks(INDENT, "User", e.user.value);
    }
    if Given(e.identityFile) {
      LineHasNoBreaks(INDENT, "IdentityFile", e.identityFile.value);
      LineHasNoBreaks(INDENT, "IdentitiesOnly", "yes");
    }
  }

  lemma AfterNewline(text: string, entry: string)
    requires text != "" && IsBreak(text[|text| - 1]) && text[|text| - 1] != '\r'
    ensures Lines(text + ("\n" + entry)) == Lines(text) + ([""] + Lines(entry))
  {
    BlankFirst(entry);
    LinesAppend(text, "\n" + entry);
  }

  lemma AfterReturn(text: string, entry: string)
    requires text != "" && entry != "" && text[|text| - 1] == '\r'
    ensures Lines(text + ("\n" + entry)) == Lines(text + "\n") + Lines(entry)
  {
    assert text + ("\n" + entry) == (text + "\n") + entry;
    LinesAppend(text + "\n", entry);
  }

  /** The gap between the old lines and the new ones: at most two empty lines. */
  predicate IsGap(gap: seq<string>) {
    forall line :: line in gap ==> line == ""
  }

  lemma AppendShape(text: string, entry: string)
    requires text != ""
    ensures Append(text, entry) ==
            if text[|text| - 1] == '\n' || text[|text| - 1] == '\r' then text + ("\n" + entry)
            else (text + "\n") + ("\n" + entry)
  {
    assert text + "" == text;
  }

  lemma AppendLines(text: string, entry: string) returns (gap: seq<string>)
    requires entry != ""
    ensures IsGap(gap) && Lines(Append(text, entry)) == Lines(text) + (gap + Lines(entry))
  {
    if text == "" {
      gap := [];
      assert Lines(text) == [] && [] + ([] + Lines(entry)) == Lines(entry);
    } else {
      AppendShape(text, entry);
      if text[|text| - 1] == '\n' {
        AfterNewline(text, entry);
        gap := [""];
      } else if text[|text| - 1] == '\r' {
        AfterReturn(text, entry);
        gap := ClosingGap(text, Lines(entry));
      } else {
        gap := OpenLineGap(text, entry);
      }
    }
  }

  lemma OpenLineGap(text: string, entry: string) returns (gap: seq<string>)
    requires text != "" && text[|text| - 1] != '\n'
    ensures IsGap(gap) && Lines((text + "\n") + ("\n" + entry)) == Lines(text) + (gap + Lines(entry))
  {
    AfterNewline(text + "\n", entry);
    gap := TwoGaps(Lines(text), Lines(text + "\n"), Lines(entry)) by {
      CloseLine(text);
    }
  }

  lemma TwoGaps(before: seq<string>, closed: seq<string>, rest: seq<string>) returns (gap: seq<string>)
    requires closed == before || closed == before + [""]
    ensures IsGap(gap) && closed + ([""] + rest) == before + (gap + rest)
  {
    gap := if closed == before then [""] else ["", ""];
  }

  lemma ClosingGap(text: string, rest: seq<string>) returns (gap: seq<string>)
    requires text != "" && text[|text| - 1] != '\n'
    ensures gap in {[], [""]} && Lines(text + "\n") + rest == Lines(text) + (gap + rest)
  {
    gap := OneGap(Lines(text), Lines(text + "\n"), rest) by {
      CloseLine(text);
    }
  }

  lemma OneGap(before: seq<string>, closed: seq<string>, rest: seq<string>) returns (gap: seq<string>)
    requires closed == before || closed == before + [""]
    ensures gap in {[], [""]} && closed + rest == before + (gap + rest)
  {
    gap := if closed == before then [] else [""];
  }

  lemma {:induction false} DirectivesAppend(a: seq<string>, b: seq<string>)
    ensures DirectivesOf(a + b) == DirectivesOf(a) + DirectivesOf(b)
  {
    if a == [] {
      assert a + b == b;
    } else {
      assert (a + b)[1..] == a[1..] + b;
      DirectivesAppend(a[1..], b);
    }
  }

  lemma {:induction false} BlankLinesSayNothing(gap: seq<string>)
    requires forall line :: line in gap ==> line == ""
    ensures DirectivesOf(gap) == []
  {
    if gap != [] {
      assert gap[0] in gap;
      forall line | line in gap[1..] ensures line == "" {
        assert line in gap;
      }
      BlankLinesSayNothing(gap[1..]);
    }
  }

  // ------------------------------------------------------------------------ the new block

  /** The block the entry is read as. */
  function EntryBlock(e: Entry): Block {
    Block([e.alias], FirstWord(e.hostname), Some(e.port), if Given(e.user) then FirstWord(e.user.value) else None)
  }

  /** One line of an entry applied to its block. */
  function ApplyLine(block: Block, line: string): Block {
    match ParseLine(line)
    case None => block
    case Some(d) => if d.args == [] then block else Apply(block, d)
  }

  function ApplyLines(block: Block, lines: seq<string>): Block
    decreases |lines|
  {
    if lines == [] then block else ApplyLines(ApplyLine(block, lines[0]), lines[1..])
  }

  /** A line that is neither a Host line nor an Include. */
  predicate IsBody(line: string) {
    match ParseLine(line)
    case None => true
    case Some(d) => d.keyword != "host" && d.keyword != "include"
  }

  lemma {:induction false} BodyApplies(fs: Files, path: Path, lines: seq<string>, s: Scan)
    requires ScanValid(s) && s.current.Some?
    requires forall line :: line in lines ==> IsBody(line)
    ensures ReadDirectives(fs, path, DirectivesOf(lines), s) ==
            s.(blocks := s.blocks[s.current.value := ApplyLines(s.blocks[s.current.value], lines)])
    decreases |lines|
  {
    var k := s.current.value;
    if lines == [] {
      assert s.blocks[k := s.blocks[k]] == s.blocks;
    } else {
      assert lines[0] in lines;
      var next := s.(blocks := s.blocks[k := ApplyLine(s.blocks[k], lines[0])]);
      assert ApplyLine(s.blocks[k], lines[0]) == s.blocks[k] ==> next == s;
      BodyApplies(fs, path, lines[1..], next);
      assert next.blocks[k := ApplyLines(next.blocks[k], lines[1..])] ==
             s.blocks[k := ApplyLines(s.blocks[k], lines)];
    }
  }

  lemma HostKeywords()
    ensures Lower("Host") == "host" && Lower("HostName") == "hostname" && Lower("Port") == "port"
    ensures IsKeyword("Host") && IsKeyword("HostName") && IsKeyword("Port")
  {
  }

  lemma KeyKeywords()
    ensures Lower("User") == "user" && Lower("IdentityFile") == "identityfile"
    ensures Lower("IdentitiesOnly") == "identitiesonly"
    ensures IsKeyword("User") && IsKeyword("IdentityFile") && IsKeyword("IdentitiesOnly")
  {
  }

  /** A line of the entry, as its keyword applied to the first word of its value. */
  lemma LineApplies(block: Block, indent: string, keyword: string, value: string)
    requires indent in {"", INDENT} && IsKeyword(keyword) && value != "" && Stripped(value)
    requires Lower(keyword) != "host" && Lower(keyword) != "include"
    ensures IsBody(Line(indent, keyword, value))
    ensures FirstWord(value).None? ==> ApplyLine(block, Line(indent, keyword, value)) == block
    ensures FirstWord(value).Some? ==>
              && Split(value).Some? && Split(value).value != []
              && ApplyLine(block, Line(indent, keyword, value)) ==
                 Apply(block, Directive(Lower(keyword), Split(value).value))
  {
    ParseSpaced(indent, keyword, value);
  }

  lemma PortApplies(block: Block, port: nat)
    ensures IsBody(Line(INDENT, "Port", Decimal.Render(port)))
    ensures ApplyLine(block, Line(INDENT, "Port", Decimal.Render(port))) == block.(port := Some(port))
  {
    var value := Decimal.Render(port);
    HostKeywords();
    DigitsArePlain(value);
    SplitPlain(value);
    LineApplies(block, INDENT, "Port", value);
    IntOfRender(port);
  }

  lemma HostNameApplies(block: Block, value: string)
    requires value != "" && Stripped(value) && block.hostname.None?
    ensures IsBody(Line(INDENT, "HostName", value))
    ensures ApplyLine(block, Line(INDENT, "HostName", value)) == block.(hostname := FirstWord(value))
  {
    HostKeywords();
    LineApplies(block, INDENT, "HostName", value);
    assert "hostname"[0] == 'h' && "password"[0] == 'p';
  }

  /** Whatever a key path contains, its lines change nothing. */
  lemma KeyLinesApply(block: Block, value: string)
    requires value != "" && Stripped(value)
    ensures IsBody(Line(INDENT, "IdentityFile", value)) && IsBody(Line(INDENT, "IdentitiesOnly", "yes"))
    ensures ApplyLine(block, Line(INDENT, "IdentityFile", value)) == block
    ensures ApplyLine(block, Line(INDENT, "IdentitiesOnly", "yes")) == block
  {
    KeyKeywords();
    LineApplies(block, INDENT, "IdentityFile", value);
    SplitPlain("yes");
    LineApplies(block, INDENT, "IdentitiesOnly", "yes");
  }

  lemma BodyGivesBlock(e: Entry)
    requires ValidEntry(e)
    ensures forall line :: line in BodyLines(e) ==> IsBody(line)
    ensures ApplyLines(Block([e.alias], None, None, None), BodyLines(e)) == EntryBlock(e)
  {
    var bare := Block([e.alias], None, None, None);
    var named := bare.(hostname := FirstWord(e.hostname));
    HostNameApplies(bare, e.hostname);
    PortApplies(named, e.port);
    var ported := named.(port := Some(e.port));
    if Given(e.user) {
      UserApplies(ported, e.user.value);
    }
    if Given(e.identityFile) {
      KeyLinesApply(EntryBlock(e), e.identityFile.value);
    }
    BodyFolds(e, bare, named, ported);
  }

  lemma UserApplies(block: Block, value: string)
    requires value != "" && Stripped(value) && block.user.None?
    ensures IsBody(Line(INDENT, "User", value))
    ensures ApplyLine(block, Line(INDENT, "User", value)) == block.(user := FirstWord(value))
  {
    KeyKeywords();
    LineApplies(block, INDENT, "User", value);
  }

  lemma {:induction false} FoldAppend(block: Block, a: seq<string>, b: seq<string>)
    ensures ApplyLines(block, a + b) == ApplyLines(ApplyLines(block, a), b)
    decreases |a|
  {
    if a == [] {
      assert a + b == b;
    } else {
      assert (a + b)[1..] == a[1..] + b;
      FoldAppend(ApplyLine(block, a[0]), a[1..], b);
    }
  }

  lemma FoldTwo(block: Block, a: string, b: string)
    ensures ApplyLines(block, [a, b]) == ApplyLine(ApplyLine(block, a), b)
  {
    assert [a, b][1..] == [b] && [b][1..] == [];
    assert ApplyLines(ApplyLine(block, a), [b]) == ApplyLines(ApplyLine(ApplyLine(block, a), b), []);
  }

  lemma BodyFolds(e: Entry, bare: Block, named: Block, ported: Block)
    requires ApplyLine(bare, Line(INDENT, "HostName", e.hostname)) == named
    requires ApplyLine(named, Line(INDENT, "Port", Decimal.Render(e.port))) == ported
    requires Given(e.user) ==>
               ApplyLine(ported, Line(INDENT, "User", e.user.value)) == ported.(user := FirstWord(e.user.value))
    requires ported == Block([e.alias], FirstWord(e.hostname), Some(e.port), None)
    requires Given(e.identityFile) ==>
               && ApplyLine(EntryBlock(e), Line(INDENT, "IdentityFile", e.identityFile.value)) == EntryBlock(e)
               && ApplyLine(EntryBlock(e), Line(INDENT, "IdentitiesOnly", "yes")) == EntryBlock(e)
    ensures ApplyLines(bare, BodyLines(e)) == EntryBlock(e)
  {
    var head := [Line(INDENT, "HostName", e.hostname), Line(INDENT, "Port", Decimal.Render(e.port))];
    var user := if Given(e.user) then [Line(INDENT, "User", e.user.value)] else [];
    var key := if Given(e.identityFile)
               then [Line(INDENT, "IdentityFile", e.identityFile.value), Line(INDENT, "IdentitiesOnly", "yes")] else [];
    FoldAppend(bare, head + user, key);
    FoldAppend(bare, head, user);
    FoldTwo(bare, head[0], head[1]);
    assert ApplyLines(ported, user) == EntryBlock(e);
    if Given(e.identityFile) {
      FoldTwo(EntryBlock(e), key[0], key[1]);
    }
  }

  // --------------------------------------------------------------- the rest of the config

  lemma {:induction false} ReadAppend(fs: Files, path: Path, a: seq<Directive>, b: seq<Directive>, s: Scan)
    requires ScanValid(s) && (forall d :: d in a + b ==> d.args != [])
    ensures (forall d :: d in a ==> d.args != []) && (forall d :: d in b ==> d.args != [])
    ensures ReadDirectives(fs, path, a + b, s) == ReadDirectives(fs, path, b, ReadDirectives(fs, path, a, s))
    decreases |a|
  {
    if a == [] {
      assert a + b == b;
    } else {
      assert forall d :: d in a ==> d in a + b;
      assert (a + b)[0] == a[0] && (a + b)[1..] == a[1..] + b;
      ReadAppend(fs, path, a[1..], b, ReadDirective(fs, path, a[0], s));
    }
  }

  /** A file already visited may change without changing what else is read. */
  predicate SameButFor(fs: Files, fs': Files, file: Path) {
    && file in fs.text && fs'.text == fs.text[file := if file in fs'.text then fs'.text[file] else ""]
  }

  ghost predicate Rewritten(fs: Files, fs': Files, file: Path) {
    && SameButFor(fs, fs', file) && fs'.resolve == fs.resolve && fs'.names == fs.names
  }

  lemma NamedSame(fs: Files, fs': Files, path: Path, args: seq<string>)
    requires fs'.names == fs.names
    ensures Named(fs', path, args) == Named(fs, path, args)
  {
  }

  lemma FileUnaffected(fs: Files, fs': Files, file: Path, path: Path, s: Scan)
    requires Rewritten(fs, fs', file) && ScanValid(s) && file in s.visited
    ensures ReadFile(fs', path, s) == ReadFile(fs, path, s)
    decreases Left(fs, s.visited), 0, 0
  {
    var target := fs.resolve(path);
    if target !in s.visited && target in fs.text {
      LeftShrinks(fs, s.visited, s.visited + {target});
      DirectivesUnaffected(fs, fs', file, path, DirectivesOf(Lines(fs.text[target])),
                           Scan([], None, s.visited + {target}, s.read + [path]));
    }
  }

  lemma FilesUnaffected(fs: Files, fs': Files, file: Path, paths: seq<Path>, s: Scan)
    requires Rewritten(fs, fs', file) && ScanValid(s) && file in s.visited
    ensures ReadFiles(fs', paths, s) == ReadFiles(fs, paths, s)
    decreases Left(fs, s.visited), 1, |paths|
  {
    if paths != [] {
      FileUnaffected(fs, fs', file, paths[0], s);
      LeftShrinks(fs, s.visited, ReadFile(fs, paths[0], s).visited);
      FilesUnaffected(fs, fs', file, paths[1..], ReadFile(fs, paths[0], s));
    }
  }

  lemma DirectivesUnaffected(fs: Files, fs': Files, file: Path, path: Path, ds: seq<Directive>, s: Scan)
    requires Rewritten(fs, fs', file) && ScanValid(s) && file in s.visited
    requires forall d :: d in ds ==> d.args != []
    ensures ReadDirectives(fs', path, ds, s) == ReadDirectives(fs, path, ds, s)
    decreases Left(fs, s.visited), 3, |ds|
  {
    if ds != [] {
      NamedSame(fs, fs', path, ds[0].args);
      FilesUnaffected(fs, fs', file, Named(fs, path, ds[0].args), s);
      var first := ReadDirective(fs, path, ds[0], s);
      LeftShrinks(fs, s.visited, first.visited);
      DirectivesUnaffected(fs, fs', file, path, ds[1..], first);
    }
  }

  // ------------------------------------------------------------------------ main results

  function Raw(fs: Files, path: Path): string {
    if fs.resolve(path) in fs.text then fs.text[fs.resolve(path)] else ""
  }

  /** The file system after the entry has been appended to the config. */
  function WithEntry(fs: Files, path: Path, e: Entry): Files {
    fs.(text := fs.text[fs.resolve(path) := Appended(Raw(fs, path), e)])
  }

  lemma EntryDirectives(e: Entry)
    requires ValidEntry(e)
    ensures Lines(RenderEntry(e)) == EntryLines(e)
    ensures DirectivesOf(EntryLines(e)) == [Directive("host", [e.alias])] + DirectivesOf(BodyLines(e))
  {
    EntryHasNoBreaks(e);
    LinesOfUnlines(EntryLines(e));
    HostKeywords();
    AliasIsPlain(e.alias);
    SplitPlain(e.alias);
    ParseSpaced("", "Host", e.alias);
    assert EntryLines(e)[1..] == BodyLines(e);
  }

  /** The appended text means the old directives, then the entry's. */
  lemma AppendedDirectives(text: string, e: Entry)
    requires ValidEntry(e)
    ensures DirectivesOf(Lines(Appended(text, e))) ==
            DirectivesOf(Lines(text)) + ([Directive("host", [e.alias])] + DirectivesOf(BodyLines(e)))
  {
    EntryDirectives(e);
    var gap := AppendLines(text, RenderEntry(e));
    DirectivesAppend(Lines(text), gap + EntryLines(e));
    DirectivesAppend(gap, EntryLines(e));
    BlankLinesSayNothing(gap);
    assert [] + DirectivesOf(EntryLines(e)) == DirectivesOf(EntryLines(e));
  }

  lemma EntryReadsAsBlock(fs: Files, path: Path, e: Entry, s: Scan)
    requires ValidEntry(e) && ScanValid(s)
    ensures ReadDirectives(fs, path, [Directive("host", [e.alias])] + DirectivesOf(BodyLines(e)), s).blocks ==
            s.blocks + [EntryBlock(e)]
  {
    var host := Directive("host", [e.alias]);
    var ds := [host] + DirectivesOf(BodyLines(e));
    var bare := Block([e.alias], None, None, None);
    var named := s.(blocks := s.blocks + [bare], current := Some(|s.blocks|));
    assert ds[0] == host && ds[1..] == DirectivesOf(BodyLines(e));
    BodyGivesBlock(e);
    BodyApplies(fs, path, BodyLines(e), named);
    assert named.blocks[|s.blocks| := EntryBlock(e)] == s.blocks + [EntryBlock(e)];
  }

  /** After an append the config has its old blocks, with everything they include, and then
      the entry's block. */
  lemma AppendAddsOneBlock(fs: Files, path: Path, e: Entry)
    requires ValidEntry(e)
    ensures Blocks(WithEntry(fs, path, e), path) == Blocks(fs, path) + [EntryBlock(e)]
  {
    var file := fs.resolve(path);
    var fs' := WithEntry(fs, path, e);
    var start := Scan([], None, {file}, [path]);
    var before := DirectivesOf(Lines(Raw(fs, path)));
    var more := [Directive("host", [e.alias])] + DirectivesOf(BodyLines(e));
    AppendedDirectives(Raw(fs, path), e);
    assert {} + {file} == {file} && [] + [path] == [path];
    assert Blocks(fs', path) == [] + ReadDirectives(fs', path, before + more, start).blocks;
    ReadAppend(fs', path, before, more, start);
    if file in fs.text {
      DirectivesUnaffected(fs, fs', file, path, before, start);
      assert Blocks(fs, path) == [] + ReadDirectives(fs, path, before, start).blocks;
    }
    EntryReadsAsBlock(fs', path, e, ReadDirectives(fs', path, before, start));
  }

  /** What `add_host_alias` returns for the entry. */
  function Returned(e: Entry): AliasOption {
    AliasOption(e.alias, e.hostname, Some(e.port), e.user)
  }

  /** The values mean themselves when they are read back. */
  predicate ReadsBack(e: Entry) {
    Plain(e.hostname) && (e.user.Some? ==> e.user.value != "" && Plain(e.user.value))
  }

  /** Appending a new alias leaves every other alias's resolution as it was, and the alias
      resolves to what the writer returned exactly when its values need no quoting. */
  lemma AppendedAliasReadsBack(fs: Files, path: Path, e: Entry, other: string)
    requires ValidEntry(e) && ResolveAlias(Blocks(fs, path), e.alias) == NotFound
    ensures var after := Blocks(WithEntry(fs, path, e), path);
            && (other != e.alias ==> ResolveAlias(after, other) == ResolveAlias(Blocks(fs, path), other))
            && (ResolveAlias(after, e.alias) == Found(Returned(e)) <==> ReadsBack(e))
  {
    AppendAddsOneBlock(fs, path, e);
    ResolveSnoc(Blocks(fs, path), EntryBlock(e), other);
    ResolveSnoc(Blocks(fs, path), EntryBlock(e), e.alias);
    AliasIsLiteral(e.alias);
    AliasIsPlain(e.alias);
    FirstWordIff(e.hostname);
    if Given(e.user) {
      FirstWordIff(e.user.value);
    }
  }

  lemma AliasIsLiteral(alias: string)
    requires alias != "" && forall i :: 0 <= i < |alias| ==> AliasChar(alias[i])
    ensures Literal(alias)
  {
    assert AliasChar(alias[0]) && "!"[0] == '!';
    forall i | 0 <= i < |alias| ensures alias[i] != '*' && alias[i] != '?' {
      assert AliasChar(alias[i]);
    }
  }

  // ----------------------------------------------------------------------------- the file

  datatype AddResult = Added(option: AliasOption) | Duplicate | InvalidConfig

  /** The config at one path among all files, as the writer changes it. */
  class SshConfig {
    var files: Files
    const path: Path

    constructor (files: Files, path: Path)
      ensures this.files == files && this.path == path
    {
      this.files, this.path := files, path;
    }

    /** `add_host_alias`: an alias that exists, or a config that cannot be listed, changes
        nothing; otherwise the entry is appended. */
    method AddHostAlias(e: Entry) returns (result: AddResult)
      requires ValidEntry(e)
      modifies this
      ensures result.InvalidConfig? <==> exists alias :: ResolveAlias(Blocks(old(files), path), alias).Rejected?
      ensures !result.InvalidConfig? ==>
                (result.Duplicate? <==> ResolveAlias(Blocks(old(files), path), e.alias).Found?)
      ensures result.Added? ==> result.option == Returned(e) && files == WithEntry(old(files), path, e)
      ensures !result.Added? ==> files == old(files)
    {
      var scan := IterBlocks(files, path, NOTHING);
      var listed := ListHostAliases(scan.blocks);
      ListingAgreesWithResolution(scan.blocks);
      assert scan.blocks == Blocks(files, path);
      if listed.None? {
        ghost var alias :| ResolveAlias(scan.blocks, alias).Rejected?;
        assert ResolveAlias(Blocks(files, path), alias).Rejected?;
        return InvalidConfig;
      }
      for i := 0 to |listed.value|
        invariant forall j :: 0 <= j < i ==> listed.value[j].alias != e.alias
      {
        if listed.value[i].alias == e.alias {
          assert listed.value[i] in listed.value;
          return Duplicate;
        }
      }
      files := WithEntry(files, path, e);
      return Added(Returned(e));
    }

    /** The config's size before an append, None when there is no file. */
    function Size(): Option<nat>
      reads this
    {
      if files.resolve(path) in files.text then Some(|files.text[files.resolve(path)]|) else None
    }

    /** `_rollback` */
    method Rollback(priorSize: Option<nat>)
      requires priorSize.Some? ==>
                 files.resolve(path) in files.text && priorSize.value <= |files.text[files.resolve(path)]|
      modifies this
      ensures files == old(files).(text :=
                if priorSize.None? then old(files).text - {old(files).resolve(path)}
                else old(files).text[old(files).resolve(path) := Raw(old(files), path)[..priorSize.value]])
    {
      var file := files.resolve(path);
      if priorSize.None? {
        files := files.(text := files.text - {file});
      } else {
        files := files.(text := files.text[file := files.text[file][..priorSize.value]]);
      }
    }

    /** `add_verified_host_alias`: when the new alias cannot be dialled the config is exactly
        what it was, contents or absence. */
    method AddVerified(e: Entry, dials: bool) returns (result: AddResult)
      requires ValidEntry(e)
      modifies this
      ensures result.Added? && dials ==> result.option == Returned(e) && files == WithEntry(old(files), path, e)
      ensures !(result.Added? && dials) ==> files == old(files)
    {
      var priorSize := Size();
      result := AddHostAlias(e);
      if result.Added? && !dials {
        AppendKeepsPrefix(old(files), path, e);
        Rollback(priorSize);
        assert files.text == old(files).text;
      }
    }
  }

  lemma AppendKeepsPrefix(fs: Files, path: Path, e: Entry)
    ensures var raw := Raw(fs, path);
            |raw| <= |Appended(raw, e)| && Appended(raw, e)[..|raw|] == raw
  {
  }
}
