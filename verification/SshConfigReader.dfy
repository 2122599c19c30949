/**
 Reading an SSH config: Host blocks over an include graph that may be cyclic, and the two
 ways its aliases are looked up.
 */
module SshConfigReader {
  import opened Common
  import opened SshText

  type Path = string

  /** The file system as the reader sees it: texts by resolved path, the path a name resolves
      to, and what one Include argument of a file names, in order. */
  datatype Files = Files(text: map<Path, string>, resolve: Path -> Path, names: (Path, string) -> seq<Path>)

  datatype Block = Block(patterns: seq<string>, hostname: Option<string>, port: Option<int>, user: Option<string>)

  predicate StartsWith(text: string, prefix: string) {
    prefix <= text
  }

  /** `_CREDENTIAL_DIRECTIVE_PREFIXES` */
  predicate IsCredential(keyword: string) {
    || StartsWith(keyword, "identityfile") || StartsWith(keyword, "identityagent")
    || StartsWith(keyword, "certificatefile") || StartsWith(keyword, "password")
  }

  /** `_apply_directive` */
  function Apply(block: Block, d: Directive): Block
    requires d.args != []
  {
    if IsCredential(d.keyword) then block
    else if d.keyword == "hostname" then block.(hostname := Some(d.args[0]))
    else if d.keyword == "port" then
      if IntOf(d.args[0]).Some? then block.(port := IntOf(d.args[0])) else block
    else if d.keyword == "user" then block.(user := Some(d.args[0]))
    else block
  }

  /** The directives of a text that have arguments. */
  function DirectivesOf(lines: seq<string>): (ds: seq<Directive>)
    ensures forall d :: d in ds ==> d.args != []
  {
    if lines == [] then []
    else
      var rest := DirectivesOf(lines[1..]);
      match ParseLine(lines[0])
      case None => rest
      case Some(d) => if d.args == [] then rest else [d] + rest
  }

  /** The files the arguments of one Include name. */
  function Named(fs: Files, path: Path, args: seq<string>): seq<Path> {
    if args == [] then [] else fs.names(path, args[0]) + Named(fs, path, args[1..])
  }

  /** A file being read; `read` lists the paths whose text was parsed, included ones too. */
  datatype Scan = Scan(blocks: seq<Block>, current: Option<nat>, visited: set<Path>, read: seq<Path>)

  predicate ScanValid(s: Scan) {
    s.current.Some? ==> s.current.value < |s.blocks|
  }

  function Left(fs: Files, visited: set<Path>): nat {
    |fs.text.Keys - visited|
  }

  lemma LeftShrinks(fs: Files, less: set<Path>, more: set<Path>)
    requires less <= more
    ensures Left(fs, more) <= Left(fs, less)
    ensures (exists x :: x in more && x !in less && x in fs.text) ==> Left(fs, more) < Left(fs, less)
  {
    var small, large := fs.text.Keys - more, fs.text.Keys - less;
    assert small <= large;
    Cardinality(small, large);
    if x :| x in more && x !in less && x in fs.text {
      assert x in large && x !in small;
      Cardinality(small, large - {x});
    }
  }

  lemma {:induction false} Cardinality<T>(small: set<T>, large: set<T>)
    requires small <= large
    ensures |small| <= |large|
  {
    if small != {} {
      var x :| x in small;
      Cardinality(small - {x}, large - {x});
    }
  }

  /** `_iter_blocks`: the result extends `s` by the blocks of one file. */
  function ReadFile(fs: Files, path: Path, s: Scan): (t: Scan)
    requires ScanValid(s)
    ensures ScanValid(t) && s.visited <= t.visited && t.current == s.current
    decreases Left(fs, s.visited), 0, 0
  {
    var file := fs.resolve(path);
    if file in s.visited then s
    else if file !in fs.text then s.(visited := s.visited + {file})
    else
      LeftShrinks(fs, s.visited, s.visited + {file});
      var inner := ReadDirectives(fs, path, DirectivesOf(Lines(fs.text[file])),
                                  Scan([], None, s.visited + {file}, s.read + [path]));
      Scan(s.blocks + inner.blocks, s.current, inner.visited, inner.read)
  }

  function ReadFiles(fs: Files, paths: seq<Path>, s: Scan): (t: Scan)
    requires ScanValid(s)
    ensures ScanValid(t) && s.visited <= t.visited && t.current == s.current
    decreases Left(fs, s.visited), 1, |paths|
  {
    if paths == [] then s
    else
      var first := ReadFile(fs, paths[0], s);
      LeftShrinks(fs, s.visited, first.visited);
      ReadFiles(fs, paths[1..], first)
  }

  function ReadDirective(fs: Files, path: Path, d: Directive, s: Scan): (t: Scan)
    requires ScanValid(s) && d.args != []
    ensures ScanValid(t) && s.visited <= t.visited
    decreases Left(fs, s.visited), 2, 0
  {
    if d.keyword == "host" then
      s.(blocks := s.blocks + [Block(d.args, None, None, None)], current := Some(|s.blocks|))
    else if d.keyword == "include" then ReadFiles(fs, Named(fs, path, d.args), s)
    else if s.current.Some? then
      s.(blocks := s.blocks[s.current.value := Apply(s.blocks[s.current.value], d)])
    else s
  }

  function ReadDirectives(fs: Files, path: Path, ds: seq<Directive>, s: Scan): (t: Scan)
    requires ScanValid(s) && forall d :: d in ds ==> d.args != []
    ensures ScanValid(t) && s.visited <= t.visited
    decreases Left(fs, s.visited), 3, |ds|
  {
    if ds == [] then s
    else
      var first := ReadDirective(fs, path, ds[0], s);
      LeftShrinks(fs, s.visited, first.visited);
      ReadDirectives(fs, path, ds[1..], first)
  }

  const NOTHING := Scan([], None, {}, [])

  /** The blocks of a config file. */
  function Blocks(fs: Files, path: Path): seq<Block> {
    ReadFile(fs, path, NOTHING).blocks
  }

  // ---------------------------------------------------------------------------- the loops

  /** The loops of `_iter_blocks` over the files one Include names. */
  method ExtendByFiles(fs: Files, paths: seq<Path>, s: Scan) returns (t: Scan)
    requires ScanValid(s)
    ensures t == ReadFiles(fs, paths, s)
    decreases Left(fs, s.visited), 1
  {
    t := s;
    for i := 0 to |paths|
      invariant ScanValid(t) && s.visited <= t.visited
      invariant ReadFiles(fs, paths[i..], t) == ReadFiles(fs, paths, s)
    {
      LeftShrinks(fs, s.visited, t.visited);
      assert paths[i..][1..] == paths[i + 1..];
      t := IterBlocks(fs, paths[i], t);
    }
  }

  /** `_iter_blocks`, recursive over Include; the blocks found extend those of `s`. */
  method IterBlocks(fs: Files, path: Path, s: Scan) returns (t: Scan)
    requires ScanValid(s)
    ensures t == ReadFile(fs, path, s)
    decreases Left(fs, s.visited), 0
  {
    var file := fs.resolve(path);
    if file in s.visited {
      return s;
    }
    if file !in fs.text {
      return s.(visited := s.visited + {file});
    }
    LeftShrinks(fs, s.visited, s.visited + {file});
    var ds := DirectivesOf(Lines(fs.text[file]));
    var inner := Scan([], None, s.visited + {file}, s.read + [path]);
    ghost var start := inner;
    for i := 0 to |ds|
      invariant ScanValid(inner) && start.visited <= inner.visited
      invariant ReadDirectives(fs, path, ds[i..], inner) == ReadDirectives(fs, path, ds, start)
    {
      var d := ds[i];
      assert ds[i..][0] == d && ds[i..][1..] == ds[i + 1..];
      LeftShrinks(fs, start.visited, inner.visited);
      if d.keyword == "host" {
        inner := inner.(blocks := inner.blocks + [Block(d.args, None, None, None)], current := Some(|inner.blocks|));
      } else if d.keyword == "include" {
        inner := ExtendByFiles(fs, Named(fs, path, d.args), inner);
      } else if inner.current.Some? {
        var block := Apply(inner.blocks[inner.current.value], d);
        inner := inner.(blocks := inner.blocks[inner.current.value := block]);
      }
    }
    t := Scan(s.blocks + inner.blocks, s.current, inner.visited, inner.read);
  }
}
