/** Include expansion: every reachable file is parsed, and each one once. */
module SshIncludes {
  import opened Common
  import opened SshText
  import opened SshConfigReader

  /** What the Include directives of a text name. */
  function IncludesOf(fs: Files, path: Path, ds: seq<Directive>): set<Path> {
    if ds == [] then {}
    else (if ds[0].keyword == "include" then set p | p in Named(fs, path, ds[0].args) else {})
         + IncludesOf(fs, path, ds[1..])
  }

  /** What the file at `path` includes. */
  function Includes(fs: Files, path: Path): set<Path> {
    if fs.resolve(path) in fs.text then IncludesOf(fs, path, DirectivesOf(Lines(fs.text[fs.resolve(path)]))) else {}
  }

  // ------------------------------------------------------------------- what one scan adds

  /** The parsed files exist, are new, and are pairwise different. */
  predicate Fresh(fs: Files, s: Scan, t: Scan) {
    && s.read <= t.read && s.visited <= t.visited
    && (forall i :: |s.read| <= i < |t.read| ==>
          && fs.resolve(t.read[i]) in fs.text && fs.resolve(t.read[i]) in t.visited
          && fs.resolve(t.read[i]) !in s.visited)
    && (forall i, j :: |s.read| <= i < j < |t.read| ==> fs.resolve(t.read[i]) != fs.resolve(t.read[j]))
  }

  /** Everything a parsed file includes has been visited. */
  ghost predicate Closed(fs: Files, s: Scan, t: Scan) {
    forall i, p :: |s.read| <= i < |t.read| && p in Includes(fs, t.read[i]) ==> fs.resolve(p) in t.visited
  }

  /** Every visited file that exists has been parsed. */
  ghost predicate Covered(fs: Files, s: Scan, t: Scan) {
    forall x :: x in t.visited && x !in s.visited && x in fs.text ==>
                  exists i :: |s.read| <= i < |t.read| && fs.resolve(t.read[i]) == x
  }

  ghost predicate Grew(fs: Files, s: Scan, t: Scan) {
    Fresh(fs, s, t) && Closed(fs, s, t) && Covered(fs, s, t)
  }

  lemma GrewTwice(fs: Files, s: Scan, m: Scan, t: Scan)
    requires Grew(fs, s, m) && Grew(fs, m, t)
    ensures Grew(fs, s, t)
  {
    forall x | x in t.visited && x !in s.visited && x in fs.text
      ensures exists i :: |s.read| <= i < |t.read| && fs.resolve(t.read[i]) == x
    {
      if x in m.visited {
        var i :| |s.read| <= i < |m.read| && fs.resolve(m.read[i]) == x;
        assert t.read[i] == m.read[i];
      }
    }
    forall i, p | |s.read| <= i < |t.read| && p in Includes(fs, t.read[i]) ensures fs.resolve(p) in t.visited {
      if i < |m.read| {
        assert t.read[i] == m.read[i];
      }
    }
  }

  /** The scan of a file's directives starts with the file itself marked and parsed. */
  function Opened(fs: Files, path: Path, s: Scan): Scan {
    Scan([], None, s.visited + {fs.resolve(path)}, s.read + [path])
  }

  lemma FileGrew(fs: Files, path: Path, s: Scan)
    requires ScanValid(s)
    ensures Grew(fs, s, ReadFile(fs, path, s)) && fs.resolve(path) in ReadFile(fs, path, s).visited
    decreases Left(fs, s.visited), 0, 0
  {
    var file := fs.resolve(path);
    if file !in s.visited && file in fs.text {
      LeftShrinks(fs, s.visited, s.visited + {file});
      var ds := DirectivesOf(Lines(fs.text[file]));
      var start := Opened(fs, path, s);
      DirectivesGrew(fs, path, ds, start);
      OpenedGrew(fs, path, s, ReadDirectives(fs, path, ds, start));
    }
  }

  lemma OpenedGrew(fs: Files, path: Path, s: Scan, t: Scan)
    requires fs.resolve(path) in fs.text && fs.resolve(path) !in s.visited
    requires Grew(fs, Opened(fs, path, s), t)
    requires forall p :: p in Includes(fs, path) ==> fs.resolve(p) in t.visited
    ensures Grew(fs, s, t)
  {
    var start := Opened(fs, path, s);
    assert t.read[|s.read|] == path;
    assert s.read <= start.read <= t.read;
    forall x | x in t.visited && x !in s.visited && x in fs.text
      ensures exists i :: |s.read| <= i < |t.read| && fs.resolve(t.read[i]) == x
    {
      if x == fs.resolve(path) {
        assert fs.resolve(t.read[|s.read|]) == x;
      }
    }
  }

  lemma FilesGrew(fs: Files, paths: seq<Path>, s: Scan)
    requires ScanValid(s)
    ensures Grew(fs, s, ReadFiles(fs, paths, s))
    ensures forall p :: p in paths ==> fs.resolve(p) in ReadFiles(fs, paths, s).visited
    decreases Left(fs, s.visited), 1, |paths|
  {
    if paths != [] {
      var first := ReadFile(fs, paths[0], s);
      FileGrew(fs, paths[0], s);
      LeftShrinks(fs, s.visited, first.visited);
      FilesGrew(fs, paths[1..], first);
      GrewTwice(fs, s, first, ReadFiles(fs, paths[1..], first));
    }
  }

  lemma DirectiveGrew(fs: Files, path: Path, d: Directive, s: Scan)
    requires ScanValid(s) && d.args != []
    ensures Grew(fs, s, ReadDirective(fs, path, d, s))
    ensures d.keyword == "include" ==>
              forall p :: p in Named(fs, path, d.args) ==> fs.resolve(p) in ReadDirective(fs, path, d, s).visited
    decreases Left(fs, s.visited), 2, 0
  {
    if d.keyword == "include" {
      FilesGrew(fs, Named(fs, path, d.args), s);
    }
  }

  lemma DirectivesGrew(fs: Files, path: Path, ds: seq<Directive>, s: Scan)
    requires ScanValid(s) && forall d :: d in ds ==> d.args != []
    ensures Grew(fs, s, ReadDirectives(fs, path, ds, s))
    ensures forall p :: p in IncludesOf(fs, path, ds) ==> fs.resolve(p) in ReadDirectives(fs, path, ds, s).visited
    decreases Left(fs, s.visited), 3, |ds|
  {
    if ds != [] {
      var first := ReadDirective(fs, path, ds[0], s);
      DirectiveGrew(fs, path, ds[0], s);
      LeftShrinks(fs, s.visited, first.visited);
      DirectivesGrew(fs, path, ds[1..], first);
      GrewTwice(fs, s, first, ReadDirectives(fs, path, ds[1..], first));
    }
  }

  // ------------------------------------------------------------------------ reachability

  /** `to` is `n` Includes away from `start`. */
  ghost predicate ReachesIn(fs: Files, start: Path, to: Path, n: nat)
    decreases n
  {
    if n == 0 then start == to else exists mid :: mid in Includes(fs, start) && ReachesIn(fs, mid, to, n - 1)
  }

  ghost predicate Reaches(fs: Files, start: Path, to: Path) {
    exists n: nat :: ReachesIn(fs, start, to, n)
  }

  lemma IncludedReaches(fs: Files, start: Path, mid: Path, to: Path)
    requires mid in Includes(fs, start) && Reaches(fs, mid, to)
    ensures Reaches(fs, start, to)
  {
    var n: nat :| ReachesIn(fs, mid, to, n);
    assert ReachesIn(fs, start, to, n + 1);
  }

  /** Every path a scan adds is reachable from one of `roots`. */
  ghost predicate From(fs: Files, roots: set<Path>, s: Scan, t: Scan) {
    && s.read <= t.read
    && forall i :: |s.read| <= i < |t.read| ==> exists r :: r in roots && Reaches(fs, r, t.read[i])
  }

  lemma FileFrom(fs: Files, path: Path, s: Scan)
    requires ScanValid(s)
    ensures From(fs, {path}, s, ReadFile(fs, path, s))
    decreases Left(fs, s.visited), 0, 0
  {
    var file := fs.resolve(path);
    if file !in s.visited && file in fs.text {
      LeftShrinks(fs, s.visited, s.visited + {file});
      var ds := DirectivesOf(Lines(fs.text[file]));
      var start := Opened(fs, path, s);
      DirectivesFrom(fs, path, ds, start);
      var t := ReadDirectives(fs, path, ds, start);
      assert start.read <= t.read && t.read[|s.read|] == path;
      forall i | |s.read| <= i < |t.read| ensures Reaches(fs, path, t.read[i]) {
        if i == |s.read| {
          assert ReachesIn(fs, path, path, 0);
        } else {
          var r :| r in IncludesOf(fs, path, ds) && Reaches(fs, r, t.read[i]);
          IncludedReaches(fs, path, r, t.read[i]);
        }
      }
    }
  }

  lemma FilesFrom(fs: Files, paths: seq<Path>, s: Scan)
    requires ScanValid(s)
    ensures From(fs, (set p | p in paths), s, ReadFiles(fs, paths, s))
    decreases Left(fs, s.visited), 1, |paths|
  {
    if paths != [] {
      var first := ReadFile(fs, paths[0], s);
      FileFrom(fs, paths[0], s);
      LeftShrinks(fs, s.visited, first.visited);
      FilesFrom(fs, paths[1..], first);
      FromTwice(fs, {paths[0]}, (set p | p in paths[1..]), s, first, ReadFiles(fs, paths[1..], first));
      assert {paths[0]} + (set p | p in paths[1..]) == set p | p in paths;
    }
  }

  lemma FromTwice(fs: Files, some: set<Path>, more: set<Path>, s: Scan, m: Scan, t: Scan)
    requires From(fs, some, s, m) && From(fs, more, m, t)
    ensures From(fs, some + more, s, t)
  {
    forall i | |s.read| <= i < |t.read| ensures exists r :: r in some + more && Reaches(fs, r, t.read[i]) {
      if i < |m.read| {
        assert t.read[i] == m.read[i];
        var r :| r in some && Reaches(fs, r, m.read[i]);
        assert r in some + more;
      } else {
        var r :| r in more && Reaches(fs, r, t.read[i]);
        assert r in some + more;
      }
    }
  }

  lemma DirectivesFrom(fs: Files, path: Path, ds: seq<Directive>, s: Scan)
    requires ScanValid(s) && forall d :: d in ds ==> d.args != []
    ensures From(fs, IncludesOf(fs, path, ds), s, ReadDirectives(fs, path, ds, s))
    decreases Left(fs, s.visited), 3, |ds|
  {
    if ds != [] {
      var first := ReadDirective(fs, path, ds[0], s);
      var roots := if ds[0].keyword == "include" then set p | p in Named(fs, path, ds[0].args) else {};
      if ds[0].keyword == "include" {
        FilesFrom(fs, Named(fs, path, ds[0].args), s);
      }
      LeftShrinks(fs, s.visited, first.visited);
      DirectivesFrom(fs, path, ds[1..], first);
      FromTwice(fs, roots, IncludesOf(fs, path, ds[1..]), s, first, ReadDirectives(fs, path, ds[1..], first));
    }
  }

  // ------------------------------------------------------------------------ main results

  /** Over any include graph, cyclic ones too, no file is parsed twice. */
  lemma EachFileOnce(fs: Files, path: Path)
    ensures var read := ReadFile(fs, path, NOTHING).read;
            forall i, j :: 0 <= i < j < |read| ==> fs.resolve(read[i]) != fs.resolve(read[j])
  {
    FileGrew(fs, path, NOTHING);
  }

  /** What a file includes does not depend on the name it is reached by. */
  ghost predicate SameDirectories(fs: Files) {
    forall p, q :: fs.resolve(p) == fs.resolve(q) ==> Includes(fs, p) == Includes(fs, q)
  }

  /** Includes of visited files are visited. */
  ghost predicate VisitedClosed(fs: Files, t: Scan) {
    forall p, mid :: fs.resolve(p) in t.visited && mid in Includes(fs, p) ==> fs.resolve(mid) in t.visited
  }

  lemma ScanIsClosed(fs: Files, t: Scan)
    requires SameDirectories(fs) && Closed(fs, NOTHING, t) && Covered(fs, NOTHING, t)
    ensures VisitedClosed(fs, t)
  {
    forall p, mid | fs.resolve(p) in t.visited && mid in Includes(fs, p) ensures fs.resolve(mid) in t.visited {
      var i :| 0 <= i < |t.read| && fs.resolve(t.read[i]) == fs.resolve(p);
      assert Includes(fs, t.read[i]) == Includes(fs, p);
    }
  }

  /** One step of a chain of Includes. */
  ghost predicate Leads(fs: Files, start: Path, to: Path, n: nat, mid: Path)
    requires n > 0
  {
    mid in Includes(fs, start) && ReachesIn(fs, mid, to, n - 1)
  }

  lemma FirstInclude(fs: Files, start: Path, to: Path, n: nat) returns (mid: Path)
    requires n > 0 && ReachesIn(fs, start, to, n)
    ensures Leads(fs, start, to, n, mid)
  {
    mid :| mid in Includes(fs, start) && ReachesIn(fs, mid, to, n - 1);
  }

  lemma VisitInclude(fs: Files, t: Scan, start: Path, mid: Path)
    requires VisitedClosed(fs, t) && fs.resolve(start) in t.visited && mid in Includes(fs, start)
    ensures fs.resolve(mid) in t.visited
  {
  }

  lemma {:induction false} ReachableIsVisited(fs: Files, t: Scan, start: Path, to: Path, n: nat)
    requires VisitedClosed(fs, t) && ReachesIn(fs, start, to, n) && fs.resolve(start) in t.visited
    ensures fs.resolve(to) in t.visited
    decreases n
  {
    if n > 0 {
      var mid := FirstInclude(fs, start, to, n);
      VisitInclude(fs, t, start, mid);
      ReachableIsVisited(fs, t, mid, to, n - 1);
    }
  }

  /** Everything parsed is reachable through Include, under whatever names. */
  lemma ParsedIsReachable(fs: Files, path: Path, p: Path)
    requires p in ReadFile(fs, path, NOTHING).read
    ensures Reaches(fs, path, p) && fs.resolve(p) in fs.text
  {
    var t := ReadFile(fs, path, NOTHING);
    FileGrew(fs, path, NOTHING);
    FileFrom(fs, path, NOTHING);
    var i :| 0 <= i < |t.read| && t.read[i] == p;
  }

  /** Every existing file that a parsed one includes has been parsed too. */
  lemma ParsedIsClosed(fs: Files, path: Path, p: Path, q: Path)
    requires p in ReadFile(fs, path, NOTHING).read && q in Includes(fs, p) && fs.resolve(q) in fs.text
    ensures exists r :: r in ReadFile(fs, path, NOTHING).read && fs.resolve(r) == fs.resolve(q)
  {
    var t := ReadFile(fs, path, NOTHING);
    FileGrew(fs, path, NOTHING);
    var i :| 0 <= i < |t.read| && t.read[i] == p;
    assert fs.resolve(q) in t.visited;
    var j :| 0 <= j < |t.read| && fs.resolve(t.read[j]) == fs.resolve(q);
    assert t.read[j] in t.read;
  }

  /** Where the name a file is reached by makes no difference, the files parsed are exactly the
      existing files reachable through Include. */
  lemma ParsedIffReachable(fs: Files, path: Path, file: Path)
    requires SameDirectories(fs) && file in fs.text
    ensures (exists p :: p in ReadFile(fs, path, NOTHING).read && fs.resolve(p) == file) <==>
            (exists p :: Reaches(fs, path, p) && fs.resolve(p) == file)
  {
    var t := ReadFile(fs, path, NOTHING);
    FileGrew(fs, path, NOTHING);
    if p :| p in t.read && fs.resolve(p) == file {
      ParsedIsReachable(fs, path, p);
    }
    if p :| Reaches(fs, path, p) && fs.resolve(p) == file {
      var n: nat :| ReachesIn(fs, path, p, n);
      ScanIsClosed(fs, t);
      ReachableIsVisited(fs, t, path, p, n);
      var i :| 0 <= i < |t.read| && fs.resolve(t.read[i]) == file;
      assert t.read[i] in t.read;
    }
  }
}
