/** Listing the aliases of a block list against resolving one of them. */
module SshAliases {
  import opened Common
  import opened SshText
  import opened SshConfigReader

  /** `_is_literal_pattern` */
  predicate Literal(pattern: string) {
    !("!" <= pattern) && '*' !in pattern && '?' !in pattern
  }

  datatype Fields = Fields(hostname: Option<string>, port: Option<int>, user: Option<string>)

  const UNSET := Fields(None, None, None)

  datatype AliasOption = AliasOption(alias: string, hostname: string, port: Option<int>, user: Option<string>)

  /** The schemas of both answers reject other ports. */
  predicate ValidPort(port: Option<int>) {
    port.Some? ==> 1 <= port.value <= 65535
  }

  predicate Mentions(block: Block, alias: string) {
    Literal(alias) && alias in block.patterns
  }

  /** The fields a block sets replace earlier ones. */
  function Overlay(fields: Fields, block: Block): Fields {
    Fields(if block.hostname.Some? then block.hostname else fields.hostname,
           if block.port.Some? then block.port else fields.port,
           if block.user.Some? then block.user else fields.user)
  }

  /** The fields of an alias after all blocks; None when no block names it literally. */
  function Resolve(blocks: seq<Block>, alias: string): Option<Fields> {
    if blocks == [] then None
    else
      var last := blocks[|blocks| - 1];
      var before := Resolve(blocks[..|blocks| - 1], alias);
      if !Mentions(last, alias) then before
      else Some(Overlay(if before.Some? then before.value else UNSET, last))
  }

  /** An unset or empty host name stands for the alias itself. */
  function OptionOf(alias: string, fields: Fields): AliasOption {
    var hostname := if fields.hostname.Some? && fields.hostname.value != "" then fields.hostname.value else alias;
    AliasOption(alias, hostname, fields.port, fields.user)
  }

  // ------------------------------------------------------------ what resolution means

  /** Block `k` is the last one that names the alias and sets what `of` reads. */
  ghost predicate LastSets<T(!new)>(blocks: seq<Block>, alias: string, of: Block -> Option<T>, k: nat) {
    && k < |blocks| && Mentions(blocks[k], alias) && of(blocks[k]).Some?
    && forall j :: k < j < |blocks| && Mentions(blocks[j], alias) ==> of(blocks[j]).None?
  }

  ghost predicate LastEntryWins<T(!new)>(blocks: seq<Block>, alias: string, of: Block -> Option<T>, field: Option<T>) {
    match field
    case Some(v) => exists k: nat :: LastSets(blocks, alias, of, k) && of(blocks[k]) == field
    case None => forall k :: 0 <= k < |blocks| && Mentions(blocks[k], alias) ==> of(blocks[k]).None?
  }

  lemma ExtendLast<T(!new)>(blocks: seq<Block>, block: Block, alias: string, of: Block -> Option<T>, field: Option<T>)
    requires LastEntryWins(blocks, alias, of, field)
    ensures LastEntryWins(blocks + [block], alias, of,
              if Mentions(block, alias) && of(block).Some? then of(block) else field)
  {
    var all := blocks + [block];
    if Mentions(block, alias) && of(block).Some? {
      assert LastSets(all, alias, of, |blocks|);
    } else if field.Some? {
      var k: nat :| LastSets(blocks, alias, of, k) && of(blocks[k]) == field;
      assert LastSets(all, alias, of, k);
    }
  }

  /** Each field of a resolved alias is set by the last block that names the alias literally and
      sets that field; the alias is found exactly when some block names it. */
  lemma {:induction false} ResolveIsLastEntryWins(blocks: seq<Block>, alias: string)
    ensures Resolve(blocks, alias).Some? <==> exists k :: 0 <= k < |blocks| && Mentions(blocks[k], alias)
    ensures var fields := if Resolve(blocks, alias).Some? then Resolve(blocks, alias).value else UNSET;
            && LastEntryWins(blocks, alias, (b: Block) => b.hostname, fields.hostname)
            && LastEntryWins(blocks, alias, (b: Block) => b.port, fields.port)
            && LastEntryWins(blocks, alias, (b: Block) => b.user, fields.user)
  {
    if blocks != [] {
      var n := |blocks| - 1;
      var front, last := blocks[..n], blocks[n];
      assert front + [last] == blocks;
      ResolveIsLastEntryWins(front, alias);
      var before := if Resolve(front, alias).Some? then Resolve(front, alias).value else UNSET;
      ExtendLast(front, last, alias, (b: Block) => b.hostname, before.hostname);
      ExtendLast(front, last, alias, (b: Block) => b.port, before.port);
      ExtendLast(front, last, alias, (b: Block) => b.user, before.user);
      if k :| 0 <= k < |blocks| && Mentions(blocks[k], alias) {
        assert k < n ==> Mentions(front[k], alias);
      }
      if Resolve(front, alias).Some? {
        var k :| 0 <= k < |front| && Mentions(front[k], alias);
        assert Mentions(blocks[k], alias);
      }
    }
  }

  // ---------------------------------------------------------------------------- listing

  function Patterns(blocks: seq<Block>): seq<string> {
    if blocks == [] then [] else Patterns(blocks[..|blocks| - 1]) + blocks[|blocks| - 1].patterns
  }

  /** The literal patterns, each at its first occurrence. */
  function FirstSeen(names: seq<string>): seq<string> {
    if names == [] then []
    else
      var front, last := FirstSeen(names[..|names| - 1]), names[|names| - 1];
      if Literal(last) && last !in front then front + [last] else front
  }

  lemma {:induction false} FirstSeenContents(names: seq<string>)
    ensures forall i, j :: 0 <= i < j < |FirstSeen(names)| ==> FirstSeen(names)[i] != FirstSeen(names)[j]
    ensures forall a :: a in FirstSeen(names) <==> Literal(a) && a in names
  {
    if names != [] {
      FirstSeenContents(names[..|names| - 1]);
      assert names == names[..|names| - 1] + [names[|names| - 1]];
    }
  }

  /** The listing's order is that of first appearance. */
  lemma {:induction false} FirstSeenOrder(names: seq<string>, i: nat, j: nat)
    requires i < j < |FirstSeen(names)|
    ensures exists p :: 0 <= p < |names| && names[p] == FirstSeen(names)[i]
                        && FirstSeen(names)[j] !in names[..p + 1]
  {
    var n := |names| - 1;
    var front := names[..n];
    FirstSeenContents(front);
    if j < |FirstSeen(front)| {
      FirstSeenOrder(front, i, j);
      var p :| 0 <= p < n && front[p] == FirstSeen(front)[i] && FirstSeen(front)[j] !in front[..p + 1];
      assert names[p] == front[p] && names[..p + 1] == front[..p + 1];
    } else {
      assert FirstSeen(names)[i] in FirstSeen(front);
      var p :| 0 <= p < n && front[p] == FirstSeen(names)[i];
      assert names[p] == front[p] && names[..p + 1] == front[..p + 1];
    }
  }

  lemma {:induction false} FoundIffSeen(blocks: seq<Block>, alias: string)
    ensures Resolve(blocks, alias).Some? <==> Literal(alias) && alias in Patterns(blocks)
  {
    if blocks != [] {
      FoundIffSeen(blocks[..|blocks| - 1], alias);
    }
  }

  datatype Resolved = NotFound | Found(option: AliasOption) | Rejected

  /** `resolve_alias`; `Rejected` stands for the schema's validation error. */
  function ResolveAlias(blocks: seq<Block>, alias: string): Resolved {
    match Resolve(blocks, alias)
    case None => NotFound
    case Some(fields) => if ValidPort(fields.port) then Found(OptionOf(alias, fields)) else Rejected
  }

  /** The options for resolved aliases, until one is rejected. */
  function Options(blocks: seq<Block>, order: seq<string>): Option<seq<AliasOption>> {
    if order == [] then Some([])
    else
      var last := order[|order| - 1];
      match Options(blocks, order[..|order| - 1])
      case None => None
      case Some(front) =>
        match ResolveAlias(blocks, last)
        case Found(option) => Some(front + [option])
        case _ => None
  }

  /** `list_host_aliases` */
  function ListAliases(blocks: seq<Block>): Option<seq<AliasOption>> {
    Options(blocks, FirstSeen(Patterns(blocks)))
  }

  lemma {:induction false} OptionsContents(blocks: seq<Block>, order: seq<string>)
    ensures Options(blocks, order).Some? <==> forall a :: a in order ==> ResolveAlias(blocks, a).Found?
    ensures Options(blocks, order).Some? ==>
              var options := Options(blocks, order).value;
              |options| == |order|
              && forall i :: 0 <= i < |order| ==>
                   options[i].alias == order[i] && ResolveAlias(blocks, order[i]) == Found(options[i])
  {
    if order != [] {
      OptionsContents(blocks, order[..|order| - 1]);
      assert order == order[..|order| - 1] + [order[|order| - 1]];
    }
  }

  /** For every block list: the listing fails exactly when resolving some alias is rejected;
      otherwise it holds each resolvable alias once, with what resolving it returns. */
  lemma ListingAgreesWithResolution(blocks: seq<Block>)
    ensures ListAliases(blocks).None? <==> exists alias :: ResolveAlias(blocks, alias).Rejected?
    ensures ListAliases(blocks).Some? ==>
              var options := ListAliases(blocks).value;
              && (forall i, j :: 0 <= i < j < |options| ==> options[i].alias != options[j].alias)
              && (forall option :: option in options <==> ResolveAlias(blocks, option.alias) == Found(option))
  {
    var order := FirstSeen(Patterns(blocks));
    FirstSeenContents(Patterns(blocks));
    OptionsContents(blocks, order);
    forall alias ensures alias in order <==> Resolve(blocks, alias).Some? {
      FoundIffSeen(blocks, alias);
    }
    if ListAliases(blocks).Some? {
      var options := ListAliases(blocks).value;
      forall option ensures option in options <==> ResolveAlias(blocks, option.alias) == Found(option) {
        if ResolveAlias(blocks, option.alias) == Found(option) {
          var i :| 0 <= i < |order| && order[i] == option.alias;
          assert options[i] == option;
        }
        if option in options {
          var i :| 0 <= i < |options| && options[i] == option;
          assert order[i] == option.alias;
        }
      }
    }
  }

  /** Block `k` gives the alias its port in the end, and the schema rejects it. */
  ghost predicate GivesBadPort(blocks: seq<Block>, alias: string, k: nat) {
    && LastSets(blocks, alias, (b: Block) => b.port, k)
    && !(1 <= blocks[k].port.value <= 65535)
  }

  /** The whole listing fails exactly when, for some alias, the last entry that names it and sets
      a port sets one out of range. An entry whose port is overridden later does no harm. */
  lemma ListingFailsIff(blocks: seq<Block>)
    ensures ListAliases(blocks).None? <==> exists alias, k :: GivesBadPort(blocks, alias, k)
  {
    ListingAgreesWithResolution(blocks);
    if alias :| ResolveAlias(blocks, alias).Rejected? {
      ResolveIsLastEntryWins(blocks, alias);
      var fields := Resolve(blocks, alias).value;
      var k: nat :| LastSets(blocks, alias, (b: Block) => b.port, k) && blocks[k].port == fields.port;
      assert GivesBadPort(blocks, alias, k);
    }
    if alias, k :| GivesBadPort(blocks, alias, k) {
      ResolveIsLastEntryWins(blocks, alias);
      var fields := Resolve(blocks, alias).value;
      LastIsUnique(blocks, alias, (b: Block) => b.port, k, fields.port);
      assert ResolveAlias(blocks, alias).Rejected?;
    }
  }

  lemma LastIsUnique<T(!new)>(blocks: seq<Block>, alias: string, of: Block -> Option<T>, k: nat, field: Option<T>)
    requires LastSets(blocks, alias, of, k) && LastEntryWins(blocks, alias, of, field)
    ensures of(blocks[k]) == field
  {
    if field.Some? {
      var j: nat :| LastSets(blocks, alias, of, j) && of(blocks[j]) == field;
      assert j == k;
    }
  }

  /** Such an alias makes the listing fail for all, though every other one still resolves. */
  lemma OneBadPortHidesAll(blocks: seq<Block>, alias: string, port: int, other: string)
    requires Literal(alias) && !(1 <= port <= 65535) && other != alias
    ensures var after := blocks + [Block([alias], None, Some(port), None)];
            ListAliases(after).None? && ResolveAlias(after, other) == ResolveAlias(blocks, other)
  {
    var bad := Block([alias], None, Some(port), None);
    ResolveSnoc(blocks, bad, other);
    ListingFailsIff(blocks + [bad]);
    assert GivesBadPort(blocks + [bad], alias, |blocks|);
  }

  // ---------------------------------------------------------------------------- the loops

  /** The first `j` patterns of a block. */
  function Part(block: Block, j: nat): Block
    requires j <= |block.patterns|
  {
    block.(patterns := block.patterns[..j])
  }

  lemma ResolveSnoc(blocks: seq<Block>, block: Block, alias: string)
    ensures Resolve(blocks + [block], alias) ==
            if !Mentions(block, alias) then Resolve(blocks, alias)
            else Some(Overlay(if Resolve(blocks, alias).Some? then Resolve(blocks, alias).value else UNSET, block))
  {
    assert (blocks + [block])[..|blocks|] == blocks;
  }

  lemma OnePatternMore(blocks: seq<Block>, block: Block, j: nat, alias: string)
    requires j < |block.patterns|
    ensures var before := Resolve(blocks + [Part(block, j)], alias);
            Resolve(blocks + [Part(block, j + 1)], alias) ==
            if alias == block.patterns[j] && Literal(alias)
            then Some(Overlay(if before.Some? then before.value else UNSET, block)) else before
  {
    ResolveSnoc(blocks, Part(block, j), alias);
    ResolveSnoc(blocks, Part(block, j + 1), alias);
    assert block.patterns[..j + 1] == block.patterns[..j] + [block.patterns[j]];
  }

  /** The dictionary holds exactly the aliases resolved so far, with their fields. */
  ghost predicate Merges(merged: map<string, Fields>, blocks: seq<Block>) {
    forall a :: Resolve(blocks, a) == if a in merged then Some(merged[a]) else None
  }

  /** One pattern of one block. */
  function MergePattern(merged: map<string, Fields>, block: Block, pattern: string): map<string, Fields> {
    if !Literal(pattern) then merged
    else merged[pattern := Overlay(if pattern in merged then merged[pattern] else UNSET, block)]
  }

  lemma MergePatternMerges(merged: map<string, Fields>, blocks: seq<Block>, block: Block, j: nat)
    requires j < |block.patterns| && Merges(merged, blocks + [Part(block, j)])
    ensures Merges(MergePattern(merged, block, block.patterns[j]), blocks + [Part(block, j + 1)])
  {
    forall a
      ensures var after := MergePattern(merged, block, block.patterns[j]);
              Resolve(blocks + [Part(block, j + 1)], a) == if a in after then Some(after[a]) else None
    {
      OnePatternMore(blocks, block, j, a);
    }
  }

  lemma SeenSnoc(names: seq<string>, name: string)
    ensures FirstSeen(names + [name]) ==
            if Literal(name) && name !in FirstSeen(names) then FirstSeen(names) + [name] else FirstSeen(names)
  {
    assert (names + [name])[..|names|] == names;
  }

  lemma EmptyPart(blocks: seq<Block>, block: Block, merged: map<string, Fields>)
    requires Merges(merged, blocks)
    ensures Merges(merged, blocks + [Part(block, 0)])
  {
    forall a ensures Resolve(blocks + [Part(block, 0)], a) == Resolve(blocks, a) {
      ResolveSnoc(blocks, Part(block, 0), a);
    }
  }

  /** The order after one more pattern. */
  function MergeOrder(order: seq<string>, merged: map<string, Fields>, pattern: string): seq<string> {
    if Literal(pattern) && pattern !in merged then order + [pattern] else order
  }

  lemma NextPattern(names: seq<string>, patterns: seq<string>, j: nat)
    requires j < |patterns|
    ensures names + patterns[..j + 1] == (names + patterns[..j]) + [patterns[j]]
  {
  }

  lemma MergeOrderSeen(merged: map<string, Fields>, order: seq<string>, block: Block, j: nat, blocks: seq<Block>)
    requires j < |block.patterns| && Merges(merged, blocks + [Part(block, j)])
    requires order == FirstSeen(Patterns(blocks) + block.patterns[..j])
    ensures MergeOrder(order, merged, block.patterns[j]) == FirstSeen(Patterns(blocks) + block.patterns[..j + 1])
  {
    var names, pattern := Patterns(blocks), block.patterns[j];
    NextPattern(names, block.patterns, j);
    SeenSnoc(names + block.patterns[..j], pattern);
    SeenIffMerged(names, block.patterns[..j], blocks, Part(block, j), pattern);
  }

  lemma WholeBlock(names: seq<string>, block: Block)
    ensures names + block.patterns[..0] == names && names + block.patterns[..|block.patterns|] == names + block.patterns
    ensures Part(block, |block.patterns|) == block
  {
    assert block.patterns[..|block.patterns|] == block.patterns;
  }

  /** One block of `list_host_aliases`. */
  method MergeBlock(merged: map<string, Fields>, order: seq<string>, block: Block, ghost blocks: seq<Block>)
    returns (merged': map<string, Fields>, order': seq<string>)
    requires Merges(merged, blocks) && order == FirstSeen(Patterns(blocks))
    ensures Merges(merged', blocks + [block]) && order' == FirstSeen(Patterns(blocks) + block.patterns)
  {
    merged', order' := merged, order;
    EmptyPart(blocks, block, merged);
    WholeBlock(Patterns(blocks), block);
    for j := 0 to |block.patterns|
      invariant Merges(merged', blocks + [Part(block, j)])
      invariant order' == FirstSeen(Patterns(blocks) + block.patterns[..j])
    {
      MergeOrderSeen(merged', order', block, j, blocks);
      MergePatternMerges(merged', blocks, block, j);
      order' := MergeOrder(order', merged', block.patterns[j]);
      merged' := MergePattern(merged', block, block.patterns[j]);
    }
  }

  lemma SeenIffMerged(names: seq<string>, part: seq<string>, blocks: seq<Block>, block: Block, alias: string)
    requires names == Patterns(blocks) && block.patterns == part
    ensures alias in FirstSeen(names + part) <==> Resolve(blocks + [block], alias).Some?
  {
    assert (blocks + [block])[..|blocks|] == blocks;
    FirstSeenContents(names + part);
    FoundIffSeen(blocks + [block], alias);
  }

  /** The first loop of `list_host_aliases`. */
  method MergeBlocks(blocks: seq<Block>) returns (merged: map<string, Fields>, order: seq<string>)
    ensures Merges(merged, blocks) && order == FirstSeen(Patterns(blocks))
  {
    merged, order := map[], [];
    for i := 0 to |blocks|
      invariant Merges(merged, blocks[..i]) && order == FirstSeen(Patterns(blocks[..i]))
    {
      assert blocks[..i + 1] == blocks[..i] + [blocks[i]];
      assert blocks[..i + 1][..i] == blocks[..i];
      merged, order := MergeBlock(merged, order, blocks[i], blocks[..i]);
    }
    assert blocks[..|blocks|] == blocks;
  }

  /** `list_host_aliases`, once the blocks are read. */
  method ListHostAliases(blocks: seq<Block>) returns (options: Option<seq<AliasOption>>)
    ensures options == ListAliases(blocks)
  {
    var merged, order := MergeBlocks(blocks);
    FirstSeenContents(Patterns(blocks));
    var listed: seq<AliasOption> := [];
    for i := 0 to |order|
      invariant Options(blocks, order[..i]) == Some(listed)
    {
      assert order[..i + 1][..i] == order[..i];
      var alias := order[i];
      FoundIffSeen(blocks, alias);
      if !ValidPort(merged[alias].port) {
        RejectedStays(blocks, order, i + 1);
        return None;
      }
      listed := listed + [OptionOf(alias, merged[alias])];
    }
    assert order[..|order|] == order;
    return Some(listed);
  }

  lemma RejectedStays(blocks: seq<Block>, order: seq<string>, n: nat)
    requires n <= |order| && Options(blocks, order[..n]).None?
    ensures Options(blocks, order).None?
  {
    OptionsContents(blocks, order[..n]);
    OptionsContents(blocks, order);
  }

  /** `resolve_alias`, once the blocks are read. */
  method ResolveHostAlias(blocks: seq<Block>, alias: string) returns (resolved: Resolved)
    ensures resolved == ResolveAlias(blocks, alias)
  {
    var found := false;
    var fields := UNSET;
    for i := 0 to |blocks|
      invariant Resolve(blocks[..i], alias) == if found then Some(fields) else None
      invariant !found ==> fields == UNSET
    {
      assert blocks[..i + 1][..i] == blocks[..i];
      var j := 0;
      while j < |blocks[i].patterns| && !(Literal(blocks[i].patterns[j]) && blocks[i].patterns[j] == alias)
        invariant j <= |blocks[i].patterns|
        invariant Literal(alias) ==> alias !in blocks[i].patterns[..j]
      {
        j := j + 1;
      }
      if j < |blocks[i].patterns| {
        found := true;
        fields := Overlay(fields, blocks[i]);
      }
    }
    assert blocks[..|blocks|] == blocks;
    if !found {
      return NotFound;
    }
    return if ValidPort(fields.port) then Found(OptionOf(alias, fields)) else Rejected;
  }
}
