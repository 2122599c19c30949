/** The camera claim registry: who pins which camera with which settings. */
module CameraClaims {
  import opened Common

  type Key = string
  type Holder = string

  datatype Settings = Settings(width: int, height: int, fps: int)

  /** `key` is the canonical text of the camera's fingerprint. */
  datatype Claim = Claim(key: Key, settings: Settings, holder: Holder, project: string)

  /** The claims on one camera, in the order their holders first claimed it. */
  type Holders = seq<Claim>

  datatype Registry = Registry(claims: map<Key, Holders>, generation: map<Holder, nat>)

  const EMPTY := Registry(map[], map[])

  datatype Outcome = Conflict(pinned: Claim, requested: Settings) | Pinned(generation: nat)

  // -------------------------------------------------------------------------- operations

  /** Assign a holder's claim; a holder already there keeps its place. */
  function Put(holders: Holders, claim: Claim): (r: Holders)
    ensures r != []
  {
    if holders == [] then [claim]
    else if holders[0].holder == claim.holder then [claim] + holders[1..]
    else [holders[0]] + Put(holders[1..], claim)
  }

  function Without(holders: Holders, holder: Holder): Holders {
    if holders == [] then []
    else if holders[0].holder == holder then holders[1..]
    else [holders[0]] + Without(holders[1..], holder)
  }

  function HoldersOf(claims: map<Key, Holders>, key: Key): Holders {
    if key in claims then claims[key] else []
  }

  /** The first claim of a batch that disagrees with the first holder of its camera. */
  function FirstConflict(claims: map<Key, Holders>, batch: seq<Claim>): Option<Claim> {
    if batch == [] then None
    else
      var pins := HoldersOf(claims, batch[0].key);
      if pins != [] && pins[0].settings != batch[0].settings then Some(batch[0])
      else FirstConflict(claims, batch[1..])
  }

  function PutAll(claims: map<Key, Holders>, batch: seq<Claim>): map<Key, Holders> {
    if batch == [] then claims
    else
      var last := batch[|batch| - 1];
      var before := PutAll(claims, batch[..|batch| - 1]);
      before[last.key := Put(HoldersOf(before, last.key), last)]
  }

  function Bumped(generation: map<Holder, nat>, holder: Holder): map<Holder, nat> {
    generation[holder := (if holder in generation then generation[holder] else 0) + 1]
  }

  /** `CameraClaimRegistry.claim` */
  function ClaimAll(r: Registry, batch: seq<Claim>): (Registry, Outcome) {
    match FirstConflict(r.claims, batch)
    case Some(c) => (r, Conflict(if HoldersOf(r.claims, c.key) != [] then HoldersOf(r.claims, c.key)[0] else c, c.settings))
    case None =>
      if batch == [] then (r, Pinned(0))
      else
        var next := Registry(PutAll(r.claims, batch), Bumped(r.generation, batch[0].holder));
        (next, Pinned(next.generation[batch[0].holder]))
  }

  /** `CameraClaimRegistry.release` */
  function Released(r: Registry, holder: Holder, generation: Option<nat>): Registry {
    if generation.Some? && !(holder in r.generation && r.generation[holder] == generation.value) then r
    else r.(claims := map k | k in r.claims && Without(r.claims[k], holder) != [] :: Without(r.claims[k], holder))
  }

  // --------------------------------------------------------------------------- invariant

  predicate DistinctHolders(holders: Holders) {
    forall i, j :: 0 <= i < j < |holders| ==> holders[i].holder != holders[j].holder
  }

  /** One camera's entry: never empty, one claim a holder, all for this camera. */
  predicate EntryInv(key: Key, holders: Holders) {
    holders != [] && DistinctHolders(holders) && forall i :: 0 <= i < |holders| ==> holders[i].key == key
  }

  predicate RegistryInv(claims: map<Key, Holders>) {
    forall k :: k in claims ==> EntryInv(k, claims[k])
  }

  predicate Agree(holders: Holders) {
    forall i, j :: 0 <= i < |holders| && 0 <= j < |holders| ==> holders[i].settings == holders[j].settings
  }

  /** All holders of a camera have equal settings. */
  predicate Consistent(claims: map<Key, Holders>) {
    forall k :: k in claims ==> Agree(claims[k])
  }

  lemma {:induction false} PutContents(holders: Holders, claim: Claim)
    requires DistinctHolders(holders)
    ensures DistinctHolders(Put(holders, claim))
    ensures forall c :: c in Put(holders, claim) <==> c == claim || (c in holders && c.holder != claim.holder)
  {
    if holders != [] {
      var rest := holders[1..];
      assert holders == [holders[0]] + rest;
      if holders[0].holder == claim.holder {
        forall c | c in rest ensures c.holder != claim.holder {
        }
      } else {
        PutContents(rest, claim);
        forall c | c in Put(rest, claim) ensures c.holder != holders[0].holder {
        }
      }
    }
  }

  lemma {:induction false} WithoutContents(holders: Holders, holder: Holder)
    requires DistinctHolders(holders)
    ensures DistinctHolders(Without(holders, holder))
    ensures forall c :: c in Without(holders, holder) <==> c in holders && c.holder != holder
  {
    if holders != [] {
      var rest := holders[1..];
      assert holders == [holders[0]] + rest;
      if holders[0].holder != holder {
        WithoutContents(rest, holder);
        forall c | c in Without(rest, holder) ensures c.holder != holders[0].holder {
        }
      }
    }
  }

  // ------------------------------------------------------------------------ what a claim does

  predicate SameSlot(c: Claim, d: Claim) {
    c.key == d.key && c.holder == d.holder
  }

  /** `c` is the batch's last claim of its camera for its holder. */
  ghost predicate Final(batch: seq<Claim>, c: Claim) {
    exists i :: 0 <= i < |batch| && batch[i] == c && forall j :: i < j < |batch| ==> !SameSlot(batch[j], c)
  }

  ghost predicate Touches(batch: seq<Claim>, c: Claim) {
    exists i :: 0 <= i < |batch| && SameSlot(batch[i], c)
  }

  /** The claim `c` is on camera `k` once the batch is accepted. */
  ghost predicate Ends(claims: map<Key, Holders>, batch: seq<Claim>, k: Key, c: Claim) {
    (Final(batch, c) && c.key == k) || (c in HoldersOf(claims, k) && !Touches(batch, c))
  }

  /** The final claims of one camera agree. */
  ghost predicate BatchAgrees(batch: seq<Claim>) {
    forall c, d :: Final(batch, c) && Final(batch, d) && c.key == d.key ==> c.settings == d.settings
  }

  lemma FinalSnoc(batch: seq<Claim>, last: Claim, c: Claim)
    ensures Final(batch + [last], c) <==> c == last || (Final(batch, c) && !SameSlot(last, c))
    ensures Touches(batch + [last], c) <==> Touches(batch, c) || SameSlot(last, c)
  {
    var all := batch + [last];
    assert all[|batch|] == last;
    if Final(batch, c) && !SameSlot(last, c) {
      var i :| 0 <= i < |batch| && batch[i] == c && forall j :: i < j < |batch| ==> !SameSlot(batch[j], c);
      assert all[i] == c;
    }
    if Final(all, c) && c != last {
      var i :| 0 <= i < |all| && all[i] == c && forall j :: i < j < |all| ==> !SameSlot(all[j], c);
      assert forall j :: i < j < |batch| ==> all[j] == batch[j];
      assert batch[i] == c;
    }
    if Touches(batch, c) {
      var i :| 0 <= i < |batch| && SameSlot(batch[i], c);
      assert all[i] == batch[i];
    }
    if Touches(all, c) && !SameSlot(last, c) {
      var i :| 0 <= i < |all| && SameSlot(all[i], c);
      assert all[i] == batch[i];
    }
  }

  /** Afterwards a camera is held by the batch's final claims and by the untouched old ones. */
  lemma {:induction false} PutAllContents(claims: map<Key, Holders>, batch: seq<Claim>)
    requires RegistryInv(claims)
    ensures RegistryInv(PutAll(claims, batch))
    ensures forall k, c :: c in HoldersOf(PutAll(claims, batch), k) <==> Ends(claims, batch, k, c)
  {
    if batch != [] {
      var front, last := batch[..|batch| - 1], batch[|batch| - 1];
      var before := PutAll(claims, front);
      PutAllContents(claims, front);
      PutContents(HoldersOf(before, last.key), last);
      assert batch == front + [last];
      forall k, c ensures c in HoldersOf(PutAll(claims, batch), k) <==> Ends(claims, batch, k, c) {
        EndsSnoc(claims, front, last, k, c);
      }
      PutKeepsEntry(before, last);
    }
  }

  lemma EndsSnoc(claims: map<Key, Holders>, batch: seq<Claim>, last: Claim, k: Key, c: Claim)
    requires RegistryInv(claims)
    ensures Ends(claims, batch + [last], k, c) <==>
            if k == last.key then c == last || (Ends(claims, batch, k, c) && c.holder != last.holder)
            else Ends(claims, batch, k, c)
  {
    FinalSnoc(batch, last, c);
    assert c in HoldersOf(claims, k) ==> c.key == k;
  }

  lemma PutKeepsEntry(claims: map<Key, Holders>, last: Claim)
    requires RegistryInv(claims)
    ensures RegistryInv(claims[last.key := Put(HoldersOf(claims, last.key), last)])
  {
    var entry := Put(HoldersOf(claims, last.key), last);
    PutContents(HoldersOf(claims, last.key), last);
    forall i | 0 <= i < |entry| ensures entry[i].key == last.key {
      assert entry[i] in entry;
    }
  }

  /** A batch is rejected exactly when some camera of it is pinned with other settings. */
  lemma {:induction false} ConflictIff(claims: map<Key, Holders>, batch: seq<Claim>)
    requires RegistryInv(claims) && Consistent(claims)
    ensures FirstConflict(claims, batch).Some? <==>
            exists i, c :: 0 <= i < |batch| && c in HoldersOf(claims, batch[i].key) && c.settings != batch[i].settings
  {
    if batch != [] {
      ConflictIff(claims, batch[1..]);
      var pins := HoldersOf(claims, batch[0].key);
      if pins != [] && pins[0].settings != batch[0].settings {
        assert pins[0] in HoldersOf(claims, batch[0].key);
      }
      if i, c :| 0 <= i < |batch| && c in HoldersOf(claims, batch[i].key) && c.settings != batch[i].settings {
        if i > 0 {
          assert batch[1..][i - 1] == batch[i];
        } else {
          var j :| 0 <= j < |pins| && pins[j] == c;
          assert pins[j].settings == pins[0].settings;
        }
      }
      if i, c :| 0 <= i < |batch[1..]| && c in HoldersOf(claims, batch[1..][i].key)
                 && c.settings != batch[1..][i].settings {
        assert batch[i + 1] == batch[1..][i];
      }
    }
  }

  /** An accepted batch keeps all holders in agreement exactly when its own final claims of one
      camera agree. */
  lemma AcceptedKeepsAgreementIff(claims: map<Key, Holders>, batch: seq<Claim>)
    requires RegistryInv(claims) && Consistent(claims) && FirstConflict(claims, batch).None?
    ensures Consistent(PutAll(claims, batch)) <==> BatchAgrees(batch)
  {
    PutAllContents(claims, batch);
    if Consistent(PutAll(claims, batch)) {
      forall c, d | Final(batch, c) && Final(batch, d) && c.key == d.key ensures c.settings == d.settings {
        assert Ends(claims, batch, c.key, c) && Ends(claims, batch, c.key, d);
        assert c in HoldersOf(PutAll(claims, batch), c.key) && d in HoldersOf(PutAll(claims, batch), c.key);
      }
    }
    if BatchAgrees(batch) {
      forall k | k in PutAll(claims, batch) ensures Agree(PutAll(claims, batch)[k]) {
        EntryAgrees(claims, batch, k, PutAll(claims, batch)[k]);
      }
    }
  }

  lemma EntryAgrees(claims: map<Key, Holders>, batch: seq<Claim>, k: Key, entry: Holders)
    requires RegistryInv(claims) && Consistent(claims) && FirstConflict(claims, batch).None?
    requires BatchAgrees(batch) && forall c :: c in entry ==> Ends(claims, batch, k, c)
    ensures Agree(entry)
  {
    ConflictIff(claims, batch);
    forall i, j | 0 <= i < |entry| && 0 <= j < |entry| ensures entry[i].settings == entry[j].settings {
      assert entry[i] in entry && entry[j] in entry;
      PairAgrees(claims, batch, k, entry[i], entry[j]);
    }
  }

  lemma PairAgrees(claims: map<Key, Holders>, batch: seq<Claim>, k: Key, c: Claim, d: Claim)
    requires Consistent(claims) && RegistryInv(claims)
    requires forall i, p :: 0 <= i < |batch| && p in HoldersOf(claims, batch[i].key) ==> p.settings == batch[i].settings
    requires (Final(batch, c) && c.key == k) || c in HoldersOf(claims, k)
    requires (Final(batch, d) && d.key == k) || d in HoldersOf(claims, k)
    requires Final(batch, c) && Final(batch, d) ==> c.settings == d.settings
    ensures c.settings == d.settings
  {
    if Final(batch, c) && d in HoldersOf(claims, k) && c.key == k {
      var i :| 0 <= i < |batch| && batch[i] == c;
    } else if Final(batch, d) && c in HoldersOf(claims, k) && d.key == k {
      var i :| 0 <= i < |batch| && batch[i] == d;
    }
  }

  predicate OneHolder(batch: seq<Claim>) {
    forall i :: 0 <= i < |batch| ==> batch[i].holder == batch[0].holder
  }

  /** What callers send agrees with itself, even when it names a camera twice. */
  lemma OneHolderAgrees(batch: seq<Claim>)
    requires OneHolder(batch)
    ensures BatchAgrees(batch)
  {
    forall c, d | Final(batch, c) && Final(batch, d) && c.key == d.key ensures c == d {
      var i :| 0 <= i < |batch| && batch[i] == c && forall j :: i < j < |batch| ==> !SameSlot(batch[j], c);
      var j :| 0 <= j < |batch| && batch[j] == d && forall k :: j < k < |batch| ==> !SameSlot(batch[k], d);
      assert i < j ==> SameSlot(batch[j], c);
      assert j < i ==> SameSlot(batch[i], d);
    }
  }

  // --------------------------------------------------------------------------- release

  /** A current release removes all and only the holder's claims; a stale one does nothing. */
  lemma ReleaseContents(r: Registry, holder: Holder, generation: Option<nat>)
    requires RegistryInv(r.claims) && Consistent(r.claims)
    ensures var t := Released(r, holder, generation);
            var current := generation.None? || (holder in r.generation && r.generation[holder] == generation.value);
            && RegistryInv(t.claims) && Consistent(t.claims) && t.generation == r.generation
            && (forall k, c :: c in HoldersOf(t.claims, k) <==>
                                 c in HoldersOf(r.claims, k) && (current ==> c.holder != holder))
  {
    var t := Released(r, holder, generation);
    if generation.None? || (holder in r.generation && r.generation[holder] == generation.value) {
      forall k | k in r.claims
        ensures forall c :: c in Without(r.claims[k], holder) <==> c in r.claims[k] && c.holder != holder
        ensures DistinctHolders(Without(r.claims[k], holder))
      {
        WithoutContents(r.claims[k], holder);
      }
      forall k | k in t.claims ensures EntryInv(k, t.claims[k]) && Agree(t.claims[k]) {
        EntryShrinks(k, r.claims[k], t.claims[k]);
      }
    }
  }

  lemma EntryShrinks(key: Key, before: Holders, after: Holders)
    requires EntryInv(key, before) && Agree(before) && after != [] && DistinctHolders(after)
    requires forall c :: c in after ==> c in before
    ensures EntryInv(key, after) && Agree(after)
  {
    forall i | 0 <= i < |after| ensures after[i] in before {
      assert after[i] in after;
    }
  }

  // ------------------------------------------------------------------------------- runs

  datatype Step = DoClaim(batch: seq<Claim>) | DoRelease(holder: Holder, generation: Option<nat>)

  function Next(r: Registry, step: Step): Registry {
    match step
    case DoClaim(batch) => ClaimAll(r, batch).0
    case DoRelease(holder, generation) => Released(r, holder, generation)
  }

  /** Every batch names one holder, as the session endpoint builds it. */
  ghost predicate Run(states: seq<Registry>, steps: seq<Step>) {
    && |states| == |steps| + 1
    && states[0] == EMPTY
    && forall i {:trigger steps[i]} :: 0 <= i < |steps| ==>
         (steps[i].DoClaim? ==> OneHolder(steps[i].batch)) && states[i + 1] == Next(states[i], steps[i])
  }

  /** In every run all holders of a camera have equal settings and no entry is empty. */
  lemma {:induction false} HoldersAlwaysAgree(states: seq<Registry>, steps: seq<Step>, n: nat)
    requires Run(states, steps) && n <= |steps|
    ensures RegistryInv(states[n].claims) && Consistent(states[n].claims)
  {
    if n > 0 {
      HoldersAlwaysAgree(states, steps, n - 1);
      var r := states[n - 1];
      match steps[n - 1]
      case DoClaim(batch) =>
        if FirstConflict(r.claims, batch).None? {
          PutAllContents(r.claims, batch);
          AcceptedKeepsAgreementIff(r.claims, batch);
          OneHolderAgrees(batch);
        }
      case DoRelease(holder, generation) => ReleaseContents(r, holder, generation);
    }
  }

  /** Step `i` pins cameras for `holder`. */
  predicate Pins(states: seq<Registry>, steps: seq<Step>, i: nat, holder: Holder)
    requires i < |steps| && i < |states|
  {
    && steps[i].DoClaim? && steps[i].batch != [] && steps[i].batch[0].holder == holder
    && FirstConflict(states[i].claims, steps[i].batch).None?
  }

  function GenerationOf(r: Registry, holder: Holder): nat {
    if holder in r.generation then r.generation[holder] else 0
  }

  lemma {:induction false} GenerationGrows(states: seq<Registry>, steps: seq<Step>, i: nat, n: nat, holder: Holder)
    requires Run(states, steps) && i <= n <= |steps|
    ensures GenerationOf(states[i], holder) <= GenerationOf(states[n], holder)
    ensures GenerationOf(states[i], holder) == GenerationOf(states[n], holder) <==>
            forall j :: i <= j < n ==> !Pins(states, steps, j, holder)
  {
    if i < n {
      GenerationGrows(states, steps, i, n - 1, holder);
      assert Pins(states, steps, n - 1, holder) <==>
             GenerationOf(states[n], holder) != GenerationOf(states[n - 1], holder);
    }
  }

  /** A release with the generation a claim returned takes effect exactly when its holder has not
      pinned again since; otherwise it changes nothing. */
  lemma ReleaseIsCurrentIff(states: seq<Registry>, steps: seq<Step>, i: nat, n: nat, holder: Holder)
    requires Run(states, steps) && i < n <= |steps| && Pins(states, steps, i, holder)
    ensures ClaimAll(states[i], steps[i].batch).1 == Pinned(GenerationOf(states[i + 1], holder))
    ensures var t := Released(states[n], holder, Some(GenerationOf(states[i + 1], holder)));
            if forall j :: i < j < n ==> !Pins(states, steps, j, holder)
            then forall k, c :: c in HoldersOf(t.claims, k) <==> c in HoldersOf(states[n].claims, k) && c.holder != holder
            else t == states[n]
  {
    HoldersAlwaysAgree(states, steps, n);
    GenerationGrows(states, steps, i + 1, n, holder);
    ReleaseContents(states[n], holder, Some(GenerationOf(states[i + 1], holder)));
  }

  /** `i` is the first claim of the batch that some pin of its camera contradicts. */
  ghost predicate FirstToClash(claims: map<Key, Holders>, batch: seq<Claim>, i: int) {
    && 0 <= i < |batch| && Clashes(claims, batch[i])
    && forall h :: 0 <= h < i ==> !Clashes(claims, batch[h])
  }

  /** The camera's first holder pinned it with other settings. */
  predicate Clashes(claims: map<Key, Holders>, c: Claim) {
    c.key in claims && claims[c.key] != [] && claims[c.key][0].settings != c.settings
  }

  lemma {:induction false} FirstConflictIsFirst(claims: map<Key, Holders>, batch: seq<Claim>, c: Claim)
    requires FirstConflict(claims, batch) == Some(c)
    ensures exists i :: FirstToClash(claims, batch, i) && batch[i] == c
  {
    if Clashes(claims, batch[0]) {
      assert FirstToClash(claims, batch, 0);
    } else {
      FirstConflictIsFirst(claims, batch[1..], c);
      var i :| FirstToClash(claims, batch[1..], i) && batch[1..][i] == c;
      assert batch[i + 1] == batch[1..][i];
      forall h | 0 <= h < i + 1 ensures !Clashes(claims, batch[h]) {
        assert h > 0 ==> batch[h] == batch[1..][h - 1];
      }
      assert FirstToClash(claims, batch, i + 1) && batch[i + 1] == c;
    }
  }

  /** A rejected batch changes nothing and names the camera's first holder and the settings asked
      for by the first claim it contradicts; an accepted one counts a pin for its holder alone, and
      an empty one is accepted for nothing. */
  lemma ClaimOutcome(r: Registry, batch: seq<Claim>)
    ensures var (t, outcome) := ClaimAll(r, batch);
            match outcome
            case Conflict(pinned, requested) =>
              && t == r
              && exists i :: FirstToClash(r.claims, batch, i) && requested == batch[i].settings
                             && pinned == r.claims[batch[i].key][0]
            case Pinned(generation) =>
              if batch == [] then generation == 0 && t == r
              else
                && generation == GenerationOf(t, batch[0].holder) == GenerationOf(r, batch[0].holder) + 1
                && forall h :: h != batch[0].holder ==> GenerationOf(t, h) == GenerationOf(r, h)
  {
    match FirstConflict(r.claims, batch)
    case Some(c) => FirstConflictIsFirst(r.claims, batch, c);
    case None =>
  }

  /** Whoever holds a camera first stays first, whatever is claimed after. */
  lemma {:induction false} FirstHolderStays(claims: map<Key, Holders>, batch: seq<Claim>, key: Key)
    requires key in claims && claims[key] != []
    ensures var all := PutAll(claims, batch); key in all && all[key] != [] && all[key][0].holder == claims[key][0].holder
  {
    if batch != [] {
      FirstHolderStays(claims, batch[..|batch| - 1], key);
    }
  }

  lemma FirstSpeaksForAll(claims: map<Key, Holders>, key: Key)
    requires key in claims && claims[key] != []
    ensures RegistryInv(claims) && Consistent(claims) ==>
              forall c :: c in claims[key] ==> c.settings == claims[key][0].settings && c.key == key
  {
    if RegistryInv(claims) && Consistent(claims) {
      forall c | c in claims[key] ensures c.settings == claims[key][0].settings && c.key == key {
        var i :| 0 <= i < |claims[key]| && claims[key][i] == c;
      }
    }
  }

  // -------------------------------------------------------------------------- the object

  class CameraClaimRegistry {
    var claims: map<Key, Holders>
    var generation: map<Holder, nat>

    ghost function Contents(): Registry
      reads this
    {
      Registry(claims, generation)
    }

    constructor ()
      ensures Contents() == EMPTY
    {
      claims, generation := map[], map[];
    }

    /** `claim`: every camera is pinned, or nothing changes. */
    method Claim(batch: seq<Claim>) returns (outcome: Outcome)
      modifies this
      ensures (Contents(), outcome) == ClaimAll(old(Contents()), batch)
    {
      for i := 0 to |batch|
        invariant FirstConflict(claims, batch[i..]) == FirstConflict(claims, batch)
      {
        assert batch[i..][0] == batch[i] && batch[i..][1..] == batch[i + 1..];
        var pins := HoldersOf(claims, batch[i].key);
        if pins != [] && pins[0].settings != batch[i].settings {
          return Conflict(pins[0], batch[i].settings);
        }
      }
      for i := 0 to |batch|
        invariant claims == PutAll(old(claims), batch[..i]) && generation == old(generation)
      {
        assert batch[..i + 1][..i] == batch[..i];
        claims := claims[batch[i].key := Put(HoldersOf(claims, batch[i].key), batch[i])];
      }
      assert batch[..|batch|] == batch;
      if batch == [] {
        return Pinned(0);
      }
      generation := Bumped(generation, batch[0].holder);
      return Pinned(generation[batch[0].holder]);
    }

    /** `release`: drop the holder everywhere, then the entries that became empty. */
    method Release(holder: Holder, current: Option<nat>)
      modifies this
      ensures Contents() == Released(old(Contents()), holder, current)
    {
      if current.Some? && !(holder in generation && generation[holder] == current.value) {
        return;
      }
      var todo := claims.Keys;
      var left: map<Key, Holders> := map[];
      while todo != {}
        invariant todo <= claims.Keys
        invariant left == map k | k in claims && k !in todo && Without(claims[k], holder) != [] ::
                            Without(claims[k], holder)
        decreases |todo|
      {
        var k :| k in todo;
        var holders := Without(claims[k], holder);
        if holders != [] {
          left := left[k := holders];
        }
        todo := todo - {k};
      }
      claims := left;
    }

    /** `holder_of`: with all holders in agreement, the claim returned gives the settings of every
        holder of the camera, and none is returned exactly for a camera nobody holds. */
    method HolderOf(key: Key) returns (pinned: Option<Claim>)
      ensures RegistryInv(claims) ==> (pinned.Some? <==> key in claims)
      ensures RegistryInv(claims) && Consistent(claims) && pinned.Some? ==>
                forall c :: c in claims[key] ==> c.settings == pinned.value.settings && c.key == key
      ensures pinned == if HoldersOf(claims, key) == [] then None else Some(HoldersOf(claims, key)[0])
    {
      if key in claims && claims[key] != [] {
        FirstSpeaksForAll(claims, key);
        return Some(claims[key][0]);
      }
      return None;
    }
  }
}
