/**
 Safety of the arming and loading protocol over every interleaving: which warm-up
 may still switch the follower, where every policy source is, and what the recorded
 model identity means.
 */
module PolicySafety {
  import opened Common
  import opened PolicyProtocol

  // ------------------------------------------------------------------ who is arming

  /** Some thread is between arming `source` and finishing that arm. */
  predicate Carries(s: System, g: nat, source: SourceId) {
    (g in s.warmups && s.warmups[g] == source) || s.control == Armed(source, g)
  }

  /** `_arming` and the in-flight arms agree. */
  ghost predicate ArmInv(s: System) {
    && (forall g :: g in s.warmups ==> g <= s.sh.armGen)
    && (s.control.Armed? ==> s.control.generation <= s.sh.armGen && s.control.generation !in s.warmups)
    && (s.sh.arming ==> s.sh.policy.Some? && Carries(s, s.sh.armGen, s.sh.policy.value))
    && (forall p: SourceId :: Carries(s, s.sh.armGen, p) ==> s.sh.arming && s.sh.policy == Some(p))
  }

  // --------------------------------------------------------------- where sources are

  /** The places that can hold a source: a loader thread, the attached slot, a teardown
      caller, or one entry of the disconnect log. */
  datatype Place = InLoader(generation: nat) | Attached | InTeardown(caller: nat) | Logged(index: nat)

  function Content(s: System, p: Place): Option<SourceId> {
    match p
    case InLoader(g) =>
      if g in s.loaders && !s.loaders[g].Loading? then Some(s.loaders[g].source) else None
    case Attached => s.sh.policy
    case InTeardown(t) =>
      if t in s.teardowns && s.teardowns[t].RetiringPolicy? then Some(s.teardowns[t].source) else None
    case Logged(i) => if i < |s.log| then Some(s.log[i]) else None
  }

  ghost predicate NoTwoPlaces(s: System) {
    forall p, q :: Content(s, p).Some? && Content(s, p) == Content(s, q) ==> p == q
  }

  ghost predicate OnlyBuilt(s: System) {
    forall p :: Content(s, p).Some? ==> Content(s, p).value in s.built
  }

  ghost predicate AllPlaced(s: System) {
    forall x :: x in s.built ==> exists p :: Content(s, p) == Some(x)
  }

  ghost predicate PlaceInv(s: System) {
    NoTwoPlaces(s) && OnlyBuilt(s) && AllPlaced(s)
  }

  // ------------------------------------------------------- generations and identity

  ghost predicate OriginInv(s: System) {
    && s.sh.attachedGen <= s.loaderGen
    && (forall g :: g in s.loaders ==> g <= s.loaderGen)
    && (forall g :: g in s.loaders && (s.loaders[g].Built? || s.loaders[g].Cleared?) ==>
          s.loaders[g].source in s.built
          && s.built[s.loaders[g].source] == Origin(g, IdentityOf(s.loaders[g].command)))
    && (s.sh.policy.Some? ==>
          s.sh.policy.value in s.built && s.built[s.sh.policy.value].generation == s.sh.attachedGen)
  }

  /** A recorded identity names the model of the attached source. */
  predicate IdentityInv(s: System) {
    && (s.sh.identity.Some? ==>
          s.sh.policy.Some? && s.sh.policy.value in s.built
          && s.built[s.sh.policy.value].identity == s.sh.identity.value)
    && (s.sh.modelLoaded ==> s.sh.policy.Some?)
  }

  ghost predicate Inv(s: System) {
    ArmInv(s) && PlaceInv(s) && OriginInv(s) && IdentityInv(s)
  }

  // --------------------------------------------------------------- inductive steps

  lemma StepKeepsArmInv(s: System, step: Step)
    requires Enabled(s, step) && ArmInv(s)
    ensures ArmInv(Next(s, step))
  {
    var t := Next(s, step);
    if step.Arm? && t != s {
      assert Carries(t, t.sh.armGen, t.sh.policy.value);
    } else if step.ArmSpawn? {
      forall g, p | Carries(t, g, p) ensures Carries(s, g, p) {
      }
      forall g, p | Carries(s, g, p) ensures Carries(t, g, p) {
      }
    } else {
      forall g, p | Carries(t, g, p) ensures Carries(s, g, p) {
      }
    }
  }

  /** Moving one source from `from` to the empty place `to` keeps the conservation law. */
  lemma MoveKeepsPlaces(s: System, t: System, x: SourceId, from: Place, to: Place)
    requires PlaceInv(s) && s.built == t.built
    requires from != to && Content(s, from) == Some(x) && Content(s, to).None?
    requires Content(t, to) == Some(x) && Content(t, from).None?
    requires forall p :: p != from && p != to ==> Content(t, p) == Content(s, p)
    ensures PlaceInv(t)
  {
    forall p, q | Content(t, p).Some? && Content(t, p) == Content(t, q) ensures p == q {
      var p' := if p == to then from else p;
      var q' := if q == to then from else q;
      assert Content(s, p') == Content(t, p) && Content(s, q') == Content(t, q);
    }
    forall p | Content(t, p).Some? ensures Content(t, p).value in t.built {
      var p' := if p == to then from else p;
      assert Content(s, p') == Content(t, p);
    }
    forall y | y in t.built ensures exists p :: Content(t, p) == Some(y) {
      var p :| Content(s, p) == Some(y);
      var p' := if p == from then to else p;
      assert Content(t, p') == Some(y);
    }
  }

  /** A state whose places hold what they held before keeps the law. */
  lemma SameKeepsPlaces(s: System, t: System)
    requires PlaceInv(s) && s.built == t.built
    requires forall p :: Content(t, p) == Content(s, p)
    ensures PlaceInv(t)
  {
    forall p, q | Content(t, p).Some? && Content(t, p) == Content(t, q) ensures p == q {
      assert Content(s, p) == Content(t, p) && Content(s, q) == Content(t, q);
    }
    forall p | Content(t, p).Some? ensures Content(t, p).value in t.built {
      assert Content(s, p) == Content(t, p);
    }
    forall y | y in t.built ensures exists p :: Content(t, p) == Some(y) {
      var p :| Content(s, p) == Some(y);
      assert Content(t, p) == Some(y);
    }
  }

  /** Places depend only on the loaders, the attached slot, the teardowns and the log. */
  lemma FrameKeepsPlaces(s: System, t: System)
    requires PlaceInv(s) && s.built == t.built
    requires s.loaders == t.loaders && s.teardowns == t.teardowns && s.sh.policy == t.sh.policy && s.log == t.log
    ensures PlaceInv(t)
  {
    SameKeepsPlaces(s, t);
  }

  lemma BuildKeepsPlaces(s: System, g: nat, x: SourceId)
    requires Enabled(s, Build(g, x)) && PlaceInv(s)
    ensures PlaceInv(Next(s, Build(g, x)))
  {
    var t := Next(s, Build(g, x));
    assert forall p :: p != InLoader(g) ==> Content(t, p) == Content(s, p);
    assert Content(t, InLoader(g)) == Some(x);
    forall p, q | Content(t, p).Some? && Content(t, p) == Content(t, q) ensures p == q {
      if p != InLoader(g) && q != InLoader(g) {
        assert Content(s, p) == Content(s, q);
      }
    }
    forall y | y in t.built ensures exists p :: Content(t, p) == Some(y) {
      if y == x {
        assert Content(t, InLoader(g)) == Some(y);
      } else {
        var p :| Content(s, p) == Some(y);
        assert Content(t, p) == Some(y);
      }
    }
  }

  /** Disconnecting `x` appends it to the log and empties the place that held it. */
  lemma RetireKeepsPlaces(s: System, t: System, x: SourceId, from: Place)
    requires PlaceInv(s) && s.built == t.built && !from.Logged?
    requires Content(s, from) == Some(x) && Content(t, from).None?
    requires t.log == s.log + [x]
    requires forall p :: p != from && !p.Logged? ==> Content(t, p) == Content(s, p)
    ensures PlaceInv(t)
  {
    var to := Logged(|s.log|);
    assert forall p :: p != from && p != to ==> Content(t, p) == Content(s, p);
    MoveKeepsPlaces(s, t, x, from, to);
  }

  /** A successful attach swaps: the new source enters the slot, the old one its loader. */
  lemma AttachKeepsPlaces(s: System, g: nat)
    requires Enabled(s, SetPolicy(g)) && PlaceInv(s)
    ensures PlaceInv(Next(s, SetPolicy(g)))
  {
    var t := Next(s, SetPolicy(g));
    var x := s.loaders[g].source;
    assert Content(s, InLoader(g)) == Some(x);
    if g < s.sh.attachedGen {
      SameKeepsPlaces(s, t);
    } else if s.sh.policy.None? {
      MoveKeepsPlaces(s, t, x, InLoader(g), Attached);
    } else {
      var old_ := s.sh.policy.value;
      assert Content(s, Attached) == Some(old_);
      assert old_ != x;
      SwapKeepsPlaces(s, t, InLoader(g), Attached);
    }
  }

  /** Every place of `t` holds what the exchanged place of `s` held. */
  ghost predicate Swapped(s: System, t: System, a: Place, b: Place) {
    forall p :: Content(t, p) == Content(s, Swap(p, a, b))
  }

  lemma SwapKeepsPlaces(s: System, t: System, a: Place, b: Place)
    requires PlaceInv(s) && s.built == t.built && a != b
    requires Content(t, a) == Content(s, b) && Content(t, b) == Content(s, a)
    requires forall p :: p != a && p != b ==> Content(t, p) == Content(s, p)
    ensures PlaceInv(t)
  {
    assert Swapped(s, t, a, b);
    SwappedKeepsPlaces(s, t, a, b);
  }

  lemma SwappedKeepsPlaces(s: System, t: System, a: Place, b: Place)
    requires PlaceInv(s) && s.built == t.built && Swapped(s, t, a, b)
    ensures PlaceInv(t)
  {
    forall p, q | Content(t, p).Some? && Content(t, p) == Content(t, q) ensures p == q {
      assert Swap(p, a, b) == Swap(q, a, b);
    }
    forall y | y in t.built ensures exists p :: Content(t, p) == Some(y) {
      var p :| Content(s, p) == Some(y);
      assert Swap(Swap(p, a, b), a, b) == p;
      assert Content(t, Swap(p, a, b)) == Some(y);
    }
  }

  function Swap(p: Place, a: Place, b: Place): Place {
    if p == a then b else if p == b then a else p
  }

  lemma LoaderKeepsContent(s: System, step: Step, p: Place)
    requires Enabled(s, step) && OriginInv(s)
    requires step.BuildFails? || step.LoadFails? || step.LoadRequest?
             || (step.Handover? && step.generation == s.loaderGen)
    ensures Content(Next(s, step), p) == Content(s, p)
  {
  }

  lemma LoaderKeepsPlaces(s: System, step: Step)
    requires Enabled(s, step) && PlaceInv(s) && OriginInv(s)
    requires step.Handover? || step.LoaderRetires? || step.BuildFails? || step.LoadFails? || step.LoadRequest?
    ensures PlaceInv(Next(s, step))
  {
    if step.LoaderRetires? || (step.Handover? && step.generation != s.loaderGen) {
      LoaderDisconnects(s, step);
    } else {
      forall p ensures Content(Next(s, step), p) == Content(s, p) {
        LoaderKeepsContent(s, step, p);
      }
      SameKeepsPlaces(s, Next(s, step));
    }
  }

  lemma LoaderDisconnects(s: System, step: Step)
    requires Enabled(s, step) && PlaceInv(s)
    requires step.LoaderRetires? || (step.Handover? && step.generation != s.loaderGen)
    ensures PlaceInv(Next(s, step))
  {
    RetireKeepsPlaces(s, Next(s, step), s.loaders[step.generation].source, InLoader(step.generation));
  }

  lemma TeardownKeepsPlaces(s: System, step: Step)
    requires Enabled(s, step) && PlaceInv(s)
    requires step.CloseLoader? || step.DetachPolicy? || step.TeardownRetires?
    ensures PlaceInv(Next(s, step))
  {
    var t := Next(s, step);
    var c := step.caller;
    if step.TeardownRetires? {
      RetireKeepsPlaces(s, t, s.teardowns[c].source, InTeardown(c));
    } else if step.DetachPolicy? && s.sh.policy.Some? {
      MoveKeepsPlaces(s, t, s.sh.policy.value, Attached, InTeardown(c));
    } else {
      SameKeepsPlaces(s, t);
    }
  }

  lemma StepKeepsPlaceInv(s: System, step: Step)
    requires Enabled(s, step) && PlaceInv(s) && OriginInv(s)
    ensures PlaceInv(Next(s, step))
  {
    match step
    case Build(g, x) => BuildKeepsPlaces(s, g, x);
    case SetPolicy(g) => AttachKeepsPlaces(s, g);
    case Handover(_) => LoaderKeepsPlaces(s, step);
    case LoaderRetires(_) => LoaderKeepsPlaces(s, step);
    case BuildFails(_) => LoaderKeepsPlaces(s, step);
    case LoadFails(_) => LoaderKeepsPlaces(s, step);
    case LoadRequest => LoaderKeepsPlaces(s, step);
    case CloseLoader(_) => TeardownKeepsPlaces(s, step);
    case DetachPolicy(_) => TeardownKeepsPlaces(s, step);
    case TeardownRetires(_) => TeardownKeepsPlaces(s, step);
    case _ => FrameKeepsPlaces(s, Next(s, step));
  }

  lemma BuildKeepsOrigin(s: System, g: nat, x: SourceId)
    requires Enabled(s, Build(g, x)) && OriginInv(s) && PlaceInv(s)
    ensures OriginInv(Next(s, Build(g, x)))
  {
    forall y | y in s.loaders && (s.loaders[y].Built? || s.loaders[y].Cleared?) ensures s.loaders[y].source != x {
    }
  }

  lemma AttachKeepsOrigin(s: System, g: nat)
    requires Enabled(s, SetPolicy(g)) && OriginInv(s)
    ensures OriginInv(Next(s, SetPolicy(g)))
  {
  }

  lemma LoaderKeepsOrigin(s: System, step: Step)
    requires Enabled(s, step) && OriginInv(s)
    requires step.LoadRequest? || step.BuildFails? || step.LoadFails? || step.Handover? || step.LoaderRetires?
    ensures OriginInv(Next(s, step))
  {
    match step
    case LoadRequest =>
    case Handover(_) =>
    case LoadFails(_) =>
    case _ =>
  }

  /** The remaining steps leave the loaders, the sources and the attached slot alone. */
  lemma FrameKeepsOrigin(s: System, t: System)
    requires OriginInv(s) && t.loaders == s.loaders && t.built == s.built && s.loaderGen <= t.loaderGen
    requires t.sh.attachedGen == s.sh.attachedGen && (t.sh.policy == s.sh.policy || t.sh.policy.None?)
    ensures OriginInv(t)
  {
  }

  lemma StepKeepsOriginInv(s: System, step: Step)
    requires Enabled(s, step) && OriginInv(s) && PlaceInv(s)
    ensures OriginInv(Next(s, step))
  {
    match step
    case Build(g, x) => BuildKeepsOrigin(s, g, x);
    case SetPolicy(g) => AttachKeepsOrigin(s, g);
    case LoadRequest => LoaderKeepsOrigin(s, step);
    case BuildFails(_) => LoaderKeepsOrigin(s, step);
    case LoadFails(_) => LoaderKeepsOrigin(s, step);
    case Handover(_) => LoaderKeepsOrigin(s, step);
    case LoaderRetires(_) => LoaderKeepsOrigin(s, step);
    case _ => FrameKeepsOrigin(s, Next(s, step));
  }

  lemma StepKeepsIdentityInv(s: System, step: Step)
    requires Enabled(s, step) && IdentityInv(s) && OriginInv(s)
    ensures IdentityInv(Next(s, step))
  {
  }

  lemma StepKeepsInv(s: System, step: Step)
    requires Enabled(s, step) && Inv(s)
    ensures Inv(Next(s, step))
  {
    StepKeepsArmInv(s, step);
    StepKeepsPlaceInv(s, step);
    StepKeepsOriginInv(s, step);
    StepKeepsIdentityInv(s, step);
  }

  lemma InitInv()
    ensures Inv(INITIAL)
  {
    assert forall p :: Content(INITIAL, p).None?;
  }

  lemma {:induction false} RunKeepsInv(s: System, steps: seq<Step>)
    requires Inv(s) && Legal(s, steps)
    ensures Inv(Exec(s, steps))
    decreases |steps|
  {
    if steps != [] {
      var front := steps[..|steps| - 1];
      RunKeepsInv(s, front);
      StepKeepsInv(Exec(s, front), steps[|steps| - 1]);
    }
  }

  lemma ReachableInv(s: System)
    requires Reachable(s)
    ensures Inv(s)
  {
    var steps :| Legal(INITIAL, steps) && Exec(INITIAL, steps) == s;
    InitInv();
    RunKeepsInv(INITIAL, steps);
  }

  // ------------------------------------------------------------- main theorem: arming

  /** `_arming` holds exactly when one in-flight warm-up carries the current generation,
      and that warm-up is for the attached policy. */
  lemma ArmingMeansOneLiveWarmup(s: System)
    requires Reachable(s)
    ensures s.sh.arming <==> exists p: SourceId :: Carries(s, s.sh.armGen, p)
    ensures forall p: SourceId :: Carries(s, s.sh.armGen, p) ==> s.sh.policy == Some(p)
    ensures forall g :: g in s.warmups ==> s.control != Armed(s.warmups[g], g)
  {
    ReachableInv(s);
  }

  /** The identity test in `_finish_arm` never decides: the generation test implies it. */
  lemma GenerationTestSuffices(s: System, g: nat)
    requires Reachable(s) && g in s.warmups && g == s.sh.armGen
    ensures s.sh.policy == Some(s.warmups[g]) && s.sh.arming
  {
    ReachableInv(s);
    assert Carries(s, g, s.warmups[g]);
  }

  lemma StepAt(states: seq<System>, steps: seq<Step>, k: nat)
    requires Run(states, steps) && k < |steps|
    ensures Enabled(states[k], steps[k]) && states[k + 1] == Next(states[k], steps[k])
  {
  }

  lemma {:induction false} RunInv(states: seq<System>, steps: seq<Step>, k: nat)
    requires Run(states, steps) && k <= |steps|
    ensures Inv(states[k])
    decreases k
  {
    if k == 0 {
      InitInv();
    } else {
      RunInv(states, steps, k - 1);
      StepAt(states, steps, k - 1);
      StepKeepsInv(states[k - 1], steps[k - 1]);
    }
  }

  lemma GensGrow(s: System, step: Step)
    requires Enabled(s, step)
    ensures s.sh.armGen <= Next(s, step).sh.armGen && s.sh.attachedGen <= Next(s, step).sh.attachedGen
  {
  }

  lemma GensNext(states: seq<System>, steps: seq<Step>, k: nat)
    requires Run(states, steps) && k < |steps|
    ensures states[k].sh.armGen <= states[k + 1].sh.armGen && states[k].sh.attachedGen <= states[k + 1].sh.attachedGen
  {
    StepAt(states, steps, k);
    GensGrow(states[k], steps[k]);
  }

  lemma {:induction false} ArmGenMonotone(states: seq<System>, steps: seq<Step>, j: nat, k: nat)
    requires Run(states, steps) && j <= k <= |steps|
    ensures states[j].sh.armGen <= states[k].sh.armGen
    ensures states[j].sh.attachedGen <= states[k].sh.attachedGen
    decreases k
  {
    if j < k {
      ArmGenMonotone(states, steps, j, k - 1);
      GensNext(states, steps, k - 1);
    }
  }

  /** Steps that revoke every arm begun before them. */
  predicate Revokes(s: System, step: Step) {
    match step
    case LoadCancelArming => true
    case ChangeSource(_) => true
    case DetachPolicy(_) => true
    case SetPolicy(g) => g in s.loaders && s.sh.attachedGen <= g
    case _ => false
  }

  lemma RevokeBumps(s: System, step: Step)
    requires Enabled(s, step) && Revokes(s, step)
    ensures Next(s, step).sh.armGen > s.sh.armGen && !Next(s, step).sh.arming
  {
  }

  /** One step before a live arm: it was live already and nothing was revoked, or it begins here. */
  lemma LiveArmBefore(s: System, step: Step, t: System, p: SourceId)
    requires ArmInv(s) && Enabled(s, step) && t == Next(s, step) && Carries(t, t.sh.armGen, p)
    ensures if Carries(s, t.sh.armGen, p) then s.sh.armGen == t.sh.armGen && !Revokes(s, step)
            else step.Arm? && s.sh.policy == Some(p)
  {
    if Carries(s, t.sh.armGen, p) && Revokes(s, step) {
      RevokeBumps(s, step);
    }
  }

  /** At `k` the arm of `p` is live; `j` is where it begins, with nothing revoked since. */
  predicate Begins(states: seq<System>, steps: seq<Step>, j: nat, p: SourceId)
    requires j < |steps| && j < |states|
  {
    steps[j].Arm? && states[j].sh.policy == Some(p)
  }

  predicate LiveAt(states: seq<System>, k: nat, p: SourceId)
    requires k < |states|
  {
    Carries(states[k], states[k].sh.armGen, p)
  }

  predicate RevokedAt(states: seq<System>, steps: seq<Step>, i: nat)
    requires i < |steps| && i < |states|
  {
    Revokes(states[i], steps[i])
  }

  lemma LiveArmNext(states: seq<System>, steps: seq<Step>, k: nat, p: SourceId)
    requires Run(states, steps) && k < |steps| && LiveAt(states, k + 1, p)
    ensures (LiveAt(states, k, p) && !RevokedAt(states, steps, k)) || Begins(states, steps, k, p)
  {
    StepAt(states, steps, k);
    RunInv(states, steps, k);
    LiveArmBefore(states[k], steps[k], states[k + 1], p);
  }

  lemma NothingIsLiveFirst(states: seq<System>, steps: seq<Step>, p: SourceId)
    requires Run(states, steps)
    ensures !LiveAt(states, 0, p)
  {
  }

  /** A live arm was begun by an `Arm` step on the policy attached then, and nothing has been
      revoked since. */
  lemma {:induction false} LiveArmHasOrigin(states: seq<System>, steps: seq<Step>, k: nat, p: SourceId) returns (j: nat)
    requires Run(states, steps) && k <= |steps| && LiveAt(states, k, p)
    ensures j < k && Begins(states, steps, j, p)
    ensures forall i :: j < i < k ==> !RevokedAt(states, steps, i)
    decreases k
  {
    NothingIsLiveFirst(states, steps, p);
    LiveArmNext(states, steps, k - 1, p);
    if Begins(states, steps, k - 1, p) {
      j := k - 1;
    } else {
      j := LiveArmHasOrigin(states, steps, k - 1, p);
    }
  }

  /** Only the end of a live arm switches the follower, and it keeps the attached policy. */
  lemma SwitchEndsLiveArm(s: System, step: Step)
    requires Enabled(s, step) && s.control != SourceChange(PolicyMode)
    requires s.sh.follower != PolicyMode && Next(s, step).sh.follower == PolicyMode
    ensures s.sh.policy.Some? && Carries(s, s.sh.armGen, s.sh.policy.value)
    ensures Next(s, step).sh.policy == s.sh.policy
  {
  }

  /** Whenever the follower switches to policy mode, the switch was armed after the last
      stop, hold, teleoperation, accepted load, policy replacement or shutdown, and for
      the policy that is attached when it takes effect. */
  lemma SwitchIsFreshlyArmed(states: seq<System>, steps: seq<Step>, k: nat) returns (j: nat)
    requires Run(states, steps) && k < |steps|
    requires states[k].sh.follower != PolicyMode && states[k + 1].sh.follower == PolicyMode
    ensures j < k && steps[j].Arm?
    ensures states[j].sh.policy.Some? && states[j].sh.policy == states[k + 1].sh.policy
    ensures forall i :: j < i < k ==> !Revokes(states[i], steps[i])
  {
    var s := states[k];
    StepAt(states, steps, k);
    NoPolicyRequest(states, steps, k);
    SwitchEndsLiveArm(s, steps[k]);
    j := LiveArmHasOrigin(states, steps, k, s.sh.policy.value);
    forall i | j < i < k ensures !Revokes(states[i], steps[i]) {
      assert !RevokedAt(states, steps, i);
    }
  }

  lemma {:induction false} NoPolicyRequest(states: seq<System>, steps: seq<Step>, k: nat)
    requires Run(states, steps) && k <= |steps|
    ensures states[k].control != SourceChange(PolicyMode)
  {
    if k > 0 {
      NoPolicyRequest(states, steps, k - 1);
      StepAt(states, steps, k - 1);
    }
  }

  /** The step at which the arm of generation `g` ends: by its thread, or by the control
      thread when there is nothing to warm up. */
  predicate EndsArm(s: System, step: Step, g: nat) {
    || step == WarmupDone(g) || step == WarmupFails(g)
    || (step == ArmWithoutSnapshot && s.control.Armed? && s.control.generation == g)
  }

  /** An arm in flight when it is revoked, its thread started or not, can never change the
      shared state again. */
  lemma RevokedWarmupIsInert(states: seq<System>, steps: seq<Step>, i: nat, k: nat, g: nat, p: SourceId)
    requires Run(states, steps) && i < k < |steps|
    requires Revokes(states[i], steps[i]) && Carries(states[i], g, p)
    requires EndsArm(states[k], steps[k], g)
    ensures states[k + 1].sh == states[k].sh
  {
    StepAt(states, steps, i);
    StepAt(states, steps, k);
    RevokeBumps(states[i], steps[i]);
    ArmGenMonotone(states, steps, i + 1, k);
    RunInv(states, steps, i);
  }

  // ----------------------------------------------------- main theorem: conservation

  /** Every source ever built is held by exactly one place, so it is in flight, attached,
      being retired by one thread, or disconnected exactly once. */
  lemma SourcesAreConserved(s: System, x: SourceId)
    requires Reachable(s) && x in s.built
    ensures exists p :: Content(s, p) == Some(x) && forall q :: Content(s, q) == Some(x) ==> q == p
  {
    ReachableInv(s);
    var p :| Content(s, p) == Some(x);
    forall q | Content(s, q) == Some(x) ensures q == p {
    }
  }

  /** No source is disconnected twice, and none is disconnected while attached. */
  lemma DisconnectedOnce(s: System)
    requires Reachable(s)
    ensures forall i, j :: 0 <= i < j < |s.log| ==> s.log[i] != s.log[j]
    ensures forall i :: 0 <= i < |s.log| ==> s.sh.policy != Some(s.log[i])
  {
    ReachableInv(s);
    forall i, j | 0 <= i < j < |s.log| ensures s.log[i] != s.log[j] {
      assert Content(s, Logged(i)) == Some(s.log[i]);
      assert Content(s, Logged(j)) == Some(s.log[j]);
    }
    forall i | 0 <= i < |s.log| ensures s.sh.policy != Some(s.log[i]) {
      assert Content(s, Logged(i)) == Some(s.log[i]);
      assert Content(s, Attached) == s.sh.policy;
    }
  }

  /** Once every thread has ended, exactly the sources that are not attached were disconnected. */
  lemma QuiescentSourcesAreReleased(s: System, x: SourceId)
    requires Reachable(s) && s.loaders == map[] && s.teardowns == map[]
    ensures x in s.built && s.sh.policy != Some(x) <==> x in s.log
  {
    ReachableInv(s);
    DisconnectedOnce(s);
    if x in s.built {
      var p :| Content(s, p) == Some(x);
      assert p.Attached? || p.Logged?;
    }
    if x in s.log {
      var i :| 0 <= i < |s.log| && s.log[i] == x;
      assert Content(s, Logged(i)) == Some(x);
    }
  }

  /** The attached generation never decreases, and the attached source is always the one
      built for it, whatever order the loads finish in. */
  lemma AttachedIsNewest(states: seq<System>, steps: seq<Step>, j: nat, k: nat)
    requires Run(states, steps) && j <= k <= |steps|
    ensures states[j].sh.attachedGen <= states[k].sh.attachedGen
    ensures var s := states[k]; s.sh.policy.Some? ==>
              s.sh.policy.value in s.built && s.built[s.sh.policy.value].generation == s.sh.attachedGen
  {
    ArmGenMonotone(states, steps, j, k);
    RunInv(states, steps, k);
  }

  /** A newer request or a teardown has overtaken loader `g` before its staleness check. */
  predicate Overtaken(s: System, g: nat) {
    g < s.loaderGen && (g in s.loaders ==> !s.loaders[g].Cleared?)
  }

  lemma StepKeepsOvertaken(s: System, step: Step, g: nat)
    requires Enabled(s, step) && Overtaken(s, g)
    ensures Overtaken(Next(s, step), g)
  {
    match step
    case Handover(_) =>
    case SetPolicy(_) =>
    case _ =>
  }

  lemma OvertakenNext(states: seq<System>, steps: seq<Step>, k: nat, g: nat)
    requires Run(states, steps) && k < |steps| && Overtaken(states[k], g)
    ensures Overtaken(states[k + 1], g) && steps[k] != SetPolicy(g)
  {
    StepAt(states, steps, k);
    StepKeepsOvertaken(states[k], steps[k], g);
  }

  lemma {:induction false} StaysOvertaken(states: seq<System>, steps: seq<Step>, i: nat, k: nat, g: nat)
    requires Run(states, steps) && i <= k <= |steps| && Overtaken(states[i], g)
    ensures Overtaken(states[k], g)
    decreases k
  {
    if i < k {
      StaysOvertaken(states, steps, i, k - 1, g);
      OvertakenNext(states, steps, k - 1, g);
    }
  }

  /** A load that a newer request or a teardown overtakes before its staleness check never
      attaches its source; only one already past the check still can. */
  lemma OvertakenLoadNeverAttaches(states: seq<System>, steps: seq<Step>, i: nat, k: nat, g: nat)
    requires Run(states, steps) && i <= k < |steps| && Overtaken(states[i], g)
    ensures steps[k] != SetPolicy(g) && Overtaken(states[k + 1], g)
  {
    StaysOvertaken(states, steps, i, k, g);
    OvertakenNext(states, steps, k, g);
  }

  /** A skipped load changes nothing and finds the requested model attached. */
  lemma SkippedLoadFindsItsModel(s: System, command: LoadCommand)
    requires Reachable(s) && s.control.Idle? && Skips(s.sh, command)
    ensures Next(s, HandleLoad(command)) == s
    ensures s.sh.policy.Some? && s.sh.policy.value in s.built
    ensures s.built[s.sh.policy.value].identity == IdentityOf(command)
    ensures forall i :: 0 <= i < |s.log| ==> s.log[i] != s.sh.policy.value
  {
    ReachableInv(s);
    forall i | 0 <= i < |s.log| ensures s.log[i] != s.sh.policy.value {
      assert Content(s, Attached) == s.sh.policy;
      assert Content(s, Logged(i)) == Some(s.log[i]);
    }
  }
}
