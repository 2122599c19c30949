/** What the arming and loading steps achieve, in terms of what the robot and the client see. */
module PolicyOutcomes {
  import opened Common
  import opened PolicyProtocol
  import opened PolicySafety

  // ----------------------------------------------------------------- the end of an arm

  /** An arm whose warm-up ends well while it is current puts the follower in policy mode. */
  lemma LiveArmEntersPolicyMode(s: System, g: nat)
    requires Reachable(s) && g in s.warmups && g == s.sh.armGen
    ensures Next(s, WarmupDone(g)).sh == s.sh.(follower := PolicyMode, arming := false)
    ensures Next(s, WarmupFails(g)).sh == s.sh.(arming := false)
  {
    GenerationTestSuffices(s, g);
  }

  /** The same for an arm that has nothing to warm up. */
  lemma LiveArmWithoutSnapshotEntersPolicyMode(s: System)
    requires Reachable(s) && s.control.Armed? && s.control.generation == s.sh.armGen
    ensures Next(s, ArmWithoutSnapshot).sh == s.sh.(follower := PolicyMode, arming := false)
  {
    ReachableInv(s);
    assert Carries(s, s.sh.armGen, s.control.source);
  }

  /** This step moves the arm generation on: it revokes, or it begins another arm. */
  predicate MovesOn(s: System, step: Step) {
    Revokes(s, step) || (step == Arm(true) && s.sh.policy.Some?)
  }

  predicate MovesOnAt(states: seq<System>, steps: seq<Step>, i: nat)
    requires i < |steps| && i < |states|
  {
    MovesOn(states[i], steps[i])
  }

  lemma MovesOnIff(s: System, step: Step)
    requires Enabled(s, step)
    ensures MovesOn(s, step) <==> Next(s, step).sh.armGen != s.sh.armGen
    ensures s.sh.armGen <= Next(s, step).sh.armGen
  {
  }

  lemma MovesOnNext(states: seq<System>, steps: seq<Step>, k: nat)
    requires Run(states, steps) && k < |steps|
    ensures MovesOnAt(states, steps, k) <==> states[k + 1].sh.armGen != states[k].sh.armGen
    ensures states[k].sh.armGen <= states[k + 1].sh.armGen
  {
    StepAt(states, steps, k);
    MovesOnIff(states[k], steps[k]);
  }

  lemma {:induction false} SameGenIff(states: seq<System>, steps: seq<Step>, j: nat, k: nat)
    requires Run(states, steps) && j <= k <= |steps|
    ensures states[j].sh.armGen <= states[k].sh.armGen
    ensures states[j].sh.armGen == states[k].sh.armGen <==> forall i :: j <= i < k ==> !MovesOnAt(states, steps, i)
    decreases k
  {
    if j < k {
      SameGenIff(states, steps, j, k - 1);
      MovesOnNext(states, steps, k - 1);
    }
  }

  /** The step at which the arm of generation `g` ends well. */
  predicate EndsWell(s: System, step: Step, g: nat) {
    EndsArm(s, step, g) && !step.WarmupFails?
  }

  /** The state after the end of the arm of `g`, if it is current. */
  lemma EndOfArm(s: System, step: Step, g: nat)
    requires Inv(s) && Enabled(s, step) && EndsWell(s, step, g)
    ensures Next(s, step).sh == if g == s.sh.armGen then s.sh.(follower := PolicyMode, arming := false) else s.sh
  {
    if step.WarmupDone? {
      assert Carries(s, g, s.warmups[g]);
    } else {
      assert Carries(s, g, s.control.source);
    }
  }

  /** In every run, an arm that ends well puts the follower in policy mode exactly when nothing
      was revoked and nothing armed since it began; otherwise its end changes nothing. */
  lemma ArmSucceedsIff(states: seq<System>, steps: seq<Step>, j: nat, k: nat, g: nat)
    requires Run(states, steps) && j < k < |steps|
    requires steps[j] == Arm(true) && states[j].sh.policy.Some? && states[j + 1].sh.armGen == g
    requires EndsWell(states[k], steps[k], g)
    ensures states[k + 1].sh ==
            if forall i :: j < i < k ==> !MovesOnAt(states, steps, i)
            then states[k].sh.(follower := PolicyMode, arming := false) else states[k].sh
  {
    RunInv(states, steps, k);
    StepAt(states, steps, k);
    SameGenIff(states, steps, j + 1, k);
    EndOfArm(states[k], steps[k], g);
  }

  // -------------------------------------------------------------------- changing the mode

  lemma ChangeRevokes(s: System, requested: Follower)
    requires Enabled(s, ChangeSource(requested))
    ensures Next(s, ChangeSource(requested)).control == SourceChange(requested)
    ensures !Next(s, ChangeSource(requested)).sh.arming
  {
  }

  lemma BusyStays(s: System, step: Step)
    requires Enabled(s, step) && s.control.SourceChange? && step != ChangeSourceEnd
    ensures Next(s, step).control == s.control && (!s.sh.arming ==> !Next(s, step).sh.arming)
  {
  }

  lemma {:induction false} ChangePending(states: seq<System>, steps: seq<Step>, i: nat, k: nat, requested: Follower)
    requires Run(states, steps) && i < k <= |steps| && steps[i] == ChangeSource(requested)
    requires forall n :: i < n < k ==> steps[n] != ChangeSourceEnd
    ensures states[k].control == SourceChange(requested) && !states[k].sh.arming
    decreases k
  {
    if i + 1 == k {
      StepAt(states, steps, i);
      ChangeRevokes(states[i], requested);
    } else {
      ChangePending(states, steps, i, k - 1, requested);
      StepAt(states, steps, k - 1);
      BusyStays(states[k - 1], steps[k - 1]);
    }
  }

  /** In every run, a stop or a request for hold or teleoperation revokes the arm, and when it is
      written the follower is in the requested mode with nothing arming, whatever ran between. */
  lemma RequestTakesEffect(states: seq<System>, steps: seq<Step>, i: nat, k: nat, requested: Follower)
    requires Run(states, steps) && i < k < |steps|
    requires steps[i] == ChangeSource(requested) && steps[k] == ChangeSourceEnd
    requires forall n :: i < n < k ==> steps[n] != ChangeSourceEnd
    ensures states[k + 1].sh == states[k].sh.(follower := requested)
    ensures !states[k + 1].sh.arming && states[k + 1].control.Idle?
  {
    ChangePending(states, steps, i, k, requested);
    StepAt(states, steps, k);
  }

  /** Some thread ends the current arm well. */
  predicate EndsCurrentArm(s: System, step: Step) {
    (step.WarmupDone? && step.generation == s.sh.armGen)
    || (step.ArmWithoutSnapshot? && s.control.Armed? && s.control.generation == s.sh.armGen)
  }

  /** In every run, the follower's mode is written by four things only: the current arm ending well,
      a request being carried out, the leader being given up, and a policy that raises. */
  lemma ModeMoves(states: seq<System>, steps: seq<Step>, k: nat)
    requires Run(states, steps) && k < |steps|
    ensures steps[k].ChangeSourceEnd? ==> states[k].control.SourceChange?
    ensures states[k + 1].sh.follower ==
            if EndsCurrentArm(states[k], steps[k]) then PolicyMode
            else if steps[k].ChangeSourceEnd? then states[k].control.requested
            else if steps[k].LeaderLost? || (steps[k] == Tick(true) && states[k].sh.policy.Some? && !states[k].sh.arming)
            then Hold else states[k].sh.follower
  {
    RunInv(states, steps, k);
    StepAt(states, steps, k);
    var s, step := states[k], steps[k];
    if step.WarmupDone? {
      assert step.generation == s.sh.armGen ==> Carries(s, step.generation, s.warmups[step.generation]);
    } else if step.ArmWithoutSnapshot? {
      assert s.control.generation == s.sh.armGen ==> Carries(s, s.sh.armGen, s.control.source);
    }
  }

  // ------------------------------------------------------------------- a policy that fails

  /** Some source is attached by this step. */
  predicate Attaches(s: System, step: Step) {
    step.SetPolicy? && s.sh.attachedGen <= step.generation
  }

  predicate AttachesAt(states: seq<System>, steps: seq<Step>, n: nat)
    requires n < |steps| && n < |states|
  {
    Attaches(states[n], steps[n])
  }

  /** A tick on which the attached policy is asked and raises. */
  predicate PolicyRaises(s: System, step: Step) {
    step == Tick(true) && s.sh.policy.Some? && !s.sh.arming
  }

  /** The follower goes to hold, the policy stays attached, and its model is no longer recorded. */
  lemma RaisingPolicyIsDropped(s: System, step: Step)
    requires Enabled(s, step) && PolicyRaises(s, step)
    ensures var t := Next(s, step);
            && t.sh.follower == Hold && t.sh.identity == None && t.sh.errorEmitted
            && t.sh.policy == s.sh.policy && t.sh.armGen == s.sh.armGen && !t.sh.arming
  {
  }

  lemma UnrecordedStays(s: System, step: Step)
    requires Enabled(s, step) && s.sh.identity.None? && !Attaches(s, step)
    ensures Next(s, step).sh.identity.None?
  {
  }

  lemma UnrecordedNext(states: seq<System>, steps: seq<Step>, n: nat)
    requires Run(states, steps) && n < |steps| && states[n].sh.identity.None? && !AttachesAt(states, steps, n)
    ensures states[n + 1].sh.identity.None?
  {
    StepAt(states, steps, n);
    UnrecordedStays(states[n], steps[n]);
  }

  lemma UnrecordedUntilAttach(states: seq<System>, steps: seq<Step>, i: nat, k: nat)
    requires Run(states, steps) && i <= k <= |steps| && states[i].sh.identity.None?
    requires forall n :: i <= n < k ==> !AttachesAt(states, steps, n)
    ensures states[k].sh.identity.None?
  {
    var holds := (n: nat) => n < |states| && states[n].sh.identity.None?;
    forall n: nat | i <= n < k && holds(n) ensures holds(n + 1) {
      UnrecordedNext(states, steps, n);
    }
    Upward(holds, i, k);
  }

  /** After a policy has raised no load is skipped until a source is attached again. */
  lemma RaisedModelIsRebuilt(states: seq<System>, steps: seq<Step>, i: nat, k: nat, command: LoadCommand)
    requires Run(states, steps) && i < k <= |steps| && PolicyRaises(states[i], steps[i])
    requires forall n :: i < n < k ==> !AttachesAt(states, steps, n)
    ensures !Skips(states[k].sh, command)
  {
    StepAt(states, steps, i);
    RaisingPolicyIsDropped(states[i], steps[i]);
    UnrecordedUntilAttach(states, steps, i + 1, k);
  }

  /** The tick that emits a policy error to the client. */
  predicate EmitsError(s: System, step: Step) {
    PolicyRaises(s, step) && !s.sh.errorEmitted
  }

  /** Steps after which the next failure is reported again. */
  predicate ReopensErrors(s: System, step: Step) {
    Attaches(s, step) || (step == Arm(true) && s.sh.policy.Some?)
  }

  predicate ReopensAt(states: seq<System>, steps: seq<Step>, n: nat)
    requires n < |steps| && n < |states|
  {
    ReopensErrors(states[n], steps[n])
  }

  lemma EmittedStays(s: System, step: Step)
    requires Enabled(s, step) && s.sh.errorEmitted && !ReopensErrors(s, step)
    ensures Next(s, step).sh.errorEmitted
  {
  }

  lemma EmittedNext(states: seq<System>, steps: seq<Step>, n: nat)
    requires Run(states, steps) && n < |steps| && states[n].sh.errorEmitted && !ReopensAt(states, steps, n)
    ensures states[n + 1].sh.errorEmitted
  {
    StepAt(states, steps, n);
    EmittedStays(states[n], steps[n]);
  }

  lemma EmittedUntilReopened(states: seq<System>, steps: seq<Step>, i: nat, k: nat)
    requires Run(states, steps) && i <= k <= |steps| && states[i].sh.errorEmitted
    requires forall n :: i <= n < k ==> !ReopensAt(states, steps, n)
    ensures states[k].sh.errorEmitted
  {
    var holds := (n: nat) => n < |states| && states[n].sh.errorEmitted;
    forall n: nat | i <= n < k && holds(n) ensures holds(n + 1) {
      EmittedNext(states, steps, n);
    }
    Upward(holds, i, k);
  }

  /** A failing policy is reported once between two arms or attaches, however many ticks it fails. */
  lemma FailureIsReportedOnce(states: seq<System>, steps: seq<Step>, i: nat, k: nat)
    requires Run(states, steps) && i < k < |steps|
    requires EmitsError(states[i], steps[i]) && EmitsError(states[k], steps[k])
    ensures exists n :: i < n < k && ReopensAt(states, steps, n)
  {
    StepAt(states, steps, i);
    RaisingPolicyIsDropped(states[i], steps[i]);
    if forall n :: i < n < k ==> !ReopensAt(states, steps, n) {
      EmittedUntilReopened(states, steps, i + 1, k);
      assert false;
    }
  }

  /** And an arm or an attach does reopen it. */
  lemma NewStartIsReportedAgain(s: System, step: Step)
    requires Enabled(s, step) && ReopensErrors(s, step)
    ensures !Next(s, step).sh.errorEmitted
  {
  }

  // ------------------------------------------------------------------ what a skip compares

  /** Step `j` requested this model, and its loader carries generation `g`. */
  predicate RequestsAs(states: seq<System>, steps: seq<Step>, j: nat, g: nat, model: ModelIdentity)
    requires j < |steps| && j < |states|
  {
    && steps[j] == LoadRequest && states[j].loaderGen + 1 == g && states[j].control.LoadUnmarked?
    && states[j].control.command.modelId == model.modelId
    && states[j].control.command.backend == model.backend
    && states[j].control.command.device == model.device
  }

  ghost predicate Requested(states: seq<System>, steps: seq<Step>, n: nat, g: nat, model: ModelIdentity)
    requires n <= |steps| < |states|
  {
    exists j :: 0 <= j < n && RequestsAs(states, steps, j, g, model)
  }

  /** The model a command asks for, field by field. */
  function ModelOf(command: LoadCommand): ModelIdentity {
    ModelIdentity(command.modelId, command.backend, command.device)
  }

  ghost predicate AllRequested(states: seq<System>, steps: seq<Step>, n: nat)
    requires n <= |steps| < |states|
  {
    && (forall g :: g in states[n].loaders && !states[n].loaders[g].Retiring? ==>
          Requested(states, steps, n, g, ModelOf(states[n].loaders[g].command)))
    && (forall x :: x in states[n].built ==>
          Requested(states, steps, n, states[n].built[x].generation, states[n].built[x].identity))
  }

  lemma RequestedGrows(states: seq<System>, steps: seq<Step>, n: nat, g: nat, model: ModelIdentity)
    requires n < |steps| < |states| && Requested(states, steps, n, g, model)
    ensures Requested(states, steps, n + 1, g, model)
  {
    var j :| 0 <= j < n && RequestsAs(states, steps, j, g, model);
    assert 0 <= j < n + 1 && RequestsAs(states, steps, j, g, model);
  }

  /** Where a loader's command and a built source's origin come from, one step back. */
  lemma LoaderBefore(s: System, step: Step, g: nat)
    requires Enabled(s, step) && g in Next(s, step).loaders && !Next(s, step).loaders[g].Retiring?
    ensures || (g in s.loaders && !s.loaders[g].Retiring? && s.loaders[g].command == Next(s, step).loaders[g].command)
            || (step == LoadRequest && g == s.loaderGen + 1 && s.control.LoadUnmarked?
                && s.control.command == Next(s, step).loaders[g].command)
  {
  }

  lemma SourceBefore(s: System, step: Step, x: SourceId)
    requires Enabled(s, step) && x in Next(s, step).built
    ensures || (x in s.built && s.built[x] == Next(s, step).built[x])
            || (step.Build? && step.generation in s.loaders && s.loaders[step.generation].Loading?
                && Next(s, step).built[x] == Origin(step.generation, ModelOf(s.loaders[step.generation].command)))
  {
  }

  lemma AllRequestedNext(states: seq<System>, steps: seq<Step>, n: nat)
    requires Run(states, steps) && n < |steps| && AllRequested(states, steps, n)
    ensures AllRequested(states, steps, n + 1)
  {
    var s, step, t := states[n], steps[n], states[n + 1];
    StepAt(states, steps, n);
    forall g | g in t.loaders && !t.loaders[g].Retiring?
      ensures Requested(states, steps, n + 1, g, ModelOf(t.loaders[g].command))
    {
      LoaderBefore(s, step, g);
      if g in s.loaders && !s.loaders[g].Retiring? && s.loaders[g].command == t.loaders[g].command {
        RequestedGrows(states, steps, n, g, ModelOf(t.loaders[g].command));
      } else {
        assert RequestsAs(states, steps, n, g, ModelOf(t.loaders[g].command));
      }
    }
    forall x | x in t.built ensures Requested(states, steps, n + 1, t.built[x].generation, t.built[x].identity) {
      SourceBefore(s, step, x);
      RequestedGrows(states, steps, n, t.built[x].generation, t.built[x].identity);
    }
  }

  lemma {:induction false} RunRequests(states: seq<System>, steps: seq<Step>, n: nat)
    requires Run(states, steps) && n <= |steps|
    ensures AllRequested(states, steps, n)
  {
    if n > 0 {
      RunRequests(states, steps, n - 1);
      AllRequestedNext(states, steps, n - 1);
    }
  }

  /** In every run, a load is skipped only when it is not forced and the request that led to the
      attached source had the same model id, the same backend and the same device. */
  lemma SkipMeansSameRequest(states: seq<System>, steps: seq<Step>, n: nat, command: LoadCommand) returns (j: nat)
    requires Run(states, steps) && n <= |steps| && Skips(states[n].sh, command)
    ensures !command.force && j < n && steps[j] == LoadRequest && states[j].control.LoadUnmarked?
    ensures states[j].loaderGen + 1 == states[n].sh.attachedGen
    ensures var earlier := states[j].control.command;
            earlier.modelId == command.modelId && earlier.backend == command.backend && earlier.device == command.device
  {
    RunInv(states, steps, n);
    RunRequests(states, steps, n);
    var s := states[n];
    var x := s.sh.policy.value;
    assert Requested(states, steps, n, s.built[x].generation, s.built[x].identity);
    j :| 0 <= j < n && RequestsAs(states, steps, j, s.built[x].generation, s.built[x].identity);
  }

  /** And a load that is not forced is skipped whenever that model is the one recorded. */
  lemma SameModelIsSkipped(s: System, command: LoadCommand)
    requires s.control.Idle? && s.sh.identity.Some? && !command.force
    requires command.modelId == s.sh.identity.value.modelId
    requires command.backend == s.sh.identity.value.backend && command.device == s.sh.identity.value.device
    ensures Next(s, HandleLoad(command)) == s
  {
  }
}
