/**
 What a skipped model load is worth. The skip test reads the recorded identity, and
 `PolicySafety` shows that the identity names the attached source at that moment.
 Whether the model then stays attached, and whether it is published as loaded, is
 decided here, in both directions.
 */
module PolicySkip {
  import opened Common
  import opened PolicyProtocol
  import opened PolicySafety

  lemma LegalSnoc(s: System, steps: seq<Step>, step: Step)
    requires Legal(s, steps) && Enabled(Exec(s, steps), step)
    ensures Legal(s, steps + [step]) && Exec(s, steps + [step]) == Next(Exec(s, steps), step)
  {
    assert (steps + [step])[..|steps|] == steps;
  }

  // -------------------------------------------------------- does the model stay attached

  /** This loader thread will replace the attached source if it is left to finish. */
  predicate CanAttach(s: System, g: nat) {
    g in s.loaders &&
    match s.loaders[g]
    case Loading(_) => g == s.loaderGen
    case Built(_, _) => g == s.loaderGen
    case Cleared(_, _) => s.sh.attachedGen <= g
    case Retiring(_) => false
  }

  /** Neither a new load request nor a session teardown. */
  predicate Quiet(step: Step) {
    !step.LoadRequest? && !step.DetachPolicy?
  }

  ghost predicate QuietRun(s: System, steps: seq<Step>) {
    Legal(s, steps) && forall i :: 0 <= i < |steps| ==> Quiet(steps[i])
  }

  /** The attached source survives every quiet continuation. */
  ghost predicate StaysAttached(s: System) {
    forall steps :: QuietRun(s, steps) ==> Exec(s, steps).sh.policy == s.sh.policy
  }

  ghost predicate NothingPending(s: System) {
    forall g :: !CanAttach(s, g)
  }

  lemma QuietStepKeepsPolicy(s: System, step: Step)
    requires Enabled(s, step) && Quiet(step) && OriginInv(s) && NothingPending(s)
    ensures Next(s, step).sh.policy == s.sh.policy && NothingPending(Next(s, step))
  {
    var t := Next(s, step);
    assert step.SetPolicy? ==> !CanAttach(s, step.generation);
    forall g ensures !CanAttach(t, g) {
      assert !CanAttach(s, g);
    }
  }

  lemma {:induction false} QuietRunKeepsPolicy(s: System, steps: seq<Step>)
    requires Inv(s) && QuietRun(s, steps) && NothingPending(s)
    ensures Exec(s, steps).sh.policy == s.sh.policy && NothingPending(Exec(s, steps))
    decreases |steps|
  {
    if steps != [] {
      var front := steps[..|steps| - 1];
      QuietRunKeepsPolicy(s, front);
      RunKeepsInv(s, front);
      QuietStepKeepsPolicy(Exec(s, front), steps[|steps| - 1]);
    }
  }

  /** This quiet run ends with the source `x` of loader `g` attached. */
  ghost predicate Attaches(s: System, g: nat, steps: seq<Step>, x: SourceId)
    requires g in s.loaders && !s.loaders[g].Retiring?
  {
    && QuietRun(s, steps)
    && Exec(s, steps).sh.policy == Some(x) && x in Exec(s, steps).built
    && Exec(s, steps).built[x] == Origin(g, IdentityOf(s.loaders[g].command))
  }

  lemma ClearedAttaches(s: System, steps: seq<Step>, g: nat) returns (after: seq<Step>)
    requires Inv(s) && QuietRun(s, steps)
    requires CanAttach(Exec(s, steps), g) && Exec(s, steps).loaders[g].Cleared?
    requires g in s.loaders && !s.loaders[g].Retiring? && s.loaders[g].command == Exec(s, steps).loaders[g].command
    ensures Attaches(s, g, after, Exec(s, steps).loaders[g].source)
  {
    after := steps + [SetPolicy(g)];
    RunKeepsInv(s, steps);
    LegalSnoc(s, steps, SetPolicy(g));
  }

  lemma BuiltAttaches(s: System, steps: seq<Step>, g: nat) returns (after: seq<Step>)
    requires Inv(s) && QuietRun(s, steps)
    requires CanAttach(Exec(s, steps), g) && Exec(s, steps).loaders[g].Built?
    requires g in s.loaders && !s.loaders[g].Retiring? && s.loaders[g].command == Exec(s, steps).loaders[g].command
    ensures Attaches(s, g, after, Exec(s, steps).loaders[g].source)
  {
    RunKeepsInv(s, steps);
    LegalSnoc(s, steps, Handover(g));
    after := ClearedAttaches(s, steps + [Handover(g)], g);
  }

  /** A pending loader can run to its end alone and replace the attached source. */
  lemma PendingLoadAttaches(s: System, g: nat) returns (after: seq<Step>, x: SourceId)
    requires Inv(s) && CanAttach(s, g)
    ensures Attaches(s, g, after, x) && s.sh.policy != Some(x)
  {
    assert Content(s, Attached) == s.sh.policy;
    if s.loaders[g].Loading? {
      x := UnusedNumber(s.built.Keys);
      LegalSnoc(s, [], Build(g, x));
      after := BuiltAttaches(s, [] + [Build(g, x)], g);
    } else {
      x := s.loaders[g].source;
      assert Content(s, InLoader(g)) == Some(x);
      if s.loaders[g].Cleared? {
        after := ClearedAttaches(s, [], g);
      } else {
        after := BuiltAttaches(s, [], g);
      }
    }
  }

  /** The source attached now stays attached through every quiet run exactly when no loader
      is pending. */
  lemma SourceStaysIff(s: System)
    requires Reachable(s)
    ensures StaysAttached(s) <==> NothingPending(s)
  {
    ReachableInv(s);
    if NothingPending(s) {
      forall steps | QuietRun(s, steps) ensures Exec(s, steps).sh.policy == s.sh.policy {
        QuietRunKeepsPolicy(s, steps);
      }
    } else {
      var g :| CanAttach(s, g);
      var after, x := PendingLoadAttaches(s, g);
    }
  }

  /** A source of this model is attached. */
  predicate HasModel(s: System, model: ModelIdentity) {
    s.sh.policy.Some? && s.sh.policy.value in s.built && s.built[s.sh.policy.value].identity == model
  }

  /** The model stays attached through every quiet run, whichever source carries it. */
  ghost predicate ModelStays(s: System, model: ModelIdentity) {
    forall steps :: QuietRun(s, steps) ==> HasModel(Exec(s, steps), model)
  }

  /** Every loader that can still attach is loading this model. */
  ghost predicate OnlyPending(s: System, model: ModelIdentity) {
    forall g :: CanAttach(s, g) ==> IdentityOf(s.loaders[g].command) == model
  }

  lemma QuietStepKeepsModel(s: System, step: Step, model: ModelIdentity)
    requires Enabled(s, step) && Quiet(step) && OriginInv(s) && HasModel(s, model) && OnlyPending(s, model)
    ensures HasModel(Next(s, step), model) && OnlyPending(Next(s, step), model)
  {
    var t := Next(s, step);
    assert step.SetPolicy? && s.sh.attachedGen <= step.generation ==> CanAttach(s, step.generation);
    forall g | CanAttach(t, g) ensures IdentityOf(t.loaders[g].command) == model {
      assert CanAttach(s, g);
    }
  }

  lemma {:induction false} QuietRunKeepsModel(s: System, steps: seq<Step>, model: ModelIdentity)
    requires Inv(s) && QuietRun(s, steps) && HasModel(s, model) && OnlyPending(s, model)
    ensures HasModel(Exec(s, steps), model) && OnlyPending(Exec(s, steps), model)
    decreases |steps|
  {
    if steps != [] {
      var front := steps[..|steps| - 1];
      QuietRunKeepsModel(s, front, model);
      RunKeepsInv(s, front);
      QuietStepKeepsModel(Exec(s, front), steps[|steps| - 1], model);
    }
  }

  /** The model a skipped load found stays attached through every run without a new request or
      teardown exactly when every loader that can still attach at the skip loads that model. */
  lemma SkipIsDurableIff(s: System, command: LoadCommand)
    requires Reachable(s) && Skips(s.sh, command)
    ensures ModelStays(s, IdentityOf(command)) <==> OnlyPending(s, IdentityOf(command))
  {
    ReachableInv(s);
    var model := IdentityOf(command);
    if OnlyPending(s, model) {
      forall steps | QuietRun(s, steps) ensures HasModel(Exec(s, steps), model) {
        QuietRunKeepsModel(s, steps, model);
      }
    } else {
      var g :| CanAttach(s, g) && IdentityOf(s.loaders[g].command) != model;
      var after, x := PendingLoadAttaches(s, g);
      assert !HasModel(Exec(s, after), model);
    }
  }

  const MODEL_A := LoadCommand(1, "torch", "cpu", false)
  const MODEL_B := LoadCommand(2, "torch", "cpu", false)

  /** One loader for model A has passed its staleness check and not attached yet. */
  lemma OneLoadCleared() returns (steps: seq<Step>)
    ensures Legal(INITIAL, steps)
    ensures Exec(INITIAL, steps) ==
            System(CancelArming(INITIAL_SHARED), 1, Idle, map[],
                   map[1 := Cleared(MODEL_A, 10)], map[],
                   map[10 := Origin(1, IdentityOf(MODEL_A))], [])
  {
    steps := [];
    LegalSnoc(INITIAL, steps, HandleLoad(MODEL_A)); steps := steps + [HandleLoad(MODEL_A)];
    LegalSnoc(INITIAL, steps, LoadClear); steps := steps + [LoadClear];
    LegalSnoc(INITIAL, steps, LoadCancelArming); steps := steps + [LoadCancelArming];
    LegalSnoc(INITIAL, steps, LoadUnmark(true)); steps := steps + [LoadUnmark(true)];
    LegalSnoc(INITIAL, steps, LoadRequest); steps := steps + [LoadRequest];
    LegalSnoc(INITIAL, steps, Build(1, 10)); steps := steps + [Build(1, 10)];
    LegalSnoc(INITIAL, steps, Handover(1)); steps := steps + [Handover(1)];
  }

  /** Model B is requested while the loader of A waits to attach; A then attaches late. */
  lemma LateAttach() returns (steps: seq<Step>)
    ensures Legal(INITIAL, steps)
    ensures var s := Exec(INITIAL, steps);
            && s.control.Idle? && s.sh.policy == Some(10) && s.sh.attachedGen == 1 && s.loaderGen == 2
            && s.sh.identity == Some(IdentityOf(MODEL_A))
            && s.loaders == map[2 := Loading(MODEL_B)]
            && s.built == map[10 := Origin(1, IdentityOf(MODEL_A))]
  {
    steps := OneLoadCleared();
    LegalSnoc(INITIAL, steps, HandleLoad(MODEL_B)); steps := steps + [HandleLoad(MODEL_B)];
    LegalSnoc(INITIAL, steps, LoadClear); steps := steps + [LoadClear];
    LegalSnoc(INITIAL, steps, LoadCancelArming); steps := steps + [LoadCancelArming];
    LegalSnoc(INITIAL, steps, LoadUnmark(true)); steps := steps + [LoadUnmark(true)];
    LegalSnoc(INITIAL, steps, LoadRequest); steps := steps + [LoadRequest];
    LegalSnoc(INITIAL, steps, SetPolicy(1)); steps := steps + [SetPolicy(1)];
  }

  /** The pending current load runs to completion. */
  lemma PendingLoadFinishes(s: System, g: nat, x: SourceId) returns (after: seq<Step>)
    requires g in s.loaders && s.loaders[g].Loading? && x !in s.built
    requires s.sh.attachedGen <= g == s.loaderGen
    ensures QuietRun(s, after)
    ensures var t := Exec(s, after);
            t.sh.policy == Some(x) && t.built == s.built[x := Origin(g, IdentityOf(s.loaders[g].command))]
  {
    after := [];
    LegalSnoc(s, after, Build(g, x)); after := after + [Build(g, x)];
    LegalSnoc(s, after, Handover(g)); after := after + [Handover(g)];
    LegalSnoc(s, after, SetPolicy(g)); after := after + [SetPolicy(g)];
  }

  /** A run in which the last request, for model A, is skipped and model B ends attached. */
  lemma SkipCanBeUndone() returns (s: System, after: seq<Step>)
    ensures Reachable(s) && s.control.Idle? && Skips(s.sh, MODEL_A)
    ensures QuietRun(s, after)
    ensures var t := Exec(s, after);
            t.sh.policy.Some? && t.sh.policy.value in t.built
            && t.built[t.sh.policy.value].identity == IdentityOf(MODEL_B)
  {
    var steps := LateAttach();
    s := Exec(INITIAL, steps);
    after := PendingLoadFinishes(s, 2, 11);
  }

  // ------------------------------------------------------ is the model published as loaded

  /** The control thread has cleared the identity and not yet cleared `model_loaded`. */
  predicate InLoadWindow(s: System) {
    s.control.LoadCleared? || s.control.LoadCancelled?
  }

  /** This step attaches a source inside such a window. */
  predicate LateAttachStep(s: System, step: Step) {
    InLoadWindow(s) && step.SetPolicy? && step.generation in s.loaders && s.sh.attachedGen <= step.generation
  }

  predicate Published(s: System) {
    && (s.sh.identity.Some? ==> s.sh.modelLoaded)
    && (InLoadWindow(s) ==> s.sh.identity.None?)
  }

  lemma StepKeepsPublished(s: System, step: Step)
    requires Enabled(s, step) && Published(s) && !LateAttachStep(s, step)
    ensures Published(Next(s, step))
  {
  }

  /** A skip finds an unpublished model only after some attach fell inside a load window. */
  lemma {:induction false} UnpublishedNeedsLateAttach(states: seq<System>, steps: seq<Step>, k: nat)
    requires Run(states, steps) && k <= |steps|
    requires forall i :: 0 <= i < k ==> !LateAttachStep(states[i], steps[i])
    ensures Published(states[k])
  {
    if k > 0 {
      UnpublishedNeedsLateAttach(states, steps, k - 1);
      StepAt(states, steps, k - 1);
      StepKeepsPublished(states[k - 1], steps[k - 1]);
    }
  }

  /** An attach inside a load window leaves the model recorded but unpublished as soon as
      the handler runs on, so the next load of that model is skipped in that state. */
  lemma LateAttachUnpublishes(s: System, g: nat, connected: bool) returns (after: seq<Step>)
    requires Enabled(s, SetPolicy(g)) && LateAttachStep(s, SetPolicy(g))
    ensures Legal(s, after)
    ensures var t := Exec(s, after); t.sh.identity.Some? && !t.sh.modelLoaded
  {
    after := [];
    LegalSnoc(s, after, SetPolicy(g)); after := after + [SetPolicy(g)];
    if Exec(s, after).control.LoadCleared? {
      LegalSnoc(s, after, LoadCancelArming); after := after + [LoadCancelArming];
    }
    LegalSnoc(s, after, LoadUnmark(connected)); after := after + [LoadUnmark(connected)];
  }
}
