/** What a recovery pass makes of the jobs whose process is gone, whatever runs beside it. */
module SchedulerRecovery {
  import opened Common
  import opened JobScheduler
  import opened SchedulerSafety
  import opened SchedulerSteps
  import opened SchedulerTheorems
  import opened SchedulerObject

  // ------------------------------------------------------------------------- single steps

  /** In every run, the step that recovers a training job finds it RUNNING without a process, and
      writes PENDING if it trains remotely under a recorded id, FAILED otherwise, and no more. */
  lemma RecoverStepWrites(states: seq<System>, steps: seq<Step>, k: nat, id: JobId)
    requires Run(states, steps) && k < |steps| && steps[k] == Recover(RecoverOne(id))
    ensures id in states[k].rows && id in states[k].spec && states[k].spec[id].training
    ensures states[k].rows[id].status.Running? && !Assigned(states[k], id)
    ensures var row := states[k].rows[id];
            states[k + 1].rows == states[k].rows[id :=
              row.(status := if states[k].spec[id].remote && row.remoteId.Some? then Pending else Failed)]
  {
    RunInv(states, steps, k);
    assert Enabled(states[k], steps[k]) && states[k + 1] == RecoverRow(states[k], id);
    AssignedIsOwned(states[k], id);
  }

  /** The step that recovers an import finds it without a process and writes FAILED. */
  lemma RecoverImportWrites(states: seq<System>, steps: seq<Step>, k: nat, id: JobId)
    requires Run(states, steps) && k < |steps| && steps[k] == Recover(RecoverImport(id))
    ensures id in states[k].rows && id in states[k].spec && !states[k].spec[id].training && !Assigned(states[k], id)
    ensures states[k + 1].rows == states[k].rows[id := states[k].rows[id].(status := Failed)]
  {
    RunInv(states, steps, k);
    assert Enabled(states[k], steps[k]) && states[k + 1] == RecoverNext(states[k], RecoverImport(id));
    AssignedIsOwned(states[k], id);
  }

  // ------------------------------------------------------- requests and workers in between

  /** Requests and workers leave a job without a process as it is, except that a request may
      cancel it: an import it read as live, or a queued training job that cannot reattach. */
  predicate Untouched(s: System, t: System, id: JobId) {
    && (id in t.rows ==> id in s.rows && t.rows[id].remoteId == s.rows[id].remoteId)
    && (id in s.rows && IsLive(s, id) ==> id in t.rows)
    && (id in s.rows && id in t.rows ==> t.rows[id].status == s.rows[id].status)
  }

  predicate Interrupts(s: System, step: Step, id: JobId) {
    && step.Api? && step.a.InterruptDecide? && step.a.h in s.handlers && s.handlers[step.a.h].job == id
  }

  /** A training job that is not queued to be canceled. */
  predicate Steady(s: System, id: JobId) {
    && id in s.spec && s.spec[id].training
    && (id in s.rows && s.rows[id].status.Pending? ==> Survives(s, id))
  }

  lemma ApiLeaves(s: System, a: ApiStep, id: JobId)
    requires SpecInv(s) && ApiEnabled(s, a) && id in s.spec
    requires Steady(s, id) || (!s.spec[id].training && !Interrupts(s, Api(a), id))
    ensures Untouched(s, ApiNext(s, a), id)
  {
    match a
    case SubmitJob(x, _) => assert x != id;
    case InterruptDecide(h) => DecideLeaves(s, h, id);
    case InterruptCancel(h) => TryLeaves(s, h, id);
    case _ =>
  }

  lemma DecideLeaves(s: System, h: nat, id: JobId)
    requires ApiEnabled(s, InterruptDecide(h)) && id in s.spec
    requires s.spec[id].training || s.handlers[h].job != id
    ensures Untouched(s, InterruptAct(s, h), id)
  {
  }

  lemma TryLeaves(s: System, h: nat, id: JobId)
    requires SpecInv(s) && ApiEnabled(s, InterruptCancel(h)) && id in s.spec
    requires Steady(s, id) || !s.spec[id].training
    ensures Untouched(s, InterruptTry(s, h), id)
  {
  }

  lemma WorkLeaves(s: System, w: WorkStep, id: JobId)
    requires ProcInv(s) && WorkEnabled(s, w) && id in s.spec && !Owned(s, id)
    ensures Untouched(s, WorkNext(s, w), id)
  {
    match w
    case Claim(t) => assert s.procs[t].job != id;
    case Record(t, _) => assert s.procs[t].job != id;
    case Merge(t) => assert s.procs[t].job != id;
    case Progress(t) => assert s.procs[t].job != id;
    case Finish(t, _) => assert s.procs[t].job != id;
    case WriteImport(t, _) => assert s.procs[t].job != id;
    case Die(t) =>
  }

  lemma EnvKeepsPlace(s: System, step: Step, id: JobId)
    requires Inv(s) && Enabled(s, step) && (step.Api? || step.Work?) && id in s.spec
    ensures Next(s, step).pc == s.pc && (Owned(Next(s, step), id) <==> Owned(s, id))
  {
    if step.Api? {
      ApiIsEnv(s, step.a);
    } else {
      WorkIsEnv(s, step.w);
    }
    EnvKeepsOwned(s, Next(s, step), id);
  }

  // ------------------------------------------------------------------------ training jobs

  /** The pass has listed the job and has not come to it yet. */
  predicate ToRecover(s: System, id: JobId, spec: Spec, remoteId: Option<nat>) {
    s.pc.Recovering? && id in s.pc.todo && s.pc.todo[id] == remoteId && id in s.spec && s.spec[id] == spec
  }

  /** The pass has come to the job. */
  predicate Recovered(s: System, id: JobId, spec: Spec, remoteId: Option<nat>) {
    && ((s.pc.Recovering? && id !in s.pc.todo) || s.pc.RecoveringImports?)
    && id in s.spec && s.spec[id] == spec && spec.training && !Owned(s, id)
    && (Reattachable(spec, remoteId) ==> id in s.rows)
    && (id in s.rows ==>
          && s.rows[id].remoteId == remoteId
          && s.rows[id].status == if Reattachable(spec, remoteId) then Pending else Failed)
  }

  /** The pass was cut short. */
  predicate CutShort(s: System) {
    !s.pc.Recovering? && !s.pc.RecoveringImports?
  }

  lemma CutShortStays(s: System, step: Step)
    requires Enabled(s, step) && CutShort(s) && step != Recover(RecoverBegin)
    ensures CutShort(Next(s, step))
  {
    match step
    case Api(a) => ApiKeepsPc(s, a);
    case Work(w) => WorkKeepsPc(s, w);
    case Reap(p) => ReapIsAside(s, p);
    case Launch(l) => LaunchIsAside(s, l);
    case _ =>
  }

  lemma ApiKeepsPc(s: System, a: ApiStep)
    requires ApiEnabled(s, a)
    ensures ApiNext(s, a).pc == s.pc
  {
    match a
    case InterruptDecide(_) =>
    case InterruptCancel(_) =>
    case InterruptSignal(_) =>
    case _ =>
  }

  lemma WorkKeepsPc(s: System, w: WorkStep)
    requires WorkEnabled(s, w)
    ensures WorkNext(s, w).pc == s.pc
  {
    match w
    case Claim(_) =>
    case Record(_, _) =>
    case _ =>
  }

  lemma ReapIsAside(s: System, p: ReapStep)
    requires ReapEnabled(s, p)
    ensures CutShort(ReapNext(s, p))
  {
    match p
    case ReapBegin(_) =>
    case ReapFailJob =>
    case _ =>
  }

  lemma LaunchIsAside(s: System, l: LaunchStep)
    requires LaunchEnabled(s, l)
    ensures CutShort(LaunchNext(s, l))
  {
  }

  lemma EnvKeepsRecovery(s: System, step: Step, id: JobId, spec: Spec, remoteId: Option<nat>)
    requires Inv(s) && Enabled(s, step) && (step.Api? || step.Work?)
    ensures ToRecover(s, id, spec, remoteId) ==> ToRecover(Next(s, step), id, spec, remoteId)
    ensures Recovered(s, id, spec, remoteId) ==> Recovered(Next(s, step), id, spec, remoteId)
  {
    if ToRecover(s, id, spec, remoteId) {
      EnvKeepsPlace(s, step, id);
      StepSettles(s, step, id);
    }
    if Recovered(s, id, spec, remoteId) {
      EnvKeepsPlace(s, step, id);
      StepSettles(s, step, id);
      if step.Api? {
        ApiLeaves(s, step.a, id);
      } else {
        WorkLeaves(s, step.w, id);
      }
    }
  }

  lemma RecoverKeepsRecovery(s: System, r: RecoverStep, id: JobId, spec: Spec, remoteId: Option<nat>)
    requires Inv(s) && RecoverEnabled(s, r) && r != RecoverBegin && r != RecoverEnd
    ensures ToRecover(s, id, spec, remoteId) ==>
              if r == RecoverOne(id) then Recovered(RecoverNext(s, r), id, spec, remoteId)
              else ToRecover(RecoverNext(s, r), id, spec, remoteId)
    ensures Recovered(s, id, spec, remoteId) ==> Recovered(RecoverNext(s, r), id, spec, remoteId)
  {
    if r.RecoverOne? {
      RecoverOneProgress(s, r.id, id, spec, remoteId);
    } else {
      ImportsKeepRecovered(s, r, id, spec, remoteId);
    }
  }

  lemma ImportsKeepRecovered(s: System, r: RecoverStep, id: JobId, spec: Spec, remoteId: Option<nat>)
    requires PcInv(s) && RecoverEnabled(s, r) && (r.RecoverImportsBegin? || r.RecoverImport?)
    ensures !ToRecover(s, id, spec, remoteId)
    ensures Recovered(s, id, spec, remoteId) ==> Recovered(RecoverNext(s, r), id, spec, remoteId)
  {
  }

  lemma RecoverOneProgress(s: System, x: JobId, id: JobId, spec: Spec, remoteId: Option<nat>)
    requires Inv(s) && RecoverEnabled(s, RecoverOne(x))
    ensures ToRecover(s, id, spec, remoteId) ==>
              if x == id then Recovered(RecoverRow(s, x), id, spec, remoteId)
              else ToRecover(RecoverRow(s, x), id, spec, remoteId)
    ensures Recovered(s, id, spec, remoteId) ==> Recovered(RecoverRow(s, x), id, spec, remoteId)
  {
    assert Owned(RecoverRow(s, x), id) == Owned(s, id);
  }

  /** Where the pass begun at an earlier step stands with this job. */
  predicate TrainingProgress(s: System, id: JobId, spec: Spec, remoteId: Option<nat>) {
    ToRecover(s, id, spec, remoteId) || Recovered(s, id, spec, remoteId) || CutShort(s)
  }

  lemma PassGoesOn(s: System, step: Step, id: JobId, spec: Spec, remoteId: Option<nat>)
    requires Inv(s) && Enabled(s, step) && step != Recover(RecoverBegin) && TrainingProgress(s, id, spec, remoteId)
    ensures TrainingProgress(Next(s, step), id, spec, remoteId)
  {
    if CutShort(s) {
      CutShortStays(s, step);
    } else if step.Api? || step.Work? {
      EnvKeepsRecovery(s, step, id, spec, remoteId);
    } else if step.Recover? && step.r != RecoverEnd {
      RecoverKeepsRecovery(s, step.r, id, spec, remoteId);
    } else {
      OthersCutShort(s, step);
    }
  }

  lemma OthersCutShort(s: System, step: Step)
    requires Enabled(s, step) && !CutShort(s) && !step.Api? && !step.Work?
    requires step.Recover? ==> step.r == RecoverEnd
    ensures CutShort(Next(s, step))
  {
    match step
    case Control(c) =>
    case Recover(r) =>
    case Reap(p) =>
    case Launch(l) =>
    case _ =>
  }

  lemma PassNext(states: seq<System>, steps: seq<Step>, k: nat, id: JobId, spec: Spec, remoteId: Option<nat>)
    requires Run(states, steps) && k < |steps| && steps[k] != Recover(RecoverBegin)
    requires TrainingProgress(states[k], id, spec, remoteId)
    ensures TrainingProgress(states[k + 1], id, spec, remoteId)
  {
    RunInv(states, steps, k);
    assert Enabled(states[k], steps[k]) && states[k + 1] == Next(states[k], steps[k]);
    PassGoesOn(states[k], steps[k], id, spec, remoteId);
  }

  /** A recovery pass that begins at step `j` and ends at step `k`. */
  predicate PassFromTo(steps: seq<Step>, j: nat, k: nat) {
    && j < k < |steps| && steps[j] == Recover(RecoverBegin) && steps[k] == Recover(RecoverEnd)
    && forall n :: j < n < k ==> !BeginsPass(steps, n)
  }

  lemma BeginLists(states: seq<System>, steps: seq<Step>, j: nat, id: JobId)
    requires Run(states, steps) && j < |steps| && steps[j] == Recover(RecoverBegin)
    requires id in states[j].spec && states[j].spec[id].training && IsRunning(states[j], id) && !Assigned(states[j], id)
    ensures ToRecover(states[j + 1], id, states[j].spec[id], states[j].rows[id].remoteId)
  {
    assert Enabled(states[j], steps[j]) && states[j + 1] == RecoverNext(states[j], RecoverBegin);
  }

  predicate BeginsPass(steps: seq<Step>, n: nat)
    requires n < |steps|
  {
    steps[n] == Recover(RecoverBegin)
  }

  /** Where the pass stands before step `n`. */
  predicate ProgressAt(states: seq<System>, n: nat, id: JobId, spec: Spec, remoteId: Option<nat>) {
    n < |states| && TrainingProgress(states[n], id, spec, remoteId)
  }

  lemma ProgressNext(
    states: seq<System>, steps: seq<Step>, n: nat, id: JobId, spec: Spec, remoteId: Option<nat>)
    requires Run(states, steps) && n < |steps| && !BeginsPass(steps, n) && ProgressAt(states, n, id, spec, remoteId)
    ensures ProgressAt(states, n + 1, id, spec, remoteId)
  {
    PassNext(states, steps, n, id, spec, remoteId);
  }

  lemma PassReaches(
    states: seq<System>, steps: seq<Step>, j: nat, k: nat, id: JobId, spec: Spec, remoteId: Option<nat>)
    requires Run(states, steps) && j <= k <= |steps| && ProgressAt(states, j, id, spec, remoteId)
    requires forall n :: j <= n < k ==> !BeginsPass(steps, n)
    ensures ProgressAt(states, k, id, spec, remoteId)
  {
    var holds := (n: nat) => ProgressAt(states, n, id, spec, remoteId);
    forall n: nat | j <= n < k && holds(n) ensures holds(n + 1) {
      ProgressNext(states, steps, n, id, spec, remoteId);
    }
    Upward(holds, j, k);
  }

  lemma PassEnds(states: seq<System>, steps: seq<Step>, k: nat, id: JobId, spec: Spec, remoteId: Option<nat>)
    requires Run(states, steps) && k < |steps| && steps[k] == Recover(RecoverEnd)
    requires TrainingProgress(states[k], id, spec, remoteId)
    ensures Recovered(states[k], id, spec, remoteId) && states[k + 1].rows == states[k].rows
  {
    assert Enabled(states[k], steps[k]) && states[k + 1] == RecoverNext(states[k], RecoverEnd);
  }

  /** In every run, a training job that is RUNNING without a process when a recovery pass begins
      is, when that pass ends, PENDING under the same remote id if it trains remotely and has one,
      and FAILED (or deleted since) if not, whatever requests and workers do meanwhile. */
  lemma RecoveryOutcome(states: seq<System>, steps: seq<Step>, j: nat, k: nat, id: JobId)
    requires Run(states, steps) && PassFromTo(steps, j, k)
    requires id in states[j].spec && states[j].spec[id].training && IsRunning(states[j], id) && !Assigned(states[j], id)
    ensures var remoteId := states[j].rows[id].remoteId; var rows := states[k + 1].rows;
            if states[j].spec[id].remote && remoteId.Some?
            then id in rows && rows[id].status.Pending? && rows[id].remoteId == remoteId
            else id in rows ==> rows[id].status.Failed? && rows[id].remoteId == remoteId
  {
    var spec, remoteId := states[j].spec[id], states[j].rows[id].remoteId;
    BeginLists(states, steps, j, id);
    PassReaches(states, steps, j + 1, k, id, spec, remoteId);
    PassEnds(states, steps, k, id, spec, remoteId);
  }

  // ------------------------------------------------------------------------------ imports

  predicate ListedImport(s: System, id: JobId) {
    s.pc.RecoveringImports? && id in s.pc.imports && id in s.spec && !s.spec[id].training
  }

  /** The pass has come to the import; `interrupted` says that a request may have canceled it. */
  predicate RecoveredImport(s: System, id: JobId, interrupted: bool) {
    && s.pc.RecoveringImports? && id !in s.pc.imports
    && id in s.spec && !s.spec[id].training && !Owned(s, id)
    && (id in s.rows ==> s.rows[id].status.Failed? || (interrupted && s.rows[id].status.Canceled?))
  }

  predicate ImportProgress(s: System, id: JobId, interrupted: bool) {
    ListedImport(s, id) || RecoveredImport(s, id, interrupted) || !s.pc.RecoveringImports?
  }

  lemma EnvKeepsImport(s: System, step: Step, id: JobId, interrupted: bool)
    requires Inv(s) && Enabled(s, step) && (step.Api? || step.Work?)
    ensures ListedImport(s, id) ==> ListedImport(Next(s, step), id)
    ensures RecoveredImport(s, id, interrupted) ==>
              RecoveredImport(Next(s, step), id, interrupted || Interrupts(s, step, id))
  {
    if ListedImport(s, id) || RecoveredImport(s, id, interrupted) {
      EnvKeepsPlace(s, step, id);
      StepSettles(s, step, id);
      if step.Work? {
        if !Owned(s, id) {
          WorkLeaves(s, step.w, id);
        }
      } else if Interrupts(s, step, id) {
        DecideOnImport(s, step.a.h, id);
      } else {
        ApiLeaves(s, step.a, id);
      }
    }
  }

  lemma DecideOnImport(s: System, h: nat, id: JobId)
    requires ApiEnabled(s, InterruptDecide(h)) && s.handlers[h].job == id && !s.spec[id].training
    ensures var t := InterruptAct(s, h);
            id in t.rows ==> id in s.rows && (t.rows[id].status == s.rows[id].status || t.rows[id].status.Canceled?)
  {
  }

  lemma RecoverImportProgress(s: System, x: JobId, id: JobId, interrupted: bool)
    requires Inv(s) && RecoverEnabled(s, RecoverImport(x))
    ensures var t := RecoverNext(s, RecoverImport(x));
            && (ListedImport(s, id) ==> if x == id then RecoveredImport(t, id, false) else ListedImport(t, id))
            && (RecoveredImport(s, id, interrupted) ==> RecoveredImport(t, id, interrupted))
  {
    assert Owned(RecoverNext(s, RecoverImport(x)), id) == Owned(s, id);
  }

  lemma ImportPassGoesOn(s: System, step: Step, id: JobId, interrupted: bool)
    requires Inv(s) && Enabled(s, step) && step != Recover(RecoverImportsBegin) && ImportProgress(s, id, interrupted)
    ensures ImportProgress(Next(s, step), id, interrupted || Interrupts(s, step, id))
  {
    if step.Api? || step.Work? {
      EnvKeepsImport(s, step, id, interrupted);
      if step.Api? {
        ApiKeepsPc(s, step.a);
      } else {
        WorkKeepsPc(s, step.w);
      }
    } else if step.Recover? && step.r.RecoverImport? {
      RecoverImportProgress(s, step.r.id, id, interrupted);
    } else {
      OthersLeaveImports(s, step);
    }
  }

  lemma OthersLeaveImports(s: System, step: Step)
    requires Enabled(s, step) && !step.Api? && !step.Work?
    requires step.Recover? ==> !step.r.RecoverImport? && step.r != RecoverImportsBegin
    ensures !Next(s, step).pc.RecoveringImports?
  {
    match step
    case Control(c) =>
    case Recover(r) =>
    case Reap(p) => ReapIsAside(s, p);
    case Launch(l) => LaunchIsAside(s, l);
    case _ =>
  }

  predicate InterruptsAt(states: seq<System>, steps: seq<Step>, n: nat, id: JobId)
    requires n < |steps| && n < |states|
  {
    Interrupts(states[n], steps[n], id)
  }

  /** A request decides about the job after step `j` and before step `k`. */
  ghost predicate Interrupted(states: seq<System>, steps: seq<Step>, j: nat, k: nat, id: JobId)
    requires k <= |steps| < |states|
  {
    exists n :: j < n < k && InterruptsAt(states, steps, n, id)
  }

  lemma InterruptedGrows(states: seq<System>, steps: seq<Step>, j: nat, k: nat, id: JobId)
    requires j < k < |steps| < |states|
    ensures Interrupted(states, steps, j, k + 1, id) <==>
            Interrupted(states, steps, j, k, id) || InterruptsAt(states, steps, k, id)
  {
    if Interrupted(states, steps, j, k, id) {
      var n :| j < n < k && InterruptsAt(states, steps, n, id);
      assert j < n < k + 1;
    }
  }

  lemma {:induction false} ImportPass(states: seq<System>, steps: seq<Step>, j: nat, k: nat, id: JobId)
    requires Run(states, steps) && j < k <= |steps| && ListedImport(states[j + 1], id)
    requires forall n :: j < n < k ==> steps[n] != Recover(RecoverImportsBegin)
    ensures ImportProgress(states[k], id, Interrupted(states, steps, j, k, id))
    decreases k
  {
    if j + 1 < k {
      ImportPass(states, steps, j, k - 1, id);
      InterruptedGrows(states, steps, j, k - 1, id);
      ImportNext(states, steps, k - 1, id, Interrupted(states, steps, j, k - 1, id));
    }
  }

  lemma ImportNext(states: seq<System>, steps: seq<Step>, k: nat, id: JobId, interrupted: bool)
    requires Run(states, steps) && k < |steps| && steps[k] != Recover(RecoverImportsBegin)
    requires ImportProgress(states[k], id, interrupted)
    ensures ImportProgress(states[k + 1], id, interrupted || InterruptsAt(states, steps, k, id))
  {
    RunInv(states, steps, k);
    assert Enabled(states[k], steps[k]) && states[k + 1] == Next(states[k], steps[k]);
    ImportPassGoesOn(states[k], steps[k], id, interrupted);
  }

  lemma ImportsListed(states: seq<System>, steps: seq<Step>, j: nat, id: JobId)
    requires Run(states, steps) && j < |steps| && steps[j] == Recover(RecoverImportsBegin)
    requires id in states[j].spec && !states[j].spec[id].training && IsRunning(states[j], id) && !Assigned(states[j], id)
    ensures ListedImport(states[j + 1], id)
  {
    assert Enabled(states[j], steps[j]) && states[j + 1] == RecoverNext(states[j], RecoverImportsBegin);
  }

  /** In every run, an import that is RUNNING without a process when the pass lists the imports is
      FAILED when the pass ends, unless a request interrupted it meanwhile: then it is FAILED,
      CANCELED or deleted. */
  lemma ImportRecoveryOutcome(states: seq<System>, steps: seq<Step>, j: nat, k: nat, id: JobId)
    requires Run(states, steps) && j < k < |steps|
    requires steps[j] == Recover(RecoverImportsBegin) && steps[k] == Recover(RecoverEnd)
    requires forall n :: j < n < k ==> steps[n] != Recover(RecoverImportsBegin)
    requires id in states[j].spec && !states[j].spec[id].training && IsRunning(states[j], id) && !Assigned(states[j], id)
    ensures id in states[k + 1].rows ==>
              || states[k + 1].rows[id].status.Failed?
              || (states[k + 1].rows[id].status.Canceled? && Interrupted(states, steps, j, k, id))
  {
    ImportsListed(states, steps, j, id);
    ImportPass(states, steps, j, k, id);
    assert Enabled(states[k], steps[k]) && states[k + 1] == RecoverNext(states[k], RecoverEnd);
  }

  // --------------------------------------------------------------- the loop and the steps

  /** The steps of a pass over the listed jobs in order; those it excludes it has not to do. */
  function RecoverRows(s: System, listed: seq<Listed>): (t: System)
    requires s.pc.Recovering?
    ensures t.pc.Recovering? && t.spec == s.spec
  {
    if listed == [] then s
    else
      var before := RecoverRows(s, listed[..|listed| - 1]);
      var id := listed[|listed| - 1].id;
      if id in before.pc.todo && id in before.spec then RecoverRow(before, id) else before
  }

  predicate NoneTwice(listed: seq<Listed>) {
    forall i, j :: 0 <= i < j < |listed| ==> listed[i].id != listed[j].id
  }

  /** The rows are listed as the database has them, and those with a process are excluded. */
  ghost predicate ListedFrom(s: System, listed: seq<Listed>, excluded: set<JobId>) {
    && NoneTwice(listed)
    && forall l :: l in listed ==>
         && l.id in s.spec && s.spec[l.id].training && l.id in s.rows && s.rows[l.id].status.Running?
         && l.remoteId == s.rows[l.id].remoteId && (l.id in excluded <==> Assigned(s, l.id))
  }

  lemma ShorterListing(s: System, listed: seq<Listed>, excluded: set<JobId>)
    requires ListedFrom(s, listed, excluded) && listed != []
    ensures ListedFrom(s, listed[..|listed| - 1], excluded)
    ensures forall l :: l in listed[..|listed| - 1] ==> l.id != listed[|listed| - 1].id
  {
    var front := listed[..|listed| - 1];
    assert forall l :: l in front ==> l in listed;
  }

  lemma {:induction false} OtherTodoStays(s: System, listed: seq<Listed>, id: JobId)
    requires s.pc.Recovering? && forall l :: l in listed ==> l.id != id
    ensures var t := RecoverRows(s, listed);
            (id in t.pc.todo <==> id in s.pc.todo) && (id in t.pc.todo ==> t.pc.todo[id] == s.pc.todo[id])
  {
    if listed != [] {
      var n := |listed| - 1;
      assert listed[n] in listed;
      assert forall l :: l in listed[..n] ==> l in listed;
      OtherTodoStays(s, listed[..n], id);
    }
  }

  /** A pass that nothing interrupts writes what the loop of `abort_orphan_jobs` writes. */
  lemma {:induction false} PassIsLoop(s: System, listed: seq<Listed>, excluded: set<JobId>)
    requires s.pc.Ready? && ListedFrom(s, listed, excluded)
    ensures RecoverRows(RecoverNext(s, RecoverBegin), listed).rows == RecoverAll(s.rows, s.spec, listed, excluded)
    decreases |listed|
  {
    if listed != [] {
      var n := |listed| - 1;
      var begun := RecoverNext(s, RecoverBegin);
      assert listed[n] in listed;
      ShorterListing(s, listed, excluded);
      PassIsLoop(s, listed[..n], excluded);
      OtherTodoStays(begun, listed[..n], listed[n].id);
      assert listed[n].id in begun.pc.todo <==> listed[n].id !in excluded;
    }
  }
}
