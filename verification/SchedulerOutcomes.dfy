/**
 What the scheduler's steps do to jobs, in terms of how they were submitted: which jobs never
 run together, what a worker writes, what a dead worker leaves, who flags a batch job, and that
 nothing starts once the scheduler is stopping.
 */
module SchedulerOutcomes {
  import opened Common
  import opened TargetKeys
  import opened JobScheduler
  import opened SchedulerSafety
  import opened SchedulerSteps
  import opened SchedulerTheorems
  import SchedulerRecovery

  // --------------------------------------------------------------------------- submission

  /** What a submission fixes: imports share one key, trainings are keyed by their target. */
  predicate Describes(spec: Spec, job: Option<Payload>) {
    && (spec.training <==> job.Some?)
    && spec.key == (if job.Some? then TargetKey(job.value) else "dataset_import")
    && (spec.remote <==> job.Some? && job.value.Remote?)
    && (spec.onBatch <==> job.Some? && job.value.Remote? && job.value.onBatch)
  }

  lemma SpecNext(states: seq<System>, steps: seq<Step>, k: nat, id: JobId, spec: Spec)
    requires Run(states, steps) && k < |steps| && id in states[k].spec && states[k].spec[id] == spec
    ensures id in states[k + 1].spec && states[k + 1].spec[id] == spec
  {
    assert Enabled(states[k], steps[k]) && states[k + 1] == Next(states[k], steps[k]);
    StepSettles(states[k], steps[k], id);
  }

  lemma {:induction false} SpecIsKept(states: seq<System>, steps: seq<Step>, i: nat, k: nat, id: JobId)
    requires Run(states, steps) && i <= k <= |steps| && id in states[i].spec
    ensures id in states[k].spec && states[k].spec[id] == states[i].spec[id]
    decreases k
  {
    if i < k {
      SpecIsKept(states, steps, i, k - 1, id);
      SpecNext(states, steps, k - 1, id, states[i].spec[id]);
    }
  }

  /** In every run, a job is queued when it is submitted, and stays what it was submitted as. */
  lemma SubmissionIsKept(
    states: seq<System>, steps: seq<Step>, i: nat, k: nat, id: JobId, job: Option<Payload>)
    requires Run(states, steps) && i < k <= |steps| && steps[i] == Api(SubmitJob(id, job))
    ensures id in states[i + 1].rows && states[i + 1].rows[id] == Row(Pending, None, false)
    ensures id in states[k].spec && Describes(states[k].spec[id], job)
  {
    assert Enabled(states[i], steps[i]) && states[i + 1] == Submit(states[i], id, job);
    SpecIsKept(states, steps, i + 1, k, id);
  }

  /** In every run, the jobs of two processes were submitted for targets that do not exclude each
      other: never two local jobs, never one GPU or batch queue twice, and no job beside one that
      may take any GPU of the same trainer. */
  lemma ProcessesUseOtherSlots(
    states: seq<System>, steps: seq<Step>, i: nat, j: nat, k: nat, a: string, b: string, p: Payload, q: Payload)
    requires Run(states, steps) && i < k <= |steps| && j < k
    requires a in states[k].procs && b in states[k].procs && a != b && WellFormed(p) && WellFormed(q)
    requires steps[i] == Api(SubmitJob(states[k].procs[a].job, Some(p)))
    requires steps[j] == Api(SubmitJob(states[k].procs[b].job, Some(q)))
    ensures !SameSlot(p, q)
  {
    SubmissionIsKept(states, steps, i, k, states[k].procs[a].job, Some(p));
    SubmissionIsKept(states, steps, j, k, states[k].procs[b].job, Some(q));
    RunInv(states, steps, k);
    ReservationsAreExclusive(states, steps, k, a, b);
    KeysConflictIff(p, q);
  }

  /** In every run, at most one process imports. */
  lemma OneImportAtATime(
    states: seq<System>, steps: seq<Step>, i: nat, j: nat, k: nat, a: string, b: string)
    requires Run(states, steps) && i < k <= |steps| && j < k
    requires a in states[k].procs && b in states[k].procs
    requires steps[i] == Api(SubmitJob(states[k].procs[a].job, None))
    requires steps[j] == Api(SubmitJob(states[k].procs[b].job, None))
    ensures a == b
  {
    SubmissionIsKept(states, steps, i, k, states[k].procs[a].job, None);
    SubmissionIsKept(states, steps, j, k, states[k].procs[b].job, None);
    RunInv(states, steps, k);
  }

  // ------------------------------------------------------------------------------ workers

  /** In every run, a worker that starts takes its job exactly when the row is PENDING, and a
      worker that ends writes the status it ends with, both to that one row. */
  lemma WorkerWrites(states: seq<System>, steps: seq<Step>, k: nat, t: string)
    requires Run(states, steps) && k < |steps| && t in states[k].procs
    ensures var s, next, id := states[k], states[k + 1], states[k].procs[t].job;
            && (steps[k] == Work(Claim(t)) ==>
                  if id in s.rows && s.rows[id].status.Pending?
                  then next.rows == s.rows[id := s.rows[id].(status := Running)] && next.procs[t].life.Claimed?
                  else next.rows == s.rows && next.procs[t].life.Exiting?)
            && (forall status :: steps[k] == Work(Finish(t, status)) ==>
                  id in s.rows && next.rows == s.rows[id := s.rows[id].(status := status)])
  {
    RunInv(states, steps, k);
    assert Enabled(states[k], steps[k]) && states[k + 1] == Next(states[k], steps[k]);
    if steps[k] == Work(Claim(t)) {
      assert states[k + 1] == WorkerClaim(states[k], t);
    }
  }

  /** In every run, a worker records the remote id it was given, and an import the status it
      reports, in the row of its own job and nowhere else; progress changes nothing, and the first
      write only the flag. */
  lemma WorkerRecords(states: seq<System>, steps: seq<Step>, k: nat, t: string)
    requires Run(states, steps) && k < |steps| && t in states[k].procs
    ensures var s, next, id := states[k], states[k + 1], states[k].procs[t].job;
            && (forall remoteId :: steps[k] == Work(Record(t, remoteId)) ==>
                  id in s.rows && next.rows == s.rows[id := s.rows[id].(remoteId := Some(remoteId))])
            && (forall status :: steps[k] == Work(WriteImport(t, status)) ==>
                  next.rows == if id in s.rows then s.rows[id := s.rows[id].(status := status)] else s.rows)
            && (steps[k] == Work(Progress(t)) ==> next.rows == s.rows)
            && (steps[k] == Work(Merge(t)) ==>
                  t in s.unmerged && id in s.rows
                  && next.rows == s.rows[id := s.rows[id].(cancelFlag := s.unmerged[t])])
  {
    RunInv(states, steps, k);
    assert Enabled(states[k], steps[k]) && states[k + 1] == Next(states[k], steps[k]);
    if steps[k].Work? && steps[k].w.Record? && steps[k].w.target == t {
      assert states[k + 1] == RecordRemote(states[k], t, steps[k].w.remoteId);
    }
  }

  /** The target is reserved for the job; only a process that was started can claim it. */
  predicate Reserves(s: System, t: System, target: string, id: JobId, started: bool) {
    && target in t.procs && t.procs == s.procs[target := t.procs[target]]
    && t.procs[target].job == id && (t.procs[target].life == if started then Starting else Unstarted)
  }

  /** In every run, looking at a queued training job reserves its target for it exactly when no
      process holds a conflicting one and no stop was requested; a start that fails leaves a
      reservation that nothing runs behind, and ends the pass. */
  lemma LaunchOutcome(states: seq<System>, steps: seq<Step>, k: nat, id: JobId, started: bool)
    requires Run(states, steps) && k < |steps| && steps[k] == Launch(ScheduleJob(id, started))
    ensures id in states[k].spec && states[k + 1].rows == states[k].rows
    ensures var s, t, key := states[k], states[k + 1], states[k].spec[id].key;
            if s.stop || exists held :: held in s.procs && Blocks(held, key) then t.procs == s.procs && t.pc.Scheduling?
            else
              && key !in s.procs && Reserves(s, t, key, id, started)
              && id in t.events && t.procs[key].event == Some(t.events[id])
              && (if started then t.pc.Scheduling? else t.pc.Ready? && !t.recovered)
  {
    assert Enabled(states[k], steps[k]) && states[k + 1] == ScheduleOne(states[k], id, started);
    BusyMeansBlocked(states[k].spec[id].key, states[k].procs.Keys);
  }

  predicate LooksAt(step: Step, id: JobId) {
    step.Launch? && step.l.ScheduleJob? && step.l.id == id
  }

  predicate LooksAtAt(steps: seq<Step>, n: nat, id: JobId)
    requires n < |steps|
  {
    LooksAt(steps[n], id)
  }

  /** The pass under way, if any, has the job still to look at. */
  predicate ToLookAt(s: System, id: JobId) {
    s.pc.Scheduling? ==> id in s.pc.jobs
  }

  lemma LaunchKeepsToLook(s: System, l: LaunchStep, id: JobId)
    requires LaunchEnabled(s, l) && ToLookAt(s, id) && l != ScheduleBegin && !LooksAt(Launch(l), id)
    ensures ToLookAt(LaunchNext(s, l), id)
  {
  }

  lemma KeepsToLook(s: System, step: Step, id: JobId)
    requires Enabled(s, step) && ToLookAt(s, id) && step != Launch(ScheduleBegin) && !LooksAt(step, id)
    ensures ToLookAt(Next(s, step), id)
  {
    match step
    case Api(a) => SchedulerRecovery.ApiKeepsPc(s, a);
    case Work(w) => SchedulerRecovery.WorkKeepsPc(s, w);
    case Launch(l) => LaunchKeepsToLook(s, l, id);
    case Reap(p) => ReapSchedulesNone(s, p);
    case Recover(r) => RecoverSchedulesNone(s, r);
    case Control(c) => ControlKeepsToLook(s, c, id);
  }

  lemma RecoverSchedulesNone(s: System, r: RecoverStep)
    requires RecoverEnabled(s, r)
    ensures !RecoverNext(s, r).pc.Scheduling?
  {
  }

  lemma ControlKeepsToLook(s: System, c: ControlStep, id: JobId)
    requires ControlEnabled(s, c) && ToLookAt(s, id)
    ensures ToLookAt(ControlNext(s, c), id)
  {
  }

  lemma ReapSchedulesNone(s: System, p: ReapStep)
    requires ReapEnabled(s, p)
    ensures !ReapNext(s, p).pc.Scheduling?
  {
    match p
    case ReapBegin(_) =>
    case ReapFailJob =>
    case _ =>
  }

  lemma {:induction false} LookedAtOrListed(states: seq<System>, steps: seq<Step>, i: nat, k: nat, id: JobId)
    requires Run(states, steps) && i <= k <= |steps| && ToLookAt(states[i], id)
    requires forall n :: i <= n < k ==> steps[n] != Launch(ScheduleBegin)
    ensures ToLookAt(states[k], id) || exists n :: i <= n < k && LooksAtAt(steps, n, id)
    decreases k
  {
    if i < k {
      LookedAtOrListed(states, steps, i, k - 1, id);
      if ToLookAt(states[k - 1], id) && !LooksAtAt(steps, k - 1, id) {
        assert Enabled(states[k - 1], steps[k - 1]) && states[k] == Next(states[k - 1], steps[k - 1]);
        KeepsToLook(states[k - 1], steps[k - 1], id);
      }
    }
  }

  /** In every run, a scheduling pass that ends has looked at every training job that was PENDING
      when it began. */
  lemma PassLooksAtAll(states: seq<System>, steps: seq<Step>, i: nat, k: nat, id: JobId)
    requires Run(states, steps) && i < k < |steps|
    requires steps[i] == Launch(ScheduleBegin) && steps[k] == Launch(ScheduleEnd)
    requires forall n :: i < n < k ==> steps[n] != Launch(ScheduleBegin)
    requires id in states[i].rows && states[i].rows[id].status.Pending?
    requires id in states[i].spec && states[i].spec[id].training
    ensures exists n :: i < n < k && LooksAtAt(steps, n, id)
  {
    assert Enabled(states[i], steps[i]) && states[i + 1] == LaunchNext(states[i], ScheduleBegin);
    LookedAtOrListed(states, steps, i + 1, k, id);
    assert Enabled(states[k], steps[k]);
    if n :| i + 1 <= n < k && LooksAtAt(steps, n, id) {
      assert i < n < k;
    }
  }

  /** In every run, an import is claimed while the slot is free and no stop is requested: its row
      alone goes from PENDING to RUNNING. */
  lemma ImportClaimOutcome(states: seq<System>, steps: seq<Step>, k: nat, id: JobId)
    requires Run(states, steps) && k < |steps| && steps[k] == Launch(ClaimImport(id))
    ensures !states[k].stop && "dataset_import" !in states[k].procs
    ensures id in states[k].rows && states[k].rows[id].status.Pending?
    ensures states[k + 1].rows == states[k].rows[id := states[k].rows[id].(status := Running)]
  {
    assert Enabled(states[k], steps[k]) && states[k + 1] == LaunchNext(states[k], ClaimImport(id));
  }

  /** In every run, a claimed import gets the import slot, which was free, unless a stop was
      requested since; if its process cannot be started, nothing runs behind the slot either. */
  lemma ImportLaunchOutcome(states: seq<System>, steps: seq<Step>, k: nat, started: bool)
    requires Run(states, steps) && k < |steps| && steps[k] == Launch(StartImport(started))
    ensures states[k].pc.ImportClaimed? && states[k + 1].pc.Ready? && states[k + 1].rows == states[k].rows
    ensures var s, t := states[k], states[k + 1];
            if s.stop then t.procs == s.procs
            else
              && "dataset_import" !in s.procs && Reserves(s, t, "dataset_import", s.pc.job, started)
              && t.recovered == (s.recovered && started)
  {
    RunInv(states, steps, k);
    assert Enabled(states[k], steps[k]) && states[k + 1] == ImportStart(states[k], started);
  }

  // ------------------------------------------------------------------------- dead workers

  /** What the reaper finds about the job of a dead worker. */
  predicate Reattaches(s: System, id: JobId) {
    && id in s.rows && id in s.spec && s.spec[id].training && s.spec[id].remote && s.rows[id].remoteId.Some?
    && (s.rows[id].status.Pending? || s.rows[id].status.Running?)
  }

  predicate LeftPending(s: System, id: JobId) {
    && id in s.rows && id in s.spec && s.spec[id].training && s.rows[id].status.Pending?
    && !(s.spec[id].remote && s.rows[id].remoteId.Some?) && !s.stop
  }

  /** The reap of target `t` begun for job `id` is under way or cut short. */
  predicate ReapGoesOn(s: System, t: string, id: JobId, reattaching: bool, failing: bool) {
    s.pc.Reaping? ==>
      && s.pc.target == t && t in s.procs && s.procs[t].job == id && s.pc.reattaching == reattaching
      && id in s.spec && s.spec[id].training
      && (failing && !s.pc.fail ==> id in s.rows ==> s.rows[id].status.Failed?)
  }

  lemma ReapBegins(states: seq<System>, steps: seq<Step>, k: nat, t: string)
    requires Run(states, steps) && k < |steps| && steps[k] == Reap(ReapBegin(t))
    requires t in states[k].procs && states[k].procs[t].training
    ensures var id := states[k].procs[t].job;
            ReapGoesOn(states[k + 1], t, id, Reattaches(states[k], id), LeftPending(states[k], id))
  {
    RunInv(states, steps, k);
    assert Enabled(states[k], steps[k]) && states[k + 1] == ReapRead(states[k], t);
  }

  lemma ReapContinues(s: System, step: Step, t: string, id: JobId, reattaching: bool, failing: bool)
    requires Inv(s) && Enabled(s, step) && ReapGoesOn(s, t, id, reattaching, failing)
    requires !(step.Reap? && step.p.ReapBegin?)
    ensures ReapGoesOn(Next(s, step), t, id, reattaching, failing)
  {
    if step.Api? || step.Work? {
      BesideReap(s, step, t, id, reattaching, failing);
    } else if step == Reap(ReapFailJob) {
      assert Next(s, step) == ReapFail(s);
    } else {
      OthersEndReap(s, step);
    }
  }

  lemma OthersEndReap(s: System, step: Step)
    requires Enabled(s, step) && !step.Api? && !step.Work?
    requires step.Reap? ==> !step.p.ReapBegin? && !step.p.ReapFailJob?
    ensures !Next(s, step).pc.Reaping?
  {
    match step
    case Recover(r) => RecoverEndsReap(s, r);
    case Reap(p) => ReapEndsReap(s, p);
    case Launch(l) => LaunchEndsReap(s, l);
    case Control(c) => ControlEndsReap(s, c);
    case _ =>
  }

  lemma RecoverEndsReap(s: System, r: RecoverStep)
    requires RecoverEnabled(s, r)
    ensures !RecoverNext(s, r).pc.Reaping?
  {
  }

  lemma ReapEndsReap(s: System, p: ReapStep)
    requires ReapEnabled(s, p) && !p.ReapBegin? && !p.ReapFailJob?
    ensures !ReapNext(s, p).pc.Reaping?
  {
  }

  lemma LaunchEndsReap(s: System, l: LaunchStep)
    requires LaunchEnabled(s, l)
    ensures !LaunchNext(s, l).pc.Reaping?
  {
    match l
    case ScheduleJob(_, _) =>
    case StartImport(_) =>
    case _ =>
  }

  lemma ControlEndsReap(s: System, c: ControlStep)
    requires ControlEnabled(s, c)
    ensures !ControlNext(s, c).pc.Reaping?
  {
  }

  lemma BesideReap(s: System, step: Step, t: string, id: JobId, reattaching: bool, failing: bool)
    requires Inv(s) && Enabled(s, step) && (step.Api? || step.Work?)
    requires ReapGoesOn(s, t, id, reattaching, failing)
    ensures ReapGoesOn(Next(s, step), t, id, reattaching, failing)
  {
    var next := Next(s, step);
    if step.Api? {
      ApiIsEnv(s, step.a);
    } else {
      WorkIsEnv(s, step.w);
    }
    assert EnvFields(s, next) && SameProc(s, next, t);
    if s.pc.Reaping? {
      StepSettles(s, step, id);
      if failing && !s.pc.fail && id in s.rows && id in next.rows {
        TerminalChangesIff(s, step, id);
      }
    }
  }

  lemma {:induction false} ReapReaches(states: seq<System>, steps: seq<Step>, i: nat, k: nat, t: string)
    requires Run(states, steps) && i < k <= |steps| && steps[i] == Reap(ReapBegin(t))
    requires t in states[i].procs && states[i].procs[t].training
    requires forall n :: i < n < k ==> !(steps[n].Reap? && steps[n].p.ReapBegin?)
    ensures var id := states[i].procs[t].job;
            ReapGoesOn(states[k], t, id, Reattaches(states[i], id), LeftPending(states[i], id))
    decreases k
  {
    var id := states[i].procs[t].job;
    if i + 1 == k {
      ReapBegins(states, steps, i, t);
    } else {
      ReapReaches(states, steps, i, k - 1, t);
      ReapNextAt(states, steps, k - 1, t, id, Reattaches(states[i], id), LeftPending(states[i], id));
    }
  }

  lemma ReapNextAt(
    states: seq<System>, steps: seq<Step>, k: nat, t: string, id: JobId, reattaching: bool, failing: bool)
    requires Run(states, steps) && k < |steps| && !(steps[k].Reap? && steps[k].p.ReapBegin?)
    requires ReapGoesOn(states[k], t, id, reattaching, failing)
    ensures ReapGoesOn(states[k + 1], t, id, reattaching, failing)
  {
    RunInv(states, steps, k);
    assert Enabled(states[k], steps[k]) && states[k + 1] == Next(states[k], steps[k]);
    ReapContinues(states[k], steps[k], t, id, reattaching, failing);
  }

  /** In every run, when the reap of a dead worker ends its target is free; its job, if it was
      still PENDING with nothing to reattach to and the scheduler was not stopping, is FAILED; and
      its cancel event is kept exactly for a job that reattaches. */
  lemma ReapOutcome(states: seq<System>, steps: seq<Step>, i: nat, k: nat, t: string)
    requires Run(states, steps) && i < k < |steps|
    requires steps[i] == Reap(ReapBegin(t)) && steps[k] == Reap(ReapFinish)
    requires t in states[i].procs && states[i].procs[t].training
    requires forall n :: i < n < k ==> !(steps[n].Reap? && steps[n].p.ReapBegin?)
    ensures t in states[k].procs && states[k + 1].procs == states[k].procs - {t}
    ensures var id := states[i].procs[t].job;
            && (LeftPending(states[i], id) && id in states[k + 1].rows ==> states[k + 1].rows[id].status.Failed?)
            && id in states[k].events
            && states[k + 1].events == if Reattaches(states[i], id) then states[k].events else states[k].events - {id}
  {
    ReapReaches(states, steps, i, k, t);
    RunInv(states, steps, k);
    assert Enabled(states[k], steps[k]) && states[k + 1] == ReapEnd(states[k]);
  }

  // ------------------------------------------------------------------------------ cleaning

  /** What the thread remembers between the parts of a cleaning, if it is at one. */
  predicate Remembers(s: System, unassigned: set<JobId>, ids: set<JobId>) {
    && (s.pc.CleaningRead? ==> s.pc.unassigned == unassigned)
    && (s.pc.Cleaning? ==> s.pc.ids == ids)
  }

  lemma CleaningStays(s: System, step: Step, unassigned: set<JobId>, ids: set<JobId>)
    requires Enabled(s, step) && Remembers(s, unassigned, ids)
    requires step != Reap(CleanBegin) && step != Reap(CleanRead)
    ensures Remembers(Next(s, step), unassigned, ids)
  {
    match step
    case Api(a) => SchedulerRecovery.ApiKeepsPc(s, a);
    case Work(w) => SchedulerRecovery.WorkKeepsPc(s, w);
    case Recover(r) => RecoverCleansNone(s, r);
    case Launch(l) => LaunchCleansNone(s, l);
    case Reap(p) => ReapCleansNone(s, p);
    case Control(c) => ControlCleansNone(s, c);
  }

  lemma ControlCleansNone(s: System, c: ControlStep)
    requires ControlEnabled(s, c)
    ensures !ControlNext(s, c).pc.CleaningRead? && !ControlNext(s, c).pc.Cleaning?
  {
  }

  lemma RecoverCleansNone(s: System, r: RecoverStep)
    requires RecoverEnabled(s, r)
    ensures !RecoverNext(s, r).pc.CleaningRead? && !RecoverNext(s, r).pc.Cleaning?
  {
  }

  lemma LaunchCleansNone(s: System, l: LaunchStep)
    requires LaunchEnabled(s, l)
    ensures !LaunchNext(s, l).pc.CleaningRead? && !LaunchNext(s, l).pc.Cleaning?
  {
    match l
    case ScheduleJob(_, _) =>
    case StartImport(_) =>
    case _ =>
  }

  lemma ReapCleansNone(s: System, p: ReapStep)
    requires ReapEnabled(s, p) && p != CleanBegin && p != CleanRead
    ensures !ReapNext(s, p).pc.CleaningRead? && !ReapNext(s, p).pc.Cleaning?
  {
    match p
    case ReapBegin(_) =>
    case ReapFailJob =>
    case _ =>
  }

  lemma {:induction false} CleaningReaches(
    states: seq<System>, steps: seq<Step>, i: nat, k: nat, unassigned: set<JobId>, ids: set<JobId>)
    requires Run(states, steps) && i <= k <= |steps| && Remembers(states[i], unassigned, ids)
    requires forall n :: i <= n < k ==> steps[n] != Reap(CleanBegin) && steps[n] != Reap(CleanRead)
    ensures Remembers(states[k], unassigned, ids)
    decreases k
  {
    if i < k {
      CleaningReaches(states, steps, i, k - 1, unassigned, ids);
      assert Enabled(states[k - 1], steps[k - 1]) && states[k] == Next(states[k - 1], steps[k - 1]);
      CleaningStays(states[k - 1], steps[k - 1], unassigned, ids);
    }
  }

  /** The steps of one cleaning. */
  predicate CleansFromTo(steps: seq<Step>, i: nat, j: nat, k: nat) {
    && i < j < k < |steps|
    && steps[i] == Reap(CleanBegin) && steps[j] == Reap(CleanRead) && steps[k] == Reap(CleanEnd)
    && forall n :: i < n < k && n != j ==> steps[n] != Reap(CleanBegin) && steps[n] != Reap(CleanRead)
  }

  ghost predicate Abandoned(s: System, later: System, id: JobId) {
    id in s.events && !Assigned(s, id) && !IsLive(later, id)
  }

  /** In every run, a cleaning forgets exactly the cancel events of jobs that had no process when it
      began and were neither PENDING nor RUNNING when it read them. */
  lemma CleaningOutcome(states: seq<System>, steps: seq<Step>, i: nat, j: nat, k: nat, id: JobId)
    requires Run(states, steps) && CleansFromTo(steps, i, j, k)
    ensures id in states[k + 1].events <==> id in states[k].events && !Abandoned(states[i], states[j], id)
    ensures id in states[k + 1].events ==> states[k + 1].events[id] == states[k].events[id]
  {
    var unassigned := CleanBegins(states, steps, i);
    CleaningReaches(states, steps, i + 1, j, unassigned, {});
    var ids := CleanReads(states, steps, j, unassigned);
    CleaningReaches(states, steps, j + 1, k, {}, ids);
    assert Enabled(states[k], steps[k]) && states[k + 1] == ReapNext(states[k], CleanEnd);
  }

  lemma CleanBegins(states: seq<System>, steps: seq<Step>, i: nat) returns (unassigned: set<JobId>)
    requires Run(states, steps) && i < |steps| && steps[i] == Reap(CleanBegin)
    ensures Remembers(states[i + 1], unassigned, {})
    ensures forall id :: id in unassigned <==> id in states[i].events && !Assigned(states[i], id)
  {
    assert Enabled(states[i], steps[i]) && states[i + 1] == ReapNext(states[i], CleanBegin);
    unassigned := states[i + 1].pc.unassigned;
  }

  lemma CleanReads(states: seq<System>, steps: seq<Step>, j: nat, unassigned: set<JobId>) returns (ids: set<JobId>)
    requires Run(states, steps) && j < |steps| && steps[j] == Reap(CleanRead) && Remembers(states[j], unassigned, {})
    ensures Remembers(states[j + 1], {}, ids)
    ensures forall id :: id in ids <==> id in unassigned && !IsLive(states[j], id)
  {
    assert Enabled(states[j], steps[j]) && states[j + 1] == ReapNext(states[j], CleanRead);
    ids := states[j + 1].pc.ids;
  }

  // ------------------------------------------------------------------------- batch requests

  /** An interrupt request decides about a batch job that it read as live and that still exists. */
  predicate FlagsBatch(s: System, step: Step, id: JobId) {
    && step.Api? && step.a.InterruptDecide? && step.a.h in s.handlers
    && s.handlers[step.a.h].job == id && s.handlers[step.a.h].Seen?
    && (s.handlers[step.a.h].row.status.Pending? || s.handlers[step.a.h].row.status.Running?)
    && id in s.rows && id in s.spec && s.spec[id].training && s.spec[id].onBatch
  }

  /** The first write of a worker puts back a row it claimed before it was flagged. */
  predicate Erases(s: System, step: Step, id: JobId) {
    && step.Work? && step.w.Merge? && step.w.target in s.procs && s.procs[step.w.target].job == id
    && step.w.target in s.unmerged && !s.unmerged[step.w.target]
  }

  /** A claimed row that its worker has still to write back and that had the flag still has it. */
  predicate KeepsClaimed(s: System, t: string) {
    t in s.procs && s.procs[t].life.Claimed? && t in s.unmerged && s.unmerged[t] ==>
      s.procs[t].job in s.rows && s.rows[s.procs[t].job].cancelFlag
  }

  ghost predicate MergeInv(s: System) {
    forall t {:trigger KeepsClaimed(s, t)} :: KeepsClaimed(s, t)
  }

  /** The row's flag from one state to the next; a new row has none. */
  predicate FlagMoves(s: System, t: System, id: JobId, flagged: bool, erased: bool) {
    id in t.rows ==>
      if id in s.rows then t.rows[id].cancelFlag == ((s.rows[id].cancelFlag || flagged) && !erased)
      else !t.rows[id].cancelFlag && id !in s.spec
  }

  lemma ApiFlags(s: System, a: ApiStep, id: JobId)
    requires SpecInv(s) && ApiEnabled(s, a)
    ensures FlagMoves(s, ApiNext(s, a), id, FlagsBatch(s, Api(a), id), false)
  {
    match a
    case InterruptDecide(h) => DecideFlags(s, h, id);
    case InterruptCancel(_) =>
    case _ =>
  }

  lemma DecideFlags(s: System, h: nat, id: JobId)
    requires ApiEnabled(s, InterruptDecide(h))
    ensures FlagMoves(s, InterruptAct(s, h), id, FlagsBatch(s, Api(InterruptDecide(h)), id), false)
  {
  }

  lemma RecoverFlags(s: System, r: RecoverStep, id: JobId)
    requires RecoverEnabled(s, r)
    ensures FlagMoves(s, RecoverNext(s, r), id, false, false)
  {
  }

  lemma ReapFlags(s: System, p: ReapStep, id: JobId)
    requires ReapEnabled(s, p)
    ensures FlagMoves(s, ReapNext(s, p), id, false, false)
  {
    match p
    case ReapBegin(_) =>
    case ReapFailJob =>
    case _ =>
  }

  lemma LaunchFlags(s: System, l: LaunchStep, id: JobId)
    requires LaunchEnabled(s, l)
    ensures FlagMoves(s, LaunchNext(s, l), id, false, false)
  {
  }

  lemma WorkFlags(s: System, w: WorkStep, id: JobId)
    requires WorkEnabled(s, w) && KeepsClaimed(s, w.target)
    ensures FlagMoves(s, WorkNext(s, w), id, false, Erases(s, Work(w), id))
  {
    match w
    case Claim(_) =>
    case Merge(_) =>
    case Record(_, _) =>
    case _ =>
  }

  lemma StepFlags(s: System, step: Step, id: JobId)
    requires SpecInv(s) && MergeInv(s) && Enabled(s, step)
    ensures FlagMoves(s, Next(s, step), id, FlagsBatch(s, step, id), Erases(s, step, id))
  {
    match step
    case Api(a) => ApiFlags(s, a, id);
    case Recover(r) => RecoverFlags(s, r, id);
    case Reap(p) => ReapFlags(s, p, id);
    case Launch(l) => LaunchFlags(s, l, id);
    case Work(w) =>
      assert KeepsClaimed(s, w.target);
      WorkFlags(s, w, id);
    case Control(c) =>
  }

  /** A claimed worker was claimed before, and has no more to write back than before. */
  predicate ClaimedBefore(s: System, next: System, t: string) {
    t in next.procs && next.procs[t].life.Claimed? ==>
      && t in s.procs && s.procs[t].life.Claimed? && s.procs[t].job == next.procs[t].job
      && (t in next.unmerged ==> t in s.unmerged && next.unmerged[t] == s.unmerged[t])
  }

  lemma ScheduleClaimsNone(s: System, id: JobId, started: bool, t: string)
    requires s.pc.Scheduling? && id in s.pc.jobs && id in s.spec
    ensures ClaimedBefore(s, ScheduleOne(s, id, started), t)
  {
  }

  lemma LaunchClaimsNone(s: System, l: LaunchStep, t: string)
    requires LaunchEnabled(s, l)
    ensures ClaimedBefore(s, LaunchNext(s, l), t)
  {
    match l
    case ScheduleJob(id, started) => ScheduleClaimsNone(s, id, started, t);
    case StartImport(_) =>
    case _ =>
  }

  lemma ReapClaimsNone(s: System, p: ReapStep, t: string)
    requires ReapEnabled(s, p)
    ensures ClaimedBefore(s, ReapNext(s, p), t)
  {
    match p
    case ReapBegin(_) =>
    case ReapFailJob =>
    case ReapFinish =>
    case _ =>
  }

  lemma WorkClaimsOne(s: System, w: WorkStep, t: string)
    requires WorkEnabled(s, w) && w != Claim(t)
    ensures ClaimedBefore(s, WorkNext(s, w), t)
  {
    match w
    case Claim(_) =>
    case Merge(_) =>
    case Record(_, _) =>
    case _ =>
  }

  lemma ApiClaimsNone(s: System, a: ApiStep, t: string)
    requires ApiEnabled(s, a)
    ensures ClaimedBefore(s, ApiNext(s, a), t)
  {
    ApiFrame(s, a);
    match a
    case InterruptDecide(_) =>
    case InterruptCancel(_) =>
    case InterruptSignal(_) =>
    case _ =>
  }

  lemma RecoverClaimsNone(s: System, r: RecoverStep, t: string)
    requires RecoverEnabled(s, r)
    ensures ClaimedBefore(s, RecoverNext(s, r), t)
  {
  }

  lemma ControlClaimsNone(s: System, c: ControlStep, t: string)
    requires ControlEnabled(s, c)
    ensures ClaimedBefore(s, ControlNext(s, c), t)
  {
  }

  lemma OthersClaimNone(s: System, step: Step, t: string)
    requires Enabled(s, step) && step != Work(Claim(t))
    ensures ClaimedBefore(s, Next(s, step), t)
  {
    match step
    case Api(a) => ApiClaimsNone(s, a, t);
    case Recover(r) => RecoverClaimsNone(s, r, t);
    case Reap(p) => ReapClaimsNone(s, p, t);
    case Launch(l) => LaunchClaimsNone(s, l, t);
    case Work(w) => WorkClaimsOne(s, w, t);
    case Control(c) => ControlClaimsNone(s, c, t);
  }

  lemma ClaimKeepsClaimed(s: System, t: string)
    requires t in s.procs && (s.procs[t].life.Starting?)
    ensures KeepsClaimed(WorkerClaim(s, t), t)
  {
  }

  lemma StepKeepsClaimed(s: System, step: Step, t: string)
    requires Inv(s) && MergeInv(s) && Enabled(s, step) && ClaimInv(Next(s, step))
    ensures KeepsClaimed(Next(s, step), t)
  {
    if step == Work(Claim(t)) {
      ClaimKeepsClaimed(s, t);
    } else {
      OthersClaimNone(s, step, t);
      assert KeepsClaimed(s, t);
      if t in s.procs {
        StepFlags(s, step, s.procs[t].job);
        if t in s.unmerged && s.unmerged[t] {
          OwnWorkerErases(s, step, t);
        }
      }
    }
  }

  /** Only its own worker writes a claimed row back. */
  lemma OwnWorkerErases(s: System, step: Step, t: string)
    requires ProcInv(s) && t in s.procs && t in s.unmerged && s.unmerged[t]
    ensures !Erases(s, step, s.procs[t].job)
  {
  }

  lemma {:induction false} RunMerges(states: seq<System>, steps: seq<Step>, k: nat)
    requires Run(states, steps) && k <= |steps|
    ensures MergeInv(states[k])
  {
    if k > 0 {
      RunMerges(states, steps, k - 1);
      MergesNext(states, steps, k - 1);
    }
  }

  lemma MergesNext(states: seq<System>, steps: seq<Step>, k: nat)
    requires Run(states, steps) && k < |steps| && MergeInv(states[k])
    ensures MergeInv(states[k + 1])
  {
    var next := states[k + 1];
    forall t ensures KeepsClaimed(next, t) {
      ClaimedNext(states, steps, k, t);
    }
  }

  lemma ClaimedNext(states: seq<System>, steps: seq<Step>, k: nat, t: string)
    requires Run(states, steps) && k < |steps| && MergeInv(states[k])
    ensures KeepsClaimed(states[k + 1], t)
  {
    RunInv(states, steps, k);
    RunInv(states, steps, k + 1);
    assert Enabled(states[k], steps[k]) && states[k + 1] == Next(states[k], steps[k]);
    StepKeepsClaimed(states[k], steps[k], t);
  }

  predicate FlagsAt(states: seq<System>, steps: seq<Step>, n: nat, id: JobId)
    requires n < |steps| && n < |states|
  {
    FlagsBatch(states[n], steps[n], id)
  }

  predicate ErasesAt(states: seq<System>, steps: seq<Step>, n: nat, id: JobId)
    requires n < |steps| && n < |states|
  {
    Erases(states[n], steps[n], id)
  }

  /** Step `n` flagged the job and none before step `k` has erased that. */
  ghost predicate FlagHolds(states: seq<System>, steps: seq<Step>, n: int, k: nat, id: JobId)
    requires k <= |steps| < |states|
  {
    0 <= n < k && FlagsAt(states, steps, n, id) && forall m :: n < m < k ==> !ErasesAt(states, steps, m, id)
  }

  ghost predicate Flagged(states: seq<System>, steps: seq<Step>, k: nat, id: JobId)
    requires k <= |steps| < |states|
  {
    exists n :: FlagHolds(states, steps, n, k, id)
  }

  lemma FlaggedGrows(states: seq<System>, steps: seq<Step>, k: nat, id: JobId)
    requires k < |steps| < |states|
    ensures Flagged(states, steps, k + 1, id) <==>
            (Flagged(states, steps, k, id) || FlagsAt(states, steps, k, id)) && !ErasesAt(states, steps, k, id)
  {
    if Flagged(states, steps, k, id) && !ErasesAt(states, steps, k, id) {
      var n :| FlagHolds(states, steps, n, k, id);
      assert FlagHolds(states, steps, n, k + 1, id);
    }
    if FlagsAt(states, steps, k, id) {
      assert FlagHolds(states, steps, k, k + 1, id);
    }
    if Flagged(states, steps, k + 1, id) {
      var n :| FlagHolds(states, steps, n, k + 1, id);
      assert n < k ==> FlagHolds(states, steps, n, k, id);
    }
  }

  lemma NewJobIsUnflagged(states: seq<System>, steps: seq<Step>, k: nat, id: JobId)
    requires Run(states, steps) && k <= |steps| && id !in states[k].spec
    ensures !Flagged(states, steps, k, id)
  {
    if Flagged(states, steps, k, id) {
      var n :| FlagHolds(states, steps, n, k, id);
      SpecIsKept(states, steps, n, k, id);
      assert false;
    }
  }

  predicate FlagIsRight(s: System, id: JobId, flagged: bool) {
    id in s.rows ==> s.rows[id].cancelFlag == flagged
  }

  lemma FlagNext(states: seq<System>, steps: seq<Step>, k: nat, id: JobId, flagged: bool)
    requires Run(states, steps) && k < |steps| && FlagIsRight(states[k], id, flagged)
    requires id !in states[k].spec ==> !flagged
    ensures FlagIsRight(states[k + 1], id,
              (flagged || FlagsAt(states, steps, k, id)) && !ErasesAt(states, steps, k, id))
  {
    RunInv(states, steps, k);
    RunMerges(states, steps, k);
    assert Enabled(states[k], steps[k]) && states[k + 1] == Next(states[k], steps[k]);
    StepFlags(states[k], steps[k], id);
  }

  ghost predicate RightAt(states: seq<System>, steps: seq<Step>, k: nat, id: JobId)
    requires k <= |steps| < |states|
  {
    FlagIsRight(states[k], id, Flagged(states, steps, k, id))
  }

  lemma RightNext(states: seq<System>, steps: seq<Step>, k: nat, id: JobId)
    requires Run(states, steps) && k < |steps| && RightAt(states, steps, k, id)
    ensures RightAt(states, steps, k + 1, id)
  {
    if id !in states[k].spec {
      NewJobIsUnflagged(states, steps, k, id);
    }
    FlagNext(states, steps, k, id, Flagged(states, steps, k, id));
    FlaggedGrows(states, steps, k, id);
  }

  lemma {:induction false} RunFlags(states: seq<System>, steps: seq<Step>, k: nat, id: JobId)
    requires Run(states, steps) && k <= |steps|
    ensures RightAt(states, steps, k, id)
  {
    if k > 0 {
      RunFlags(states, steps, k - 1, id);
      RightNext(states, steps, k - 1, id);
    }
  }

  /** In every run, a job is flagged for cancellation exactly when some request decided about it as a
      live batch job and no worker has since put back the row it had claimed before; the flag
      survives restarts. */
  lemma FlaggedIff(states: seq<System>, steps: seq<Step>, k: nat, id: JobId)
    requires Run(states, steps) && k <= |steps| && id in states[k].rows
    ensures states[k].rows[id].cancelFlag <==> Flagged(states, steps, k, id)
  {
    RunFlags(states, steps, k, id);
  }

  const BATCH_JOB := Remote("t", true, "p", None)

  const BATCH_SPEC := Spec(true, true, true, "batch:t:p")

  /** A batch job, its worker, and where an interrupt request for it stands. */
  function BatchState(row: Row, life: Life, handlers: map<nat, Handler>, unmerged: map<string, bool>): System {
    INITIAL.(spec := map[1 := BATCH_SPEC], rows := map[1 := row],
             procs := map["batch:t:p" := Proc(1, true, Some(0), life, life.Claimed?)],
             events := map[1 := 0], nextEvent := 1, handlers := handlers, recovered := true, unmerged := unmerged)
  }

  lemma BatchSubmitted() returns (states: seq<System>, steps: seq<Step>)
    ensures Run(states, steps)
    ensures states[|steps|] == INITIAL.(spec := map[1 := BATCH_SPEC], rows := map[1 := Row(Pending, None, false)],
                                        recovered := true)
  {
    assert TargetKey(BATCH_JOB) == "batch:t:p";
    states, steps := [INITIAL], [];
    states := Extend(states, steps, Api(SubmitJob(1, Some(BATCH_JOB)))); steps := steps + [Api(SubmitJob(1, Some(BATCH_JOB)))];
    states := Extend(states, steps, Recover(RecoverBegin)); steps := steps + [Recover(RecoverBegin)];
    assert states[2].pc.todo == map[];
    states := Extend(states, steps, Recover(RecoverImportsBegin)); steps := steps + [Recover(RecoverImportsBegin)];
    assert states[3].pc.imports == {};
    states := Extend(states, steps, Recover(RecoverEnd)); steps := steps + [Recover(RecoverEnd)];
  }

  lemma BatchScheduled() returns (states: seq<System>, steps: seq<Step>)
    ensures Run(states, steps)
    ensures states[|steps|] == BatchState(Row(Pending, None, false), Starting, map[], map[])
  {
    states, steps := BatchSubmitted();
    states := Extend(states, steps, Launch(ScheduleBegin)); steps := steps + [Launch(ScheduleBegin)];
    assert states[|steps|].pc.jobs == {1};
    assert !TargetIsBusy("batch:t:p", {});
    states := Extend(states, steps, Launch(ScheduleJob(1, true))); steps := steps + [Launch(ScheduleJob(1, true))];
    assert states[|steps|].pc.jobs == {};
    states := Extend(states, steps, Launch(ScheduleEnd)); steps := steps + [Launch(ScheduleEnd)];
  }

  /** A run in which a request flags a running batch job and its worker's first write erases the flag;
      the request still goes on to raise the job's event. */
  lemma FlagCanBeErased() returns (states: seq<System>, steps: seq<Step>)
    ensures Run(states, steps) && |steps| >= 2
    ensures var n := |steps| - 2;
            && FlagsAt(states, steps, n, 1) && ErasesAt(states, steps, n + 1, 1)
            && 1 in states[n + 2].rows && states[n + 2].rows[1].status.Running? && !states[n + 2].rows[1].cancelFlag
            && states[n + 2].handlers == map[0 := MustSignal(1)]
  {
    states, steps := BatchScheduled();
    states := Extend(states, steps, Work(Claim("batch:t:p"))); steps := steps + [Work(Claim("batch:t:p"))];
    assert states[|steps|] == BatchState(Row(Running, None, false), Claimed, map[], map["batch:t:p" := false]);
    states := Extend(states, steps, Api(InterruptRead(0, 1))); steps := steps + [Api(InterruptRead(0, 1))];
    states := Extend(states, steps, Api(InterruptDecide(0))); steps := steps + [Api(InterruptDecide(0))];
    states := Extend(states, steps, Work(Merge("batch:t:p"))); steps := steps + [Work(Merge("batch:t:p"))];
  }

  // ------------------------------------------------------------------------------ stopping

  lemma StoppingStartsNone(s: System, step: Step)
    requires Enabled(s, step) && s.stop && step != Control(Restart)
    ensures Next(s, step).stop && Next(s, step).procs.Keys <= s.procs.Keys
  {
    match step
    case Api(a) => StoppingApi(s, a);
    case Recover(r) => StoppingRecover(s, r);
    case Reap(p) => StoppingReap(s, p);
    case Launch(l) => StoppingLaunch(s, l);
    case Work(w) =>
      WorkFrame(s, w);
      StoppingWork(s, w);
    case Control(c) =>
  }

  lemma StoppingApi(s: System, a: ApiStep)
    requires ApiEnabled(s, a) && s.stop
    ensures ApiNext(s, a).stop && ApiNext(s, a).procs == s.procs
  {
    match a
    case InterruptDecide(_) =>
    case InterruptCancel(_) =>
    case InterruptSignal(_) =>
    case _ =>
  }

  lemma StoppingRecover(s: System, r: RecoverStep)
    requires RecoverEnabled(s, r)
    ensures RecoverNext(s, r).stop == s.stop && RecoverNext(s, r).procs == s.procs
  {
  }

  lemma StoppingReap(s: System, p: ReapStep)
    requires ReapEnabled(s, p) && s.stop
    ensures ReapNext(s, p).stop && ReapNext(s, p).procs.Keys <= s.procs.Keys
  {
    match p
    case ReapBegin(_) =>
    case ReapFailJob =>
    case _ =>
  }

  lemma StoppingLaunch(s: System, l: LaunchStep)
    requires LaunchEnabled(s, l) && s.stop
    ensures LaunchNext(s, l).stop && LaunchNext(s, l).procs == s.procs
  {
  }

  lemma StoppingWork(s: System, w: WorkStep)
    requires WorkEnabled(s, w)
    ensures WorkNext(s, w).stop == s.stop
  {
    match w
    case Claim(_) =>
    case Record(_, _) =>
    case _ =>
  }

  lemma StoppingNext(states: seq<System>, steps: seq<Step>, k: nat)
    requires Run(states, steps) && k < |steps| && states[k].stop && steps[k] != Control(Restart)
    ensures states[k + 1].stop && states[k + 1].procs.Keys <= states[k].procs.Keys
  {
    assert Enabled(states[k], steps[k]) && states[k + 1] == Next(states[k], steps[k]);
    StoppingStartsNone(states[k], steps[k]);
  }

  /** In every run, once a stop is requested no process is started until the next restart. */
  lemma {:induction false} NothingStartsAfterStop(states: seq<System>, steps: seq<Step>, i: nat, k: nat)
    requires Run(states, steps) && i < k <= |steps| && steps[i] == Api(RequestStop) && NoRestart(steps, i, k)
    ensures states[k].stop && states[k].procs.Keys <= states[i].procs.Keys
    decreases k
  {
    if i + 1 == k {
      assert Enabled(states[i], steps[i]) && states[k] == Next(states[i], steps[i]);
    } else {
      NothingStartsAfterStop(states, steps, i, k - 1);
      StoppingNext(states, steps, k - 1);
    }
  }
}
