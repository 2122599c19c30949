/**
 Host setup against job submission. The setup lock, the registry of background setup tasks
 and the job table are run together with every step of the job scheduler; each part of a
 critical section between two awaits is one step, and a request may be abandoned at any of
 them.
 */
module SetupExclusion {
  import opened Common
  import opened TargetKeys
  import JS = JobScheduler
  import Safety = SchedulerSafety
  import Steps = SchedulerSteps
  import Theorems = SchedulerTheorems

  type TrainerId = string
  type TaskId = nat

  datatype Kind = Installing | Rebooting

  datatype Task = Task(trainer: TrainerId, kind: Kind)

  /** Who holds `_setup_lock`, and how far it has got. */
  datatype Section =
    | Free
    | Submitting(trainer: TrainerId)               // admitted, the job is not saved yet
    | Requested(trainer: TrainerId, kind: Kind)    // no setup in progress, jobs not read yet
    | Approved(trainer: TrainerId, kind: Kind)     // no active job, the task is not created yet

  datatype System = System(
    jobs: JS.System,
    names: map<JS.JobId, TrainerId>,    // the trainer a submitted remote job names
    section: Section,
    installs: map<TrainerId, TaskId>,   // _background_installs
    tasks: map<TaskId, Task>,           // setup tasks that have not ended
    nextTask: TaskId,
    failures: map<TrainerId, string>)   // _launch_failure

  const INITIAL := System(JS.INITIAL, map[], Free, map[], map[], 0, map[])

  const REFUSING_FAILURES: set<string> :=
    {"reboot_required", "relogin_required", "reboot_blocked_active_containers", "nvidia_driver_unavailable"}

  const REBOOTABLE_FAILURES: set<string> :=
    {"reboot_required", "reboot_blocked_active_containers", "nvidia_driver_unavailable"}

  predicate FailureIn(s: System, trainer: TrainerId, failures: set<string>) {
    trainer in s.failures && s.failures[trainer] in failures
  }

  /** A PENDING or RUNNING training job names the trainer. */
  ghost predicate Busy(s: System, trainer: TrainerId) {
    exists id :: Occupies(s, id, trainer)
  }

  predicate Occupies(s: System, id: JS.JobId, trainer: TrainerId) {
    id in s.names && s.names[id] == trainer && Safety.IsLive(s.jobs, id)
  }

  datatype Step =
    | JobStep(step: JS.Step)                       // anything but the submission of a remote job
    | EnterSubmit(trainer: TrainerId)
    | SaveJob(id: JS.JobId, payload: Payload)
    | EnterSetup(trainer: TrainerId, kind: Kind, ssh: bool)
    | ReadJobs
    | CreateTask
    | Abandon
    | TaskEnds(task: TaskId)
    | FailureChanges(trainer: TrainerId, failure: Option<string>)

  predicate SubmitsRemote(step: JS.Step) {
    step.Api? && step.a.SubmitJob? && step.a.job.Some? && step.a.job.value.Remote?
  }

  predicate Enabled(s: System, step: Step) {
    match step
    case JobStep(j) => JS.Enabled(s.jobs, j) && !SubmitsRemote(j)
    case EnterSubmit(_) => s.section.Free?
    case SaveJob(id, payload) =>
      && s.section.Submitting? && payload.Remote? && payload.trainer == s.section.trainer
      && JS.Enabled(s.jobs, JS.Api(JS.SubmitJob(id, Some(payload))))
    case EnterSetup(_, _, _) => s.section.Free?
    case ReadJobs => s.section.Requested?
    case CreateTask => s.section.Approved?
    case Abandon => !s.section.Free?
    case TaskEnds(t) => t in s.tasks
    case FailureChanges(_, _) => true
  }

  /** Submission is admitted: no setup in progress, no failure that needs the user. */
  predicate Admits(s: System, trainer: TrainerId) {
    trainer !in s.installs && !FailureIn(s, trainer, REFUSING_FAILURES)
  }

  /** An install, or a reboot after a failure that asks for one, may start. */
  predicate Startable(s: System, trainer: TrainerId, kind: Kind, ssh: bool) {
    trainer !in s.installs && ssh && (kind.Rebooting? ==> FailureIn(s, trainer, REBOOTABLE_FAILURES))
  }

  /** A restart of the process forgets everything but the database. */
  function AfterJobStep(s: System, step: JS.Step): System
    requires JS.Enabled(s.jobs, step)
  {
    var next := s.(jobs := JS.Next(s.jobs, step));
    if step == JS.Control(JS.Restart) then next.(section := Free, installs := map[], tasks := map[], failures := map[])
    else next
  }

  /** Creating the task and recording it are one step; an install first clears the failure. */
  function Created(s: System): System
    requires s.section.Approved?
  {
    var Approved(trainer, kind) := s.section;
    s.(section := Free,
       installs := s.installs[trainer := s.nextTask],
       tasks := s.tasks[s.nextTask := Task(trainer, kind)],
       nextTask := s.nextTask + 1,
       failures := if kind.Installing? then s.failures - {trainer} else s.failures)
  }

  /** The registry after a task's `finally`: it removes its own entry only. */
  function Forget(installs: map<TrainerId, TaskId>, trainer: TrainerId, task: TaskId): map<TrainerId, TaskId> {
    if trainer in installs && installs[trainer] == task then installs - {trainer} else installs
  }

  ghost function Next(s: System, step: Step): System
    requires Enabled(s, step)
  {
    match step
    case JobStep(j) => AfterJobStep(s, j)
    case EnterSubmit(trainer) => if Admits(s, trainer) then s.(section := Submitting(trainer)) else s
    case SaveJob(id, payload) =>
      s.(jobs := JS.Next(s.jobs, JS.Api(JS.SubmitJob(id, Some(payload)))),
         names := s.names[id := payload.trainer],
         section := Free)
    case EnterSetup(trainer, kind, ssh) =>
      if Startable(s, trainer, kind, ssh) then s.(section := Requested(trainer, kind)) else s
    case ReadJobs =>
      s.(section := if Busy(s, s.section.trainer) then Free else Approved(s.section.trainer, s.section.kind))
    case CreateTask => Created(s)
    case Abandon => s.(section := Free)
    case TaskEnds(t) => s.(installs := Forget(s.installs, s.tasks[t].trainer, t), tasks := s.tasks - {t})
    case FailureChanges(trainer, failure) =>
      s.(failures := if failure.Some? then s.failures[trainer := failure.value] else s.failures - {trainer})
  }

  ghost predicate Run(states: seq<System>, steps: seq<Step>) {
    && |states| == |steps| + 1
    && states[0] == INITIAL
    && forall i {:trigger steps[i]} :: 0 <= i < |steps| ==> Enabled(states[i], steps[i]) && states[i + 1] == Next(states[i], steps[i])
  }

  // ----------------------------------------------------------------------- invariant

  /** The registry is the inverse of the tasks in progress. */
  predicate TaskInv(s: System) {
    && (forall t :: t in s.tasks ==>
          t < s.nextTask && s.tasks[t].trainer in s.installs && s.installs[s.tasks[t].trainer] == t)
    && (forall r :: r in s.installs ==> s.installs[r] in s.tasks && s.tasks[s.installs[r]].trainer == r)
  }

  predicate SectionInv(s: System) {
    match s.section
    case Free => true
    case Submitting(r) => r !in s.installs
    case Requested(r, _) => r !in s.installs
    case Approved(r, _) => r !in s.installs
  }

  ghost predicate QuietInv(s: System) {
    && (forall r :: r in s.installs ==> !Busy(s, r))
    && (s.section.Approved? ==> !Busy(s, s.section.trainer))
  }

  /** A named job is a training job the scheduler knows. */
  predicate NamesInv(s: System) {
    forall id :: id in s.names ==> id in s.jobs.spec && s.jobs.spec[id].training
  }

  ghost predicate Inv(s: System) {
    Safety.Inv(s.jobs) && TaskInv(s) && SectionInv(s) && QuietInv(s) && NamesInv(s)
  }

  /** No step of the scheduler, its workers or an interrupt brings a finished or deleted job
      back to PENDING or RUNNING. */
  lemma NoJobComesBack(j: JS.System, step: JS.Step, id: JS.JobId)
    requires Safety.Inv(j) && JS.Enabled(j, step)
    requires id in j.spec && j.spec[id].training && !Safety.IsLive(j, id)
    ensures !Safety.IsLive(JS.Next(j, step), id)
  {
    if id in j.rows {
      if id in JS.Next(j, step).rows {
        Theorems.TerminalChangesIff(j, step, id);
      }
    } else {
      Theorems.StepSettles(j, step, id);
    }
  }

  lemma JobStepKeepsNames(s: System, step: JS.Step)
    requires Inv(s) && Enabled(s, JobStep(step))
    ensures NamesInv(AfterJobStep(s, step))
    ensures forall id, r :: Occupies(AfterJobStep(s, step), id, r) ==> Occupies(s, id, r)
  {
    var t := AfterJobStep(s, step);
    forall id | id in s.names ensures id in t.jobs.spec && t.jobs.spec[id].training {
      Theorems.StepSettles(s.jobs, step, id);
    }
    forall id, r | Occupies(t, id, r) ensures Occupies(s, id, r) {
      if !Safety.IsLive(s.jobs, id) {
        NoJobComesBack(s.jobs, step, id);
      }
    }
  }

  lemma JobStepKeepsInv(s: System, step: JS.Step)
    requires Inv(s) && Enabled(s, JobStep(step))
    ensures Inv(AfterJobStep(s, step))
  {
    Steps.StepKeepsInv(s.jobs, step);
    JobStepKeepsNames(s, step);
    FewerJobsKeepQuiet(s, AfterJobStep(s, step));
  }

  lemma FewerJobsKeepQuiet(s: System, t: System)
    requires QuietInv(s) && t.installs.Keys <= s.installs.Keys && (t.section == s.section || t.section.Free?)
    requires forall id, r :: Occupies(t, id, r) ==> Occupies(s, id, r)
    ensures QuietInv(t)
  {
    assert forall r :: Busy(t, r) ==> Busy(s, r);
  }

  lemma SaveKeepsInv(s: System, id: JS.JobId, payload: Payload)
    requires Inv(s) && Enabled(s, SaveJob(id, payload))
    ensures Inv(Next(s, SaveJob(id, payload)))
  {
    var submit := JS.Api(JS.SubmitJob(id, Some(payload)));
    var t := Next(s, SaveJob(id, payload));
    Steps.StepKeepsInv(s.jobs, submit);
    forall r | r in s.installs ensures !Busy(t, r) {
      forall x ensures !Occupies(t, x, r) {
        assert x != id ==> (Occupies(t, x, r) ==> Occupies(s, x, r));
      }
    }
  }

  lemma StepKeepsInv(s: System, step: Step)
    requires Inv(s) && Enabled(s, step)
    ensures Inv(Next(s, step))
  {
    match step
    case JobStep(j) => JobStepKeepsInv(s, j);
    case SaveJob(id, payload) => SaveKeepsInv(s, id, payload);
    case _ => SetupKeepsInv(s, step);
  }

  lemma SetupKeepsInv(s: System, step: Step)
    requires Inv(s) && Enabled(s, step) && !step.JobStep? && !step.SaveJob?
    ensures Inv(Next(s, step))
  {
    SetupKeepsTasks(s, step);
    SetupKeepsQuiet(s, step);
    assert Next(s, step).jobs == s.jobs && Next(s, step).names == s.names;
  }

  lemma SetupKeepsQuiet(s: System, step: Step)
    requires QuietInv(s) && Enabled(s, step) && !step.JobStep? && !step.SaveJob?
    ensures QuietInv(Next(s, step))
  {
    var t := Next(s, step);
    assert t.jobs == s.jobs && t.names == s.names;
    SameJobsSameBusy(s, t);
    match step
    case ReadJobs =>
    case CreateTask =>
    case TaskEnds(_) =>
    case _ =>
  }

  lemma SameJobsSameBusy(s: System, t: System)
    requires t.jobs == s.jobs && t.names == s.names
    ensures forall r :: Busy(t, r) <==> Busy(s, r)
  {
    assert forall id, r :: Occupies(t, id, r) <==> Occupies(s, id, r);
  }

  lemma SetupKeepsTasks(s: System, step: Step)
    requires Inv(s) && Enabled(s, step) && !step.JobStep? && !step.SaveJob?
    ensures TaskInv(Next(s, step)) && SectionInv(Next(s, step))
  {
    match step
    case CreateTask =>
    case TaskEnds(_) =>
    case _ =>
  }

  lemma {:induction false} RunInv(states: seq<System>, steps: seq<Step>, n: nat)
    requires Run(states, steps) && n <= |steps|
    ensures Inv(states[n])
  {
    if n > 0 {
      RunInv(states, steps, n - 1);
      StepKeepsInv(states[n - 1], steps[n - 1]);
    }
  }

  // -------------------------------------------------------------------- main results

  /** While a setup task runs for a trainer it is the only one, it is the registered one, and
      no PENDING or RUNNING training job names the trainer. */
  lemma SetupExcludesJobs(states: seq<System>, steps: seq<Step>, n: nat, task: TaskId)
    requires Run(states, steps) && n <= |steps| && task in states[n].tasks
    ensures var s := states[n]; var trainer := s.tasks[task].trainer;
            && (forall other :: other in s.tasks && s.tasks[other].trainer == trainer ==> other == task)
            && trainer in s.installs && s.installs[trainer] == task
            && (forall id :: id in s.names && s.names[id] == trainer ==> !Safety.IsLive(s.jobs, id))
  {
    RunInv(states, steps, n);
    var s := states[n];
    forall id | id in s.names && s.names[id] == s.tasks[task].trainer ensures !Safety.IsLive(s.jobs, id) {
      assert !Occupies(s, id, s.tasks[task].trainer);
    }
  }

  /** The end of a task frees its trainer, so no registration outlives its task. */
  lemma EndedSetupFreesTrainer(states: seq<System>, steps: seq<Step>, n: nat, task: TaskId)
    requires Run(states, steps) && n < |steps| && steps[n] == TaskEnds(task)
    ensures states[n].tasks[task].trainer !in states[n + 1].installs
    ensures var s := states[n + 1];
            forall r :: r in s.installs ==> s.installs[r] in s.tasks && s.tasks[s.installs[r]].trainer == r
  {
    RunInv(states, steps, n);
    RunInv(states, steps, n + 1);
  }

  // ------------------------------------------------------------ who is let in

  predicate NeedsTheUser(failure: Option<string>) {
    || failure == Some("reboot_required") || failure == Some("relogin_required")
    || failure == Some("reboot_blocked_active_containers") || failure == Some("nvidia_driver_unavailable")
  }

  predicate AsksForReboot(failure: Option<string>) {
    || failure == Some("reboot_required") || failure == Some("reboot_blocked_active_containers")
    || failure == Some("nvidia_driver_unavailable")
  }

  function FailureOf(s: System, trainer: TrainerId): Option<string> {
    if trainer in s.failures then Some(s.failures[trainer]) else None
  }

  /** In every run, a submission is let in exactly when the registry has no task for its trainer and
      its last failure is not one that needs the user. */
  lemma SubmissionAdmittedIff(states: seq<System>, steps: seq<Step>, k: nat, trainer: TrainerId)
    requires Run(states, steps) && k < |steps| && steps[k] == EnterSubmit(trainer)
    ensures states[k + 1].section == Submitting(trainer) <==>
            trainer !in states[k].installs && !NeedsTheUser(FailureOf(states[k], trainer))
  {
    assert Enabled(states[k], steps[k]) && states[k + 1] == Next(states[k], steps[k]);
  }

  /** In every run, a setup gets past its first checks exactly over SSH, with no task for its
      trainer, and for a reboot only after a failure that asks for one. */
  lemma SetupAcceptedIff(states: seq<System>, steps: seq<Step>, k: nat, trainer: TrainerId, kind: Kind, ssh: bool)
    requires Run(states, steps) && k < |steps| && steps[k] == EnterSetup(trainer, kind, ssh)
    ensures states[k + 1].section == Requested(trainer, kind) <==>
            ssh && trainer !in states[k].installs && (kind == Rebooting ==> AsksForReboot(FailureOf(states[k], trainer)))
  {
    assert Enabled(states[k], steps[k]) && states[k + 1] == Next(states[k], steps[k]);
  }

  /** A job that is PENDING or RUNNING was submitted for this trainer. */
  ghost predicate HasLiveJob(s: System, trainer: TrainerId) {
    exists id :: id in s.names && s.names[id] == trainer && id in s.jobs.rows
                 && (s.jobs.rows[id].status.Pending? || s.jobs.rows[id].status.Running?)
  }

  /** In every run, it then goes ahead exactly when no live job names its trainer. */
  lemma SetupApprovedIff(states: seq<System>, steps: seq<Step>, k: nat)
    requires Run(states, steps) && k < |steps| && steps[k] == ReadJobs
    ensures states[k].section.Requested?
    ensures var trainer, kind := states[k].section.trainer, states[k].section.kind;
            states[k + 1].section == if HasLiveJob(states[k], trainer) then Free else Approved(trainer, kind)
  {
    assert Enabled(states[k], steps[k]) && states[k + 1] == Next(states[k], steps[k]);
    var s, trainer := states[k], states[k].section.trainer;
    if HasLiveJob(s, trainer) {
      var id :| id in s.names && s.names[id] == trainer && id in s.jobs.rows
                && (s.jobs.rows[id].status.Pending? || s.jobs.rows[id].status.Running?);
      assert Occupies(s, id, trainer);
    }
  }

  /** In every run, the task is then registered for its trainer as the only one there, an install
      forgets the trainer's failure, a reboot keeps it, and the lock is free again. */
  lemma SetupBegins(states: seq<System>, steps: seq<Step>, k: nat, other: TrainerId)
    requires Run(states, steps) && k < |steps| && steps[k] == CreateTask
    ensures states[k].section.Approved? && states[k + 1].section.Free?
    ensures var s, t := states[k], states[k + 1];
            var Approved(trainer, kind) := s.section;
            && trainer !in s.installs && trainer in t.installs && t.installs[trainer] !in s.tasks
            && t.tasks == s.tasks[t.installs[trainer] := Task(trainer, kind)]
            && (kind == Installing ==> FailureOf(t, trainer) == None)
            && (kind == Rebooting || other != trainer ==> FailureOf(t, other) == FailureOf(s, other))
  {
    RunInv(states, steps, k);
    assert Enabled(states[k], steps[k]) && states[k + 1] == Next(states[k], steps[k]);
  }
}
