/** What the invariants of the scheduler mean for whole runs. */
module SchedulerTheorems {
  import opened Common
  import opened TargetKeys
  import opened JobScheduler
  import opened SchedulerSafety
  import opened SchedulerSteps

  // ------------------------------------------------------------ exclusive reservations

  /** Reserved targets never conflict, the remote ones form an antichain under the segment
      prefix order, and no job is given two processes, even before its worker claims it. */
  lemma ReservationsAreExclusive(states: seq<System>, steps: seq<Step>, k: nat, a: string, b: string)
    requires Run(states, steps) && k < |states|
    requires a in states[k].procs && b in states[k].procs && a != b
    ensures !Blocks(a, b) && !Blocks(b, a)
    ensures "remote:" <= a && "remote:" <= b ==> !(Segments(a) <= Segments(b)) && !(Segments(b) <= Segments(a))
    ensures states[k].procs[a].job != states[k].procs[b].job
  {
    RunInv(states, steps, k);
    ColonPrefixIsSegmentPrefix(a, b);
    ColonPrefixIsSegmentPrefix(b, a);
    if "remote:" <= a && "remote:" <= b && Segments(a) == Segments(b) {
      PolicySegmentsInjective(a, b);
    }
  }

  // -------------------------------------------------------------------- interrupts

  /** The step restarts the process, which drops every cancel event. */
  predicate Restarts(step: Step) {
    step == Control(Restart)
  }

  /** The scheduler thread leaves the record of interrupts alone. */
  predicate SameRecord(s: System, t: System) {
    t.spec == s.spec && t.accepted == s.accepted && t.canceled == s.canceled
  }

  lemma RecoverFrame(s: System, r: RecoverStep)
    requires RecoverEnabled(s, r)
    ensures SameRecord(s, RecoverNext(s, r))
  {
  }

  lemma ReapEndsFrame(s: System)
    requires s.pc.Reaping? && s.pc.target in s.procs
    ensures SameRecord(s, ReapFail(s)) && SameRecord(s, ReapEnd(s))
  {
  }

  lemma ReapFrame(s: System, p: ReapStep)
    requires ReapEnabled(s, p)
    ensures SameRecord(s, ReapNext(s, p))
  {
    match p
    case ReapBegin(_) =>
    case ReapFailJob => ReapEndsFrame(s);
    case ReapFinish => ReapEndsFrame(s);
    case _ =>
  }

  lemma ScheduleFrame(s: System, id: JobId, started: bool)
    requires s.pc.Scheduling? && id in s.pc.jobs && id in s.spec
    ensures SameRecord(s, ScheduleOne(s, id, started))
  {
  }

  lemma LaunchFrame(s: System, l: LaunchStep)
    requires LaunchEnabled(s, l)
    ensures SameRecord(s, LaunchNext(s, l))
  {
    match l
    case ScheduleJob(id, started) => ScheduleFrame(s, id, started);
    case StartImport(_) =>
    case _ =>
  }

  lemma ControlLeavesRows(s: System, c: ControlStep)
    requires ControlEnabled(s, c)
    ensures ControlNext(s, c).rows == s.rows && ControlNext(s, c).spec == s.spec
  {
  }

  lemma StepKeepsAccepted(s: System, step: Step, id: JobId)
    requires Enabled(s, step) && id in s.accepted && !Restarts(step)
    ensures id in Next(s, step).accepted
  {
    match step
    case Api(a) => ApiKeepsAccepted(s, a, id);
    case Work(w) => WorkFrame(s, w);
    case Recover(r) => RecoverFrame(s, r);
    case Reap(p) => ReapFrame(s, p);
    case Launch(l) => LaunchFrame(s, l);
    case Control(c) =>
  }

  lemma ApiKeepsAccepted(s: System, a: ApiStep, id: JobId)
    requires ApiEnabled(s, a) && id in s.accepted
    ensures id in ApiNext(s, a).accepted
  {
    ApiFrame(s, a);
    if a.InterruptSignal? {
      assert ApiNext(s, a) == Signal(s, a.h);
    }
  }

  ghost predicate NoRestart(steps: seq<Step>, i: nat, k: nat)
    requires i <= k <= |steps|
  {
    forall h :: i <= h < k ==> !Restarts(steps[h])
  }

  lemma AcceptedNext(states: seq<System>, steps: seq<Step>, k: nat, id: JobId)
    requires Run(states, steps) && k < |steps| && id in states[k].accepted && !Restarts(steps[k])
    ensures id in states[k + 1].accepted
  {
    var s, step := states[k], steps[k];
    assert Enabled(s, step) && states[k + 1] == Next(s, step);
    StepKeepsAccepted(s, step, id);
  }

  lemma AcceptedStays(states: seq<System>, steps: seq<Step>, i: nat, k: nat, id: JobId)
    requires Run(states, steps) && i <= k < |states| && id in states[i].accepted && NoRestart(steps, i, k)
    ensures id in states[k].accepted
  {
    var holds := (j: nat) => j < |states| && id in states[j].accepted;
    forall j: nat | i <= j < k && holds(j) ensures holds(j + 1) {
      AcceptedNext(states, steps, j, id);
    }
    Upward(holds, i, k);
  }

  lemma SignalAccepts(s: System, h: nat)
    requires ApiEnabled(s, InterruptSignal(h))
    ensures s.handlers[h].job in Signal(s, h).accepted
  {
  }

  /** An interrupt delivered through the scheduler is not lost: until the job is terminal,
      the scheduler stops or the process restarts, the job keeps a raised cancel event,
      unless it is an abandoned run that recovery will fail and no worker can claim. */
  lemma InterruptIsNotLost(states: seq<System>, steps: seq<Step>, i: nat, k: nat, h: nat)
    requires Run(states, steps) && i < k < |states| && steps[i] == Api(InterruptSignal(h))
    requires NoRestart(steps, i + 1, k) && !states[k].stop && !states[k].down
    ensures h in states[i].handlers
    ensures var id := states[i].handlers[h].job;
            IsLive(states[k], id) ==> Signaled(states[k], id) || Doomed(states[k], id)
  {
    SignalAccepts(states[i], h);
    AcceptedStays(states, steps, i + 1, k, states[i].handlers[h].job);
    RunInv(states, steps, k);
  }

  /** Every worker that claims the job after such an interrupt holds the raised event. */
  lemma LaterWorkerSeesInterrupt(states: seq<System>, steps: seq<Step>, i: nat, k: nat, h: nat, t: string)
    requires Run(states, steps) && i < k < |steps| && steps[i] == Api(InterruptSignal(h))
    requires NoRestart(steps, i + 1, k) && !states[k].stop && !states[k].down
    requires h in states[i].handlers
    requires steps[k] == Work(Claim(t)) && t in states[k].procs
    requires states[k].procs[t].job == states[i].handlers[h].job
    requires states[k].procs[t].job in states[k].rows && states[k].rows[states[k].procs[t].job].status.Pending?
    ensures var event := states[k].procs[t].event; event.Some? && event.value in states[k].raised
  {
    InterruptIsNotLost(states, steps, i, k, h);
    RunInv(states, steps, k);
    assert Enabled(states[k], steps[k]);
    assert Owned(states[k], states[k].procs[t].job);
  }

  /** A worker's cancel event is raised only by an interrupt for its own job. */
  lemma OnlyInterruptsCancel(states: seq<System>, steps: seq<Step>, k: nat, t: string)
    requires Run(states, steps) && k < |states| && t in states[k].procs && states[k].procs[t].training
    ensures states[k].procs[t].event.Some?
    ensures states[k].procs[t].event.value in states[k].raised ==> states[k].procs[t].job in states[k].accepted
  {
    RunInv(states, steps, k);
  }

  lemma StepKeepsCanceledSet(s: System, step: Step, id: JobId)
    requires Enabled(s, step) && id in s.canceled
    ensures id in Next(s, step).canceled
  {
    match step
    case Api(a) =>
      ApiKeepsCanceledSet(s, a, id);
    case Work(w) => WorkFrame(s, w);
    case Recover(r) => RecoverFrame(s, r);
    case Reap(p) => ReapFrame(s, p);
    case Launch(l) => LaunchFrame(s, l);
    case Control(c) =>
  }

  lemma ApiKeepsCanceledSet(s: System, a: ApiStep, id: JobId)
    requires ApiEnabled(s, a) && id in s.canceled
    ensures id in ApiNext(s, a).canceled
  {
    ApiFrame(s, a);
    if a.InterruptCancel? {
      assert ApiNext(s, a) == InterruptTry(s, a.h);
    }
  }

  lemma CanceledNext(states: seq<System>, steps: seq<Step>, k: nat, id: JobId)
    requires Run(states, steps) && k < |steps| && id in states[k].canceled
    ensures id in states[k + 1].canceled
  {
    var s, step := states[k], steps[k];
    assert Enabled(s, step) && states[k + 1] == Next(s, step);
    StepKeepsCanceledSet(s, step, id);
  }

  lemma CanceledStays(states: seq<System>, steps: seq<Step>, i: nat, k: nat, id: JobId)
    requires Run(states, steps) && i <= k < |states| && id in states[i].canceled
    ensures id in states[k].canceled
  {
    var holds := (j: nat) => j < |states| && id in states[j].canceled;
    forall j: nat | i <= j < k && holds(j) ensures holds(j + 1) {
      CanceledNext(states, steps, j, id);
    }
    Upward(holds, i, k);
  }

  /** A job canceled while queued is never live again, across restarts too, so no worker
      ever claims it. */
  lemma CanceledIsNeverClaimed(states: seq<System>, steps: seq<Step>, i: nat, k: nat, id: JobId)
    requires Run(states, steps) && i <= k < |states| && id in states[i].canceled
    ensures !IsLive(states[k], id)
    ensures k < |steps| ==> !IsRunning(states[k + 1], id)
  {
    CanceledStays(states, steps, i, k, id);
    RunInv(states, steps, k);
    if k < |steps| {
      RunInv(states, steps, k + 1);
      CanceledStays(states, steps, i, k + 1, id);
    }
  }

  // ----------------------------------------------------------------------- recovery

  /** When a recovery pass ends, every RUNNING job belongs to a reserved process. */
  lemma RecoveryLeavesNoOrphan(states: seq<System>, steps: seq<Step>, k: nat, id: JobId)
    requires Run(states, steps) && k < |steps| && steps[k] == Recover(RecoverEnd)
    ensures IsRunning(states[k + 1], id) ==> Assigned(states[k + 1], id)
  {
    RunInv(states, steps, k);
    RunInv(states, steps, k + 1);
    RecoverEndKeeps(states[k]);
    AssignedIsOwned(states[k + 1], id);
  }

  /** Recovery is idempotent: a pass begun with no orphan has nothing to change. */
  lemma RecoveryIsIdempotent(s: System)
    requires Inv(s) && forall id :: IsRunning(s, id) ==> Assigned(s, id)
    ensures TrainingToRecover(s) == map[] && ImportsToRecover(s) == {}
  {
    forall id ensures id !in TrainingToRecover(s) && id !in ImportsToRecover(s) {
      assert IsRunning(s, id) ==> Assigned(s, id);
    }
  }

  /** Once a recovery pass has ended, another one right after it finds nothing to change. */
  lemma RecoveringTwiceIsIdle(states: seq<System>, steps: seq<Step>, k: nat)
    requires Run(states, steps) && k + 1 < |steps|
    requires steps[k] == Recover(RecoverEnd) && steps[k + 1] == Recover(RecoverBegin)
    ensures states[k + 2] == states[k + 1].(pc := Recovering(map[]))
    ensures ImportsToRecover(states[k + 2]) == {}
  {
    RunInv(states, steps, k + 1);
    var t := states[k + 1];
    forall id | IsRunning(t, id) ensures Assigned(t, id) {
      RecoveryLeavesNoOrphan(states, steps, k, id);
    }
    RecoveryIsIdempotent(t);
  }

  /** Steps of the scheduler thread. */
  predicate ByScheduler(step: Step) {
    step.Recover? || step.Reap? || step.Launch? || step.Control?
  }

  /** The job is live, recorded remotely, and keeps its remote id from `s` to `t`. */
  predicate KeepsSurvivor(s: System, t: System, id: JobId) {
    && Survives(s, id) && IsLive(s, id) && Survives(t, id) && IsLive(t, id)
    && t.rows[id].remoteId == s.rows[id].remoteId
  }

  lemma RecoverKeepsSurvivor(s: System, r: RecoverStep, id: JobId)
    requires Inv(s) && RecoverEnabled(s, r) && Survives(s, id) && IsLive(s, id)
    ensures KeepsSurvivor(s, RecoverNext(s, r), id)
  {
  }

  lemma ReapKeepsSurvivor(s: System, p: ReapStep, id: JobId)
    requires Inv(s) && ReapEnabled(s, p) && Survives(s, id) && IsLive(s, id)
    ensures KeepsSurvivor(s, ReapNext(s, p), id)
  {
    match p
    case ReapBegin(_) =>
    case ReapFailJob =>
    case _ =>
  }

  lemma LaunchKeepsSurvivor(s: System, l: LaunchStep, id: JobId)
    requires LaunchEnabled(s, l) && Survives(s, id) && IsLive(s, id)
    ensures KeepsSurvivor(s, LaunchNext(s, l), id)
  {
  }

  /** The scheduler never fails a live remote job with a recorded remote id, and requeuing
      keeps the id. */
  lemma SurvivorIsNeverFailed(s: System, step: Step, id: JobId)
    requires Inv(s) && Enabled(s, step) && ByScheduler(step)
    requires Survives(s, id) && IsLive(s, id)
    ensures KeepsSurvivor(s, Next(s, step), id)
  {
    match step
    case Recover(r) => RecoverKeepsSurvivor(s, r, id);
    case Reap(p) => ReapKeepsSurvivor(s, p, id);
    case Launch(l) => LaunchKeepsSurvivor(s, l, id);
    case Control(c) => ControlLeavesRows(s, c);
    case _ =>
  }

  /** Scheduler steps never write a remote id. */
  lemma SchedulerKeepsRemoteId(s: System, step: Step, id: JobId)
    requires Enabled(s, step) && ByScheduler(step) && id in s.rows
    ensures id in Next(s, step).rows && Next(s, step).rows[id].remoteId == s.rows[id].remoteId
  {
    match step
    case Recover(r) => RecoverKeepsRow(s, r, id);
    case Reap(p) => ReapKeepsRow(s, p, id);
    case Launch(l) => LaunchKeepsRow(s, l, id);
    case Control(c) => ControlLeavesRows(s, c);
    case _ =>
  }

  lemma RecoverKeepsRow(s: System, r: RecoverStep, id: JobId)
    requires RecoverEnabled(s, r) && id in s.rows
    ensures id in RecoverNext(s, r).rows && RecoverNext(s, r).rows[id].remoteId == s.rows[id].remoteId
  {
  }

  lemma ReapKeepsRow(s: System, p: ReapStep, id: JobId)
    requires ReapEnabled(s, p) && id in s.rows
    ensures id in ReapNext(s, p).rows && ReapNext(s, p).rows[id].remoteId == s.rows[id].remoteId
    ensures ReapNext(s, p).rows[id].status != s.rows[id].status ==>
              p.ReapFailJob? && s.procs[s.pc.target].job == id && ReapNext(s, p).rows[id].status.Failed?
  {
    match p
    case ReapBegin(_) =>
    case ReapFailJob =>
    case _ =>
  }

  lemma LaunchKeepsRow(s: System, l: LaunchStep, id: JobId)
    requires LaunchEnabled(s, l) && id in s.rows
    ensures id in LaunchNext(s, l).rows && LaunchNext(s, l).rows[id].remoteId == s.rows[id].remoteId
    ensures LaunchNext(s, l).rows[id].status != s.rows[id].status ==> id in s.spec && !s.spec[id].training
  {
  }

  lemma ApiKeepsRemoteId(s: System, a: ApiStep, id: JobId)
    requires SpecInv(s) && ApiEnabled(s, a) && id in s.rows && id in ApiNext(s, a).rows
    ensures ApiNext(s, a).rows[id].remoteId == s.rows[id].remoteId
  {
    match a
    case SubmitJob(x, _) => assert x != id;
    case InterruptDecide(_) =>
    case InterruptCancel(_) =>
    case _ =>
  }

  /** After a clean shutdown no process is left and no job is RUNNING. */
  lemma CleanShutdownLeavesNothingRunning(states: seq<System>, steps: seq<Step>, k: nat, id: JobId)
    requires Run(states, steps) && k < |states| && states[k].pc.Stopped?
    ensures states[k].procs == map[] && !IsRunning(states[k], id)
  {
    RunInv(states, steps, k);
  }

  // -------------------------------------------------- rows that are gone stay gone

  /** What no step does to a job that already has a specification. */
  predicate Settled(s: System, t: System, id: JobId)
    requires id in s.spec
  {
    && id in t.spec && t.spec[id] == s.spec[id]
    && (id !in s.rows ==> id !in t.rows)
  }

  lemma StepSettles(s: System, step: Step, id: JobId)
    requires Enabled(s, step) && id in s.spec
    ensures Settled(s, Next(s, step), id)
  {
    match step
    case Api(a) => ApiSettles(s, a, id);
    case Recover(r) => RecoverSettles(s, r, id);
    case Reap(p) => ReapSettles(s, p, id);
    case Launch(l) => LaunchSettles(s, l, id);
    case Work(w) => WorkSettles(s, w, id);
    case Control(c) => ControlSettles(s, c, id);
  }

  lemma ApiSettles(s: System, a: ApiStep, id: JobId)
    requires ApiEnabled(s, a) && id in s.spec
    ensures Settled(s, ApiNext(s, a), id)
  {
    match a
    case InterruptDecide(_) =>
    case InterruptCancel(_) =>
    case _ =>
  }

  lemma RecoverSettles(s: System, r: RecoverStep, id: JobId)
    requires RecoverEnabled(s, r) && id in s.spec
    ensures Settled(s, RecoverNext(s, r), id)
  {
  }

  lemma ReapSettles(s: System, p: ReapStep, id: JobId)
    requires ReapEnabled(s, p) && id in s.spec
    ensures Settled(s, ReapNext(s, p), id)
  {
    match p
    case ReapBegin(_) =>
    case ReapFailJob =>
    case _ =>
  }

  lemma LaunchSettles(s: System, l: LaunchStep, id: JobId)
    requires LaunchEnabled(s, l) && id in s.spec
    ensures Settled(s, LaunchNext(s, l), id)
  {
  }

  lemma WorkSettles(s: System, w: WorkStep, id: JobId)
    requires WorkEnabled(s, w) && id in s.spec
    ensures Settled(s, WorkNext(s, w), id)
  {
    match w
    case Claim(_) =>
    case Record(_, _) =>
    case _ =>
  }

  lemma ControlSettles(s: System, c: ControlStep, id: JobId)
    requires ControlEnabled(s, c) && id in s.spec
    ensures Settled(s, ControlNext(s, c), id)
  {
  }

  // -------------------------------------------------------- when a terminal row changes

  /** The reaper's late FAILED write on a job canceled since the reaper read it. */
  predicate LateReap(s: System, step: Step, id: JobId) {
    && step == Reap(ReapFailJob) && Enabled(s, step) && s.procs[s.pc.target].job == id
    && id in s.rows && s.rows[id].status.Canceled?
  }

  lemma WorkKeepsTerminal(s: System, w: WorkStep, id: JobId)
    requires SpecInv(s) && ProcInv(s) && ClaimInv(s) && WorkEnabled(s, w) && id in s.rows && s.spec[id].training && !IsLive(s, id)
    ensures id in WorkNext(s, w).rows && WorkNext(s, w).rows[id].status == s.rows[id].status
  {
    match w
    case Claim(_) =>
    case Record(_, _) =>
    case Progress(_) =>
    case Finish(_, _) =>
    case _ =>
  }

  lemma ApiKeepsTerminal(s: System, a: ApiStep, id: JobId)
    requires SpecInv(s) && ApiEnabled(s, a) && id in s.rows && s.spec[id].training && !IsLive(s, id)
    ensures id in ApiNext(s, a).rows ==> ApiNext(s, a).rows[id].status == s.rows[id].status
  {
    match a
    case SubmitJob(x, _) => assert x != id;
    case InterruptDecide(_) =>
    case InterruptCancel(_) =>
    case _ =>
  }

  lemma RecoverKeepsTerminal(s: System, r: RecoverStep, id: JobId)
    requires Inv(s) && RecoverEnabled(s, r) && id in s.rows && s.spec[id].training && !IsLive(s, id)
    ensures id in RecoverNext(s, r).rows && RecoverNext(s, r).rows[id].status == s.rows[id].status
  {
  }

  /** A terminal training row changes status at a step exactly when that step is the
      reaper's late write over a cancel, and then it becomes FAILED. */
  lemma TerminalChangesIff(s: System, step: Step, id: JobId)
    requires Inv(s) && Enabled(s, step) && id in s.rows && s.spec[id].training && !IsLive(s, id)
    requires id in Next(s, step).rows
    ensures Next(s, step).rows[id].status != s.rows[id].status <==> LateReap(s, step, id)
    ensures LateReap(s, step, id) ==> Next(s, step).rows[id].status.Failed?
  {
    match step
    case Api(a) => ApiKeepsTerminal(s, a, id);
    case Work(w) => WorkKeepsTerminal(s, w, id);
    case Recover(r) => RecoverKeepsTerminal(s, r, id);
    case Reap(p) => ReapTerminal(s, p, id);
    case Launch(l) => LaunchKeepsRow(s, l, id);
    case Control(c) => ControlLeavesRows(s, c);
  }

  lemma ReapTerminal(s: System, p: ReapStep, id: JobId)
    requires Inv(s) && ReapEnabled(s, p) && id in s.rows && s.spec[id].training && !IsLive(s, id)
    ensures id in ReapNext(s, p).rows
    ensures ReapNext(s, p).rows[id].status != s.rows[id].status <==> LateReap(s, Reap(p), id)
    ensures LateReap(s, Reap(p), id) ==> ReapNext(s, p).rows[id].status.Failed?
  {
    ReapKeepsRow(s, p, id);
  }

  lemma Extend(states: seq<System>, steps: seq<Step>, step: Step) returns (more: seq<System>)
    requires Run(states, steps) && Enabled(states[|steps|], step)
    ensures more == states + [Next(states[|steps|], step)] && Run(more, steps + [step])
  {
    more := states + [Next(states[|steps|], step)];
    forall i | 0 <= i < |steps + [step]|
      ensures Enabled(more[i], (steps + [step])[i]) && more[i + 1] == Next(more[i], (steps + [step])[i])
    {
      if i < |steps| {
        assert more[i] == states[i] && more[i + 1] == states[i + 1];
      }
    }
  }

  const LOCAL_SPEC := Spec(true, false, false, "local")

  /** The state of a queued local job whose worker died before claiming it, while an
      interrupt request is about to cancel it. */
  predicate DiedUnclaimed(s: System) {
    && s.spec == map[1 := LOCAL_SPEC]
    && s.rows == map[1 := Row(Pending, None, false)]
    && s.procs == map["local" := Proc(1, true, Some(0), Dead, false)]
    && s.handlers == map[0 := TryCancel(1)]
    && s.pc.Ready? && !s.down && s.recovered && !s.stop
  }

  lemma SubmittedAndRecovered() returns (states: seq<System>, steps: seq<Step>)
    ensures Run(states, steps)
    ensures states[|steps|] == INITIAL.(spec := map[1 := LOCAL_SPEC], rows := map[1 := Row(Pending, None, false)],
                                        recovered := true)
  {
    states, steps := [INITIAL], [];
    states := Extend(states, steps, Api(SubmitJob(1, Some(Local)))); steps := steps + [Api(SubmitJob(1, Some(Local)))];
    states := Extend(states, steps, Recover(RecoverBegin)); steps := steps + [Recover(RecoverBegin)];
    assert states[2].pc.todo == map[];
    states := Extend(states, steps, Recover(RecoverImportsBegin)); steps := steps + [Recover(RecoverImportsBegin)];
    assert states[3].pc.imports == {};
    states := Extend(states, steps, Recover(RecoverEnd)); steps := steps + [Recover(RecoverEnd)];
  }

  /** The job is scheduled, its worker dies before claiming it, and a request arrives. */
  lemma ReachDiedUnclaimed() returns (states: seq<System>, steps: seq<Step>)
    ensures Run(states, steps) && DiedUnclaimed(states[|steps|])
  {
    states, steps := SubmittedAndRecovered();
    states := Extend(states, steps, Launch(ScheduleBegin)); steps := steps + [Launch(ScheduleBegin)];
    assert states[|steps|].pc.jobs == {1};
    assert !TargetIsBusy("local", {});
    states := Extend(states, steps, Launch(ScheduleJob(1, true))); steps := steps + [Launch(ScheduleJob(1, true))];
    assert states[|steps|].pc.jobs == {};
    states := Extend(states, steps, Launch(ScheduleEnd)); steps := steps + [Launch(ScheduleEnd)];
    states := Extend(states, steps, Work(Die("local"))); steps := steps + [Work(Die("local"))];
    states := Extend(states, steps, Api(InterruptRead(0, 1))); steps := steps + [Api(InterruptRead(0, 1))];
    states := Extend(states, steps, Api(InterruptDecide(0))); steps := steps + [Api(InterruptDecide(0))];
  }

  /** A run in which an interrupt cancels a queued job and the reaper then records FAILED. */
  lemma LateReapHappens() returns (states: seq<System>, steps: seq<Step>)
    ensures Run(states, steps) && |steps| > 0
    ensures LateReap(states[|steps| - 1], steps[|steps| - 1], 1)
    ensures 1 in states[|steps|].canceled && 1 in states[|steps|].rows && states[|steps|].rows[1].status.Failed?
  {
    states, steps := ReachDiedUnclaimed();
    states := Extend(states, steps, Reap(ReapBegin("local"))); steps := steps + [Reap(ReapBegin("local"))];
    states := Extend(states, steps, Api(InterruptCancel(0))); steps := steps + [Api(InterruptCancel(0))];
    states := Extend(states, steps, Reap(ReapFailJob)); steps := steps + [Reap(ReapFailJob)];
  }
}
