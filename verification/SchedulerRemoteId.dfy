/** Why a recorded remote id is never overwritten, although its write is unconditional. */
module SchedulerRemoteId {
  import opened Common
  import opened TargetKeys
  import opened JobScheduler
  import opened SchedulerSafety
  import opened SchedulerSteps
  import opened SchedulerTheorems

  /** A worker that may still submit works on a row without a remote id. */
  predicate SubmitOk(s: System, t: string) {
    t in s.procs && s.procs[t].life.Claimed? && s.procs[t].submits && s.procs[t].job in s.rows ==>
      s.rows[s.procs[t].job].remoteId.None?
  }

  ghost predicate SubmitInv(s: System) {
    forall t :: SubmitOk(s, t)
  }

  /** Rows and claimed workers are as before, or gone. */
  ghost predicate Quiet(s: System, u: System) {
    && (forall id :: id in u.rows && id in s.rows ==> u.rows[id].remoteId == s.rows[id].remoteId)
    && (forall t :: t in u.procs && u.procs[t].life.Claimed? ==>
          t in s.procs && u.procs[t] == s.procs[t] && (u.procs[t].job in u.rows ==> u.procs[t].job in s.rows))
  }

  lemma QuietKeepsSubmit(s: System, u: System)
    requires SubmitInv(s) && Quiet(s, u)
    ensures SubmitInv(u)
  {
    forall t ensures SubmitOk(u, t) {
      assert SubmitOk(s, t);
    }
  }

  lemma ApiKeepsSubmit(s: System, a: ApiStep)
    requires SpecInv(s) && ProcInv(s) && ApiEnabled(s, a) && SubmitInv(s)
    ensures SubmitInv(ApiNext(s, a))
  {
    var u := ApiNext(s, a);
    forall id | id in u.rows && id in s.rows ensures u.rows[id].remoteId == s.rows[id].remoteId {
      ApiKeepsRemoteId(s, a, id);
    }
    ApiRows(s, a);
    QuietKeepsSubmit(s, u);
  }

  lemma ApiRows(s: System, a: ApiStep)
    requires ProcInv(s) && ApiEnabled(s, a)
    ensures ApiNext(s, a).procs == s.procs
    ensures forall t :: t in s.procs && s.procs[t].job in ApiNext(s, a).rows ==> s.procs[t].job in s.rows
  {
    match a
    case InterruptDecide(_) =>
    case InterruptCancel(_) =>
    case _ =>
  }

  lemma RecoverKeepsSubmit(s: System, r: RecoverStep)
    requires RecoverEnabled(s, r) && SubmitInv(s)
    ensures SubmitInv(RecoverNext(s, r))
  {
    forall t ensures SubmitOk(RecoverNext(s, r), t) {
      assert SubmitOk(s, t);
    }
  }

  lemma ReapKeepsSubmit(s: System, p: ReapStep)
    requires ReapEnabled(s, p) && SubmitInv(s)
    ensures SubmitInv(ReapNext(s, p))
  {
    forall t ensures SubmitOk(ReapNext(s, p), t) {
      assert SubmitOk(s, t);
      match p
      case ReapBegin(_) =>
      case ReapFailJob =>
      case _ =>
    }
  }

  lemma LaunchKeepsSubmit(s: System, l: LaunchStep)
    requires LaunchEnabled(s, l) && SubmitInv(s)
    ensures SubmitInv(LaunchNext(s, l))
  {
    forall t ensures SubmitOk(LaunchNext(s, l), t) {
      assert SubmitOk(s, t);
    }
  }

  lemma ControlKeepsSubmit(s: System, c: ControlStep)
    requires ControlEnabled(s, c) && SubmitInv(s)
    ensures SubmitInv(ControlNext(s, c))
  {
    forall t ensures SubmitOk(ControlNext(s, c), t) {
      assert SubmitOk(s, t);
    }
  }

  lemma WorkKeepsSubmit(s: System, w: WorkStep)
    requires ProcInv(s) && WorkEnabled(s, w) && SubmitInv(s)
    ensures SubmitInv(WorkNext(s, w))
  {
    forall t ensures SubmitOk(WorkNext(s, w), t) {
      assert SubmitOk(s, t);
      WorkKeepsSubmitAt(s, w, t);
    }
  }

  lemma WorkKeepsSubmitAt(s: System, w: WorkStep, t: string)
    requires ProcInv(s) && WorkEnabled(s, w) && SubmitOk(s, t)
    ensures SubmitOk(WorkNext(s, w), t)
  {
    match w
    case Claim(_) => ClaimKeepsSubmitAt(s, w, t);
    case Record(_, _) => RecordKeepsSubmitAt(s, w, t);
    case Die(_) =>
    case _ =>
  }

  lemma ClaimKeepsSubmitAt(s: System, w: WorkStep, t: string)
    requires ProcInv(s) && w.Claim? && WorkEnabled(s, w) && SubmitOk(s, t)
    ensures SubmitOk(WorkNext(s, w), t)
  {
    assert WorkNext(s, w) == WorkerClaim(s, w.target);
  }

  lemma RecordKeepsSubmitAt(s: System, w: WorkStep, t: string)
    requires ProcInv(s) && w.Record? && WorkEnabled(s, w) && SubmitOk(s, t)
    ensures SubmitOk(WorkNext(s, w), t)
  {
    assert t in s.procs && t != w.target ==> s.procs[t].job != s.procs[w.target].job;
  }

  lemma StepKeepsSubmit(s: System, step: Step)
    requires Inv(s) && SubmitInv(s) && Enabled(s, step)
    ensures SubmitInv(Next(s, step))
  {
    match step
    case Api(a) => ApiKeepsSubmit(s, a);
    case Recover(r) => RecoverKeepsSubmit(s, r);
    case Reap(p) => ReapKeepsSubmit(s, p);
    case Launch(l) => LaunchKeepsSubmit(s, l);
    case Work(w) => WorkKeepsSubmit(s, w);
    case Control(c) => ControlKeepsSubmit(s, c);
  }

  lemma {:induction false} RunSubmits(states: seq<System>, steps: seq<Step>, k: nat)
    requires Run(states, steps) && k < |states|
    ensures SubmitInv(states[k])
  {
    if k > 0 {
      RunSubmits(states, steps, k - 1);
      RunInv(states, steps, k - 1);
      StepKeepsSubmit(states[k - 1], steps[k - 1]);
    }
  }

  // ------------------------------------------------------------------------ main result

  /** The one step that writes a remote id finds none in the row: a worker submits only when it
      claimed a row without one, and only once. */
  lemma RecordFindsNone(states: seq<System>, steps: seq<Step>, k: nat, t: string, remoteId: nat)
    requires Run(states, steps) && k < |steps| && steps[k] == Work(Record(t, remoteId))
    ensures t in states[k].procs
    ensures var id := states[k].procs[t].job; id in states[k].rows && states[k].rows[id].remoteId.None?
  {
    RunInv(states, steps, k);
    RunSubmits(states, steps, k);
    assert Enabled(states[k], steps[k]) && SubmitOk(states[k], t);
  }

  lemma WorkKeepsRemoteId(s: System, w: WorkStep, id: JobId)
    requires ProcInv(s) && SubmitInv(s) && WorkEnabled(s, w) && id in s.rows && s.rows[id].remoteId.Some?
    ensures id in WorkNext(s, w).rows && WorkNext(s, w).rows[id].remoteId == s.rows[id].remoteId
  {
    assert SubmitOk(s, w.target);
    match w
    case Claim(_) =>
    case Record(_, _) =>
    case _ =>
  }

  lemma StepKeepsRemoteId(s: System, step: Step, id: JobId)
    requires Inv(s) && SubmitInv(s) && Enabled(s, step) && id in s.rows && s.rows[id].remoteId.Some?
    ensures id in Next(s, step).rows ==> Next(s, step).rows[id].remoteId == s.rows[id].remoteId
  {
    match step
    case Api(a) =>
      if id in ApiNext(s, a).rows {
        ApiKeepsRemoteId(s, a, id);
      }
    case Work(w) => WorkKeepsRemoteId(s, w, id);
    case _ => SchedulerKeepsRemoteId(s, step, id);
  }

  lemma RunStepKeepsRemoteId(states: seq<System>, steps: seq<Step>, k: nat, id: JobId, remoteId: nat)
    requires Run(states, steps) && k < |steps| && id in states[k].spec
    requires id in states[k].rows ==> states[k].rows[id].remoteId == Some(remoteId)
    ensures id in states[k + 1].spec
    ensures id in states[k + 1].rows ==> states[k + 1].rows[id].remoteId == Some(remoteId)
  {
    RunInv(states, steps, k);
    RunSubmits(states, steps, k);
    var s, step := states[k], steps[k];
    StepSettles(s, step, id);
    if id in s.rows {
      StepKeepsRemoteId(s, step, id);
    }
  }

  /** Once a remote id is recorded, every later state of the run that still has the row has that
      id: through requeues, new workers, recovery, crashes and restarts. */
  lemma {:induction false} RemoteIdIsStable(states: seq<System>, steps: seq<Step>, i: nat, k: nat, id: JobId)
    requires Run(states, steps) && i <= k < |states|
    requires id in states[i].rows && states[i].rows[id].remoteId.Some?
    ensures id in states[k].spec
    ensures id in states[k].rows ==> states[k].rows[id].remoteId == states[i].rows[id].remoteId
    decreases k
  {
    if i == k {
      RunInv(states, steps, i);
    } else {
      RemoteIdIsStable(states, steps, i, k - 1, id);
      RunStepKeepsRemoteId(states, steps, k - 1, id, states[i].rows[id].remoteId.value);
    }
  }
}
