/** When an accepted cancel of a queued job is final. */
module SchedulerCancel {
  import opened Common
  import opened JobScheduler
  import opened SchedulerSafety
  import opened SchedulerSteps
  import opened SchedulerTheorems

  /** The reaper has read the job as PENDING and is about to write FAILED. */
  predicate Committed(s: System, id: JobId) {
    s.pc.Reaping? && s.pc.fail && s.pc.target in s.procs && s.procs[s.pc.target].job == id
  }

  /** The job is canceled for good so far: CANCELED or deleted, and no FAILED write is coming. */
  predicate Settling(s: System, id: JobId) {
    && id in s.spec && s.spec[id].training && !Committed(s, id)
    && (id in s.rows ==> s.rows[id].status.Canceled?)
  }

  lemma ReapCommitsToPending(s: System, p: ReapStep, id: JobId)
    requires ReapEnabled(s, p) && Settling(s, id)
    ensures !Committed(ReapNext(s, p), id)
  {
    match p
    case ReapBegin(_) =>
    case ReapFailJob =>
    case _ =>
  }

  lemma OthersCommitNothing(s: System, step: Step, id: JobId)
    requires Inv(s) && Enabled(s, step) && !step.Reap? && !Committed(s, id)
    ensures !Committed(Next(s, step), id)
  {
    match step
    case Api(a) => ApiFrame(s, a);
    case Recover(r) => RecoverCommitsNothing(s, r, id);
    case Launch(l) => LaunchCommitsNothing(s, l, id);
    case Work(w) => WorkCommitsNothing(s, w, id);
    case Control(c) => ControlCommitsNothing(s, c, id);
  }

  lemma RecoverCommitsNothing(s: System, r: RecoverStep, id: JobId)
    requires RecoverEnabled(s, r)
    ensures !Committed(RecoverNext(s, r), id)
  {
  }

  lemma LaunchCommitsNothing(s: System, l: LaunchStep, id: JobId)
    requires LaunchEnabled(s, l)
    ensures !Committed(LaunchNext(s, l), id)
  {
  }

  lemma WorkCommitsNothing(s: System, w: WorkStep, id: JobId)
    requires WorkEnabled(s, w) && !Committed(s, id)
    ensures !Committed(WorkNext(s, w), id)
  {
    match w
    case Claim(_) =>
    case Record(_, _) =>
    case _ =>
  }

  lemma ControlCommitsNothing(s: System, c: ControlStep, id: JobId)
    requires ControlEnabled(s, c)
    ensures !Committed(ControlNext(s, c), id)
  {
  }

  lemma StepKeepsSettling(s: System, step: Step, id: JobId)
    requires Inv(s) && Enabled(s, step) && Settling(s, id)
    ensures Settling(Next(s, step), id)
  {
    StepSettles(s, step, id);
    if step.Reap? {
      ReapCommitsToPending(s, step.p, id);
    } else {
      OthersCommitNothing(s, step, id);
    }
    if id in Next(s, step).rows {
      TerminalChangesIff(s, step, id);
    }
  }

  lemma {:induction false} PathKeepsSettling(states: seq<System>, steps: seq<Step>, n: nat, id: JobId)
    requires Path(states, steps) && n <= |steps| && Inv(states[0]) && Settling(states[0], id)
    ensures Inv(states[n]) && Settling(states[n], id)
  {
    if n > 0 {
      PathKeepsSettling(states, steps, n - 1, id);
      SchedulerSteps.StepKeepsInv(states[n - 1], steps[n - 1]);
      StepKeepsSettling(states[n - 1], steps[n - 1], id);
    }
  }

  /** Whatever happens from here, the row is CANCELED as long as it exists. */
  ghost predicate StaysCanceled(s: System, id: JobId) {
    forall states, steps :: Path(states, steps) && states[0] == s ==> CanceledOrGone(states[|steps|], id)
  }

  predicate CanceledOrGone(s: System, id: JobId) {
    id in s.rows ==> s.rows[id].status.Canceled?
  }

  lemma CommittedFails(s: System, id: JobId)
    requires Committed(s, id) && id in s.rows
    ensures !StaysCanceled(s, id)
  {
    var t := Next(s, Reap(ReapFailJob));
    assert Path([s, t], [Reap(ReapFailJob)]);
    assert !CanceledOrGone([s, t][1], id);
  }

  /** At an accepted cancel of a queued job, in any run: the row stays CANCELED in every
      continuation exactly when the reaper is not already about to fail the job. */
  lemma CancelIsFinalIff(states: seq<System>, steps: seq<Step>, k: nat, h: nat)
    requires Run(states, steps) && k < |steps| && steps[k] == Api(InterruptCancel(h))
    requires h in states[k].handlers && Cancelable(states[k], states[k].handlers[h].job)
    ensures var id := states[k].handlers[h].job;
            StaysCanceled(states[k + 1], id) <==> !Committed(states[k], id)
  {
    var s, t := states[k], states[k + 1];
    var id := s.handlers[h].job;
    assert Enabled(s, steps[k]) && t == InterruptTry(s, h);
    RunInv(states, steps, k + 1);
    assert Committed(t, id) <==> Committed(s, id);
    if Committed(s, id) {
      CommittedFails(t, id);
    } else {
      assert Settling(t, id);
      forall ps, more | Path(ps, more) && ps[0] == t ensures CanceledOrGone(ps[|more|], id) {
        PathKeepsSettling(ps, more, |more|, id);
      }
    }
  }
}
