/** What becomes of an interrupt request, from its read of the job to its end. */
module SchedulerInterrupts {
  import opened Common
  import opened JobScheduler
  import opened SchedulerSafety
  import opened SchedulerSteps

  /** The request is under way for a training job it read as PENDING or RUNNING. */
  predicate UnderWay(s: System, h: nat, id: JobId) {
    && h in s.handlers && s.handlers[h].job == id && id in s.spec && s.spec[id].training
    && (s.handlers[h].Seen? ==> Live(s.handlers[h].row.status))
  }

  /** The row is PENDING and nothing of the job runs remotely. */
  predicate NotBegun(s: System, id: JobId) {
    && id in s.rows && id in s.spec && s.rows[id].status.Pending?
    && (!s.spec[id].remote || s.rows[id].remoteId.None?)
  }

  /** The request has ended in one of its two ways: the row was PENDING without a remote
      execution and is CANCELED, or the job's event is raised. */
  predicate EndedWell(s: System, t: System, h: nat, id: JobId) {
    && h !in t.handlers
    && ((id in t.canceled && NotBegun(s, id) && id in t.rows && t.rows[id].status.Canceled?)
        || (id in t.accepted && id in t.events && t.events[id] in t.raised))
  }

  /** The request has ended with a not-found error: it read a batch job that is gone by now. */
  predicate FoundNone(s: System, t: System, h: nat, id: JobId) {
    h !in t.handlers && id in s.spec && s.spec[id].onBatch && id !in s.rows
  }

  predicate Ended(s: System, t: System, h: nat, id: JobId) {
    EndedWell(s, t, h, id) || FoundNone(s, t, h, id)
  }

  lemma DecideEndsOrGoesOn(s: System, h: nat, x: nat, id: JobId)
    requires UnderWay(s, h, id) && ApiEnabled(s, InterruptDecide(x))
    ensures UnderWay(InterruptAct(s, x), h, id) || FoundNone(s, InterruptAct(s, x), h, id)
  {
  }

  lemma TryEndsOrGoesOn(s: System, h: nat, x: nat, id: JobId)
    requires UnderWay(s, h, id) && ApiEnabled(s, InterruptCancel(x))
    ensures UnderWay(InterruptTry(s, x), h, id) || EndedWell(s, InterruptTry(s, x), h, id)
  {
  }

  lemma SignalEndsOrGoesOn(s: System, h: nat, x: nat, id: JobId)
    requires UnderWay(s, h, id) && ApiEnabled(s, InterruptSignal(x))
    ensures UnderWay(Signal(s, x), h, id) || EndedWell(s, Signal(s, x), h, id)
  {
  }

  lemma ApiStepProgress(s: System, a: ApiStep, h: nat, id: JobId)
    requires UnderWay(s, h, id) && ApiEnabled(s, a)
    ensures UnderWay(ApiNext(s, a), h, id) || Ended(s, ApiNext(s, a), h, id)
  {
    match a
    case InterruptDecide(x) => DecideEndsOrGoesOn(s, h, x, id);
    case InterruptCancel(x) => TryEndsOrGoesOn(s, h, x, id);
    case InterruptSignal(x) => SignalEndsOrGoesOn(s, h, x, id);
    case SubmitJob(x, _) => assert x != id;
    case _ =>
  }

  predicate SameRequests(s: System, t: System) {
    t.handlers == s.handlers && t.spec == s.spec
  }

  lemma OthersLeaveRequests(s: System, step: Step)
    requires Enabled(s, step) && !step.Api? && step != Control(Restart)
    ensures SameRequests(s, Next(s, step))
  {
    match step
    case Recover(r) => RecoverLeavesRequests(s, r);
    case Reap(p) => ReapLeavesRequests(s, p);
    case Launch(l) => LaunchLeavesRequests(s, l);
    case Work(w) => WorkFrame(s, w);
    case Control(c) => ControlLeavesRequests(s, c);
  }

  lemma RecoverLeavesRequests(s: System, r: RecoverStep)
    requires RecoverEnabled(s, r)
    ensures SameRequests(s, RecoverNext(s, r))
  {
  }

  lemma ControlLeavesRequests(s: System, c: ControlStep)
    requires ControlEnabled(s, c) && c != Restart
    ensures SameRequests(s, ControlNext(s, c))
  {
  }

  lemma ReapLeavesRequests(s: System, p: ReapStep)
    requires ReapEnabled(s, p)
    ensures SameRequests(s, ReapNext(s, p))
  {
    match p
    case ReapBegin(_) =>
    case ReapFailJob =>
    case _ =>
  }

  lemma LaunchLeavesRequests(s: System, l: LaunchStep)
    requires LaunchEnabled(s, l)
    ensures SameRequests(s, LaunchNext(s, l))
  {
  }

  /** A request that found a live training job keeps going until, in a single step, it either
      moves the PENDING row to CANCELED or raises the job's event, or finds that its batch job has
      been deleted: no interleaving with claims, exits, requeues, recovery or other requests
      ends it any other way. */
  lemma InterruptTakesEffect(
    states: seq<System>, steps: seq<Step>, i: nat, k: nat, h: nat, id: JobId) returns (j: nat)
    requires Run(states, steps) && i < k <= |steps| && steps[i] == Api(InterruptRead(h, id))
    requires states[i].rows[id].status.Pending? || states[i].rows[id].status.Running?
    requires id in states[i].spec && states[i].spec[id].training
    requires h !in states[k].handlers
    requires forall n :: i < n < k ==> steps[n] != Control(Restart)
    ensures i < j < k && UnderWay(states[j], h, id) && Ended(states[j], states[j + 1], h, id)
  {
    j := i + 1;
    while !Ended(states[j], states[j + 1], h, id)
      invariant i < j < k && UnderWay(states[j], h, id)
      decreases k - j
    {
      if steps[j].Api? {
        ApiStepProgress(states[j], steps[j].a, h, id);
      } else {
        OthersLeaveRequests(states[j], steps[j]);
      }
      j := j + 1;
    }
  }

  /** In every run, the conditional cancel of a request takes effect exactly on a PENDING row of
      which nothing runs remotely; on any other the request goes on to raise the event. */
  lemma CancelTakesEffectIff(states: seq<System>, steps: seq<Step>, k: nat, h: nat)
    requires Run(states, steps) && k < |steps| && steps[k] == Api(InterruptCancel(h))
    ensures h in states[k].handlers
    ensures var s, t, id := states[k], states[k + 1], states[k].handlers[h].job;
            if NotBegun(s, id)
            then t.rows == s.rows[id := s.rows[id].(status := Canceled)] && h !in t.handlers
            else t.rows == s.rows && t.handlers == s.handlers[h := MustSignal(id)]
  {
    RunInv(states, steps, k);
    assert Enabled(states[k], steps[k]) && states[k + 1] == InterruptTry(states[k], h);
  }

  /** In every run, a request for an import ends with its decision: the import it read as live is
      CANCELED, and one that had ended is left as it is. */
  lemma ImportIsCanceledAtOnce(states: seq<System>, steps: seq<Step>, k: nat, h: nat)
    requires Run(states, steps) && k < |steps| && steps[k] == Api(InterruptDecide(h))
    requires h in states[k].handlers && states[k].handlers[h].job in states[k].spec
    requires !states[k].spec[states[k].handlers[h].job].training
    ensures states[k].handlers[h].Seen? && h !in states[k + 1].handlers
    ensures var s, t, id := states[k], states[k + 1], states[k].handlers[h].job;
            t.rows == if Live(s.handlers[h].row.status) && id in s.rows
                      then s.rows[id := s.rows[id].(status := Canceled)] else s.rows
  {
    assert Enabled(states[k], steps[k]) && states[k + 1] == InterruptAct(states[k], h);
  }

  /** In every run, the decision about a training job that had ended refuses the request; about a
      live one it writes no status, and it skips the conditional cancel exactly for a batch job
      that was already running or had been submitted. */
  lemma TrainingDecision(states: seq<System>, steps: seq<Step>, k: nat, h: nat)
    requires Run(states, steps) && k < |steps| && steps[k] == Api(InterruptDecide(h))
    requires h in states[k].handlers && states[k].handlers[h].job in states[k].spec
    requires states[k].spec[states[k].handlers[h].job].training
    ensures states[k].handlers[h].Seen?
    ensures var s, t, id, seen := states[k], states[k + 1], states[k].handlers[h].job, states[k].handlers[h].row;
            && (forall x :: x in s.rows ==> x in t.rows && t.rows[x].status == s.rows[x].status)
            && (!Live(seen.status) ==> t.rows == s.rows && h !in t.handlers)
            && (Live(seen.status) && (id in s.rows || !s.spec[id].onBatch) ==>
                  && h in t.handlers
                  && t.handlers[h] == if s.spec[id].onBatch && (seen.remoteId.Some? || seen.status.Running?)
                                      then MustSignal(id) else TryCancel(id))
  {
    assert Enabled(states[k], steps[k]) && states[k + 1] == InterruptAct(states[k], h);
  }
}
