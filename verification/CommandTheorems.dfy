/** The command worker's promises over whole runs. */
module CommandTheorems {
  import opened Common
  import opened CommandProtocol
  import opened CommandSafety

  ghost predicate Inv(s: System) {
    OrderInv(s) && CallerInv(s) && BookInv(s)
  }

  lemma StepKeepsInv(s: System, step: Step)
    requires Inv(s) && Enabled(s, step)
    ensures Inv(Next(s, step)) && s.accepted <= Next(s, step).accepted
  {
    StepKeepsOrder(s, step);
    StepKeepsCallers(s, step);
    StepKeepsBooks(s, step);
  }

  lemma {:induction false} RunInv(states: seq<System>, steps: seq<Step>, n: nat)
    requires Run(states, steps) && n <= |steps|
    ensures Inv(states[n])
  {
    if n > 0 {
      RunInv(states, steps, n - 1);
      StepKeepsInv(states[n - 1], steps[n - 1]);
    }
  }

  // --------------------------------------------------------- order, and nothing lost

  /** The jobs whose functions were entered in the first `n` steps, read off the run itself. */
  function Begun(states: seq<System>, steps: seq<Step>, n: nat): seq<Job>
    requires n <= |steps| < |states|
  {
    if n == 0 then []
    else if steps[n - 1].Take? && states[n].worker.Running? then Begun(states, steps, n - 1) + [states[n].worker.job]
    else Begun(states, steps, n - 1)
  }

  lemma BegunNext(states: seq<System>, steps: seq<Step>, n: nat)
    requires Run(states, steps) && n < |steps|
    requires Inv(states[n]) && Inv(states[n + 1])
    requires Begun(states, steps, n) == states[n].accepted[..Taken(states[n])]
    ensures Begun(states, steps, n + 1) == states[n + 1].accepted[..Taken(states[n + 1])]
  {
    var s, step, t := states[n], steps[n], states[n + 1];
    assert Enabled(s, step) && t == Next(s, step);
    StepKeepsInv(s, step);
    TakenGrowsByTake(s, step);
    PrefixGrows(s.accepted, t.accepted, Taken(s));
  }

  lemma PrefixGrows(before: seq<Job>, after: seq<Job>, n: nat)
    requires before <= after && n <= |before|
    ensures after[..n] == before[..n]
    ensures n < |after| ==> after[..n + 1] == before[..n] + [after[n]]
  {
  }

  /** Jobs begin one at a time and in submission order; a worker that has exited began them all. */
  lemma {:induction false} JobsRunOnceInOrder(states: seq<System>, steps: seq<Step>, n: nat)
    requires Run(states, steps) && n <= |steps|
    ensures Taken(states[n]) <= |states[n].accepted|
    ensures Begun(states, steps, n) == states[n].accepted[..Taken(states[n])]
    ensures states[n].worker.Exited? ==> Begun(states, steps, n) == states[n].accepted
  {
    RunInv(states, steps, n);
    if n > 0 {
      JobsRunOnceInOrder(states, steps, n - 1);
      RunInv(states, steps, n - 1);
      BegunNext(states, steps, n - 1);
    }
  }

  lemma TakenGrowsByTake(s: System, step: Step)
    requires Inv(s) && Enabled(s, step)
    ensures Taken(Next(s, step)) == Taken(s) + if step.Take? && Next(s, step).worker.Running? then 1 else 0
  {
    match step
    case Take =>
    case _ =>
  }

  // ------------------------------------------------------------------------ draining

  /** Some shutdown call has returned True. */
  predicate HasDrained(s: System) {
    exists c :: c in s.callers && s.callers[c].Drained?
  }

  /** Nothing runs, nothing is queued, and everything accepted has been run. */
  predicate Quiet(s: System) {
    && s.sh.closed && s.sh.queue == [] && |s.outcomes| == |s.accepted|
    && (s.worker.Exited? || (s.worker.Idle? && !s.sh.threadStarted))
  }

  lemma DrainedIsQuiet(s: System)
    requires OrderInv(s) && CallerInv(s) && HasDrained(s)
    ensures Quiet(s)
  {
    assert s.accepted[Taken(s)..] == [];
    assert Items([]) == [];
  }

  lemma StepKeepsDrained(s: System, step: Step)
    requires Enabled(s, step) && HasDrained(s)
    ensures HasDrained(Next(s, step))
  {
    var c :| c in s.callers && s.callers[c].Drained?;
    assert c in Next(s, step).callers && Next(s, step).callers[c].Drained?;
  }

  lemma QuietStepAcceptsNothing(s: System, step: Step)
    requires Enabled(s, step) && Quiet(s)
    ensures Next(s, step).accepted == s.accepted && Next(s, step).outcomes == s.outcomes
  {
  }

  /** Once a shutdown call has returned True no job runs, is queued or is accepted any more,
      so what its caller does next never overlaps a job. */
  lemma {:induction false} DrainedForGood(states: seq<System>, steps: seq<Step>, i: nat, j: nat)
    requires Run(states, steps) && i <= j <= |steps| && HasDrained(states[i])
    ensures Quiet(states[j]) && HasDrained(states[j])
    ensures states[j].accepted == states[i].accepted && states[j].outcomes == states[i].outcomes
  {
    if i < j {
      DrainedForGood(states, steps, i, j - 1);
      StepKeepsDrained(states[j - 1], steps[j - 1]);
      QuietStepAcceptsNothing(states[j - 1], steps[j - 1]);
    }
    RunInv(states, steps, j);
    DrainedIsQuiet(states[j]);
  }

  /** A bound on the worker's remaining steps. */
  function WorkLeft(s: System): nat {
    4 * |s.sh.queue| + match s.worker
                       case Running(_) => 3
                       case Returned(_, _) => 2
                       case Stored(_) => 1
                       case _ => 0
  }

  predicate WorkerStep(step: Step) {
    step.Take? || step.FunctionEnds? || step.Store? || step.Signal?
  }

  /** Worker steps always shorten the work, and after the close nothing lengthens it. */
  lemma DrainShrinks(s: System, step: Step)
    requires Inv(s) && s.sh.closed && Enabled(s, step)
    ensures WorkLeft(Next(s, step)) <= WorkLeft(s)
    ensures WorkerStep(step) ==> WorkLeft(Next(s, step)) < WorkLeft(s)
  {
    if WorkerStep(step) {
      WorkerStepShrinks(s, step);
    } else {
      assert Next(s, step).worker == s.worker && Next(s, step).sh.queue == s.sh.queue;
    }
  }

  lemma WorkerStepShrinks(s: System, step: Step)
    requires WorkerStep(step) && Enabled(s, step)
    ensures WorkLeft(Next(s, step)) < WorkLeft(s)
  {
    match step
    case Take => assert |s.sh.queue[1..]| == |s.sh.queue| - 1;
    case FunctionEnds(_) =>
    case Store =>
    case Signal =>
  }

  /** After the close the thread has a step to make until it has exited with everything run. */
  lemma WorkerIsNeverStuck(s: System)
    requires Inv(s) && s.sh.closed && s.sh.threadStarted
    ensures s.worker.Exited? <==> WorkLeft(s) == 0
    ensures s.worker.Exited? ==> Quiet(s)
    ensures !s.worker.Exited? ==>
              Enabled(s, Take) || Enabled(s, FunctionEnds(Done)) || Enabled(s, Store) || Enabled(s, Signal)
  {
    if s.worker.Exited? {
      assert s.accepted[Taken(s)..] == [];
      assert Items([]) == [];
    }
  }

  // ------------------------------------------------------------------------- waiting

  /** In the first `n` steps, no job was accepted under `id` while one was outstanding. Other ids,
      and reusing `id` once its last job is done and nobody waits for it, do not matter. */
  ghost predicate OneAtATime(states: seq<System>, steps: seq<Step>, n: nat, id: RequestId)
    requires n <= |steps| < |states|
  {
    forall i :: 0 <= i < n && Submits(states[i], steps[i], id) ==> !Outstanding(states[i], id)
  }

  lemma {:induction false} RunKeepsId(states: seq<System>, steps: seq<Step>, n: nat, id: RequestId)
    requires Run(states, steps) && n <= |steps| && OneAtATime(states, steps, n, id)
    ensures IdInv(states[n], id)
  {
    if n > 0 {
      RunKeepsId(states, steps, n - 1, id);
      RunInv(states, steps, n - 1);
      StepKeepsId(states[n - 1], steps[n - 1], id);
    }
  }

  /** A wait on `id` whose event is set returns its own job's acknowledgement, or raises exactly
      when another wait has already collected that job's. */
  lemma WaitReturnsOwnResult(states: seq<System>, steps: seq<Step>, n: nat, w: nat)
    requires Run(states, steps) && n <= |steps| && Enabled(states[n], WaitEnd(w))
    requires OneAtATime(states, steps, n, states[n].waiters[w].id)
    ensures var s := states[n];
            var Waiter(id, k) := s.waiters[w];
            && Names(s, id, k) && k < |s.outcomes|
            && (id in s.sh.results <==> k !in s.served)
            && (id in s.sh.results ==> s.sh.results[id] == AckOf(s.accepted[k], s.outcomes[k]))
  {
    RunInv(states, steps, n);
    RunKeepsId(states, steps, n, states[n].waiters[w].id);
    assert Names(states[n], states[n].waiters[w].id, states[n].waiters[w].event);
  }

  /** A wait can be woken only after its own job has run: a timeout is the only other end. */
  lemma UnfinishedJobsWakeNobody(states: seq<System>, steps: seq<Step>, n: nat, w: nat)
    requires Run(states, steps) && n <= |steps|
    requires w in states[n].waiters && states[n].waiters[w].event >= |states[n].outcomes|
    requires OneAtATime(states, steps, n, states[n].waiters[w].id)
    ensures !Enabled(states[n], WaitEnd(w)) && Enabled(states[n], WaitTimeout(w))
  {
    RunInv(states, steps, n);
    RunKeepsId(states, steps, n, states[n].waiters[w].id);
    assert Names(states[n], states[n].waiters[w].id, states[n].waiters[w].event);
  }

  // ------------------------------------------------------------ what a result tells

  /** The outcomes of the functions that ended in the first `n` steps, read off the run itself. */
  function Ended(steps: seq<Step>, n: nat): seq<Outcome>
    requires n <= |steps|
  {
    if n == 0 then []
    else if steps[n - 1].FunctionEnds? then Ended(steps, n - 1) + [steps[n - 1].outcome]
    else Ended(steps, n - 1)
  }

  /** The jobs handed in before the worker was closed, read off the run itself. */
  function HandedIn(states: seq<System>, steps: seq<Step>, n: nat): seq<Job>
    requires n <= |steps| < |states|
  {
    if n == 0 then []
    else if steps[n - 1].Submit? && !states[n - 1].sh.closed then HandedIn(states, steps, n - 1) + [steps[n - 1].job]
    else HandedIn(states, steps, n - 1)
  }

  lemma StepRecords(s: System, step: Step)
    requires Enabled(s, step)
    ensures var t := Next(s, step);
            && t.outcomes == (if step.FunctionEnds? then s.outcomes + [step.outcome] else s.outcomes)
            && t.accepted == (if step.Submit? && !s.sh.closed then s.accepted + [step.job] else s.accepted)
  {
    match step
    case Store =>
    case _ =>
  }

  lemma {:induction false} RecordsAreTrue(states: seq<System>, steps: seq<Step>, n: nat)
    requires Run(states, steps) && n <= |steps|
    ensures states[n].outcomes == Ended(steps, n) && states[n].accepted == HandedIn(states, steps, n)
  {
    if n > 0 {
      RecordsAreTrue(states, steps, n - 1);
      assert Enabled(states[n - 1], steps[n - 1]) && states[n] == Next(states[n - 1], steps[n - 1]);
      StepRecords(states[n - 1], steps[n - 1]);
    }
  }

  /** A result says which request it answers, whether its function returned, and if it raised,
      with what text: the error's own, or the job's name if the error has none. */
  predicate Tells(ack: Ack, id: RequestId, job: Job, outcome: Outcome) {
    && ack.requestId == id
    && (ack.ok <==> outcome.Done?) && (ack.error.None? <==> ack.ok)
    && (outcome.Raised? && outcome.error != "" ==> ack.error == Some(outcome.error))
    && (outcome == Raised("") ==> ack.error == Some(job.name + " failed"))
  }

  lemma AckTells(job: Job, outcome: Outcome, id: RequestId)
    requires job.requestId == Some(id)
    ensures Tells(AckOf(job, outcome), id, job, outcome)
  {
  }

  /** In every run in which `id` names one job at a time, what a woken wait on `id` finds tells how
      the function of its own job ended: `k` is that job's place among the jobs handed in, and
      among the functions that have ended. */
  lemma ResultTellsOutcome(states: seq<System>, steps: seq<Step>, n: nat, w: nat)
    requires Run(states, steps) && n <= |steps| && Enabled(states[n], WaitEnd(w))
    requires OneAtATime(states, steps, n, states[n].waiters[w].id)
    ensures var s := states[n];
            var Waiter(id, k) := s.waiters[w];
            var jobs, outcomes := HandedIn(states, steps, n), Ended(steps, n);
            && k < |jobs| && k < |outcomes| && jobs[k].requestId == Some(id)
            && (id in s.sh.results ==> Tells(s.sh.results[id], id, jobs[k], outcomes[k]))
  {
    WaitReturnsOwnResult(states, steps, n, w);
    RecordsAreTrue(states, steps, n);
    var Waiter(id, k) := states[n].waiters[w];
    AckTells(states[n].accepted[k], states[n].outcomes[k], id);
  }
}
