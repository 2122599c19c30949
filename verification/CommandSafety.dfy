/** What every run of the command worker keeps. */
module CommandSafety {
  import opened Common
  import opened CommandProtocol

  // -------------------------------------------------------------- order and draining

  function Items(jobs: seq<Job>): seq<Item> {
    seq(|jobs|, i requires 0 <= i < |jobs| => Execute(jobs[i]))
  }

  /** How many jobs the worker has taken. */
  function Taken(s: System): nat {
    |s.outcomes| + if s.worker.Running? then 1 else 0
  }

  /** The mark is in the queue: closed with a thread that has not seen it. */
  predicate MarkQueued(s: System) {
    s.sh.closed && s.sh.threadStarted && !s.worker.Exited?
  }

  predicate OrderInv(s: System) {
    && Taken(s) <= |s.accepted|
    && s.sh.queue == Items(s.accepted[Taken(s)..]) + (if MarkQueued(s) then [ShutdownMark] else [])
    && (s.worker.Running? ==> s.worker.job == s.accepted[|s.outcomes|])
    && (s.worker.Returned? ==>
          && |s.outcomes| > 0
          && s.worker.job == s.accepted[|s.outcomes| - 1]
          && s.worker.ack == AckOf(s.worker.job, s.outcomes[|s.outcomes| - 1]))
    && (s.worker.Exited? ==> s.sh.closed && s.sh.threadStarted && Taken(s) == |s.accepted|)
    && (!s.sh.threadStarted ==> s.accepted == [] && s.worker.Idle?)
  }

  predicate CallerInv(s: System) {
    forall c :: c in s.callers ==>
      && s.sh.closed
      && (s.callers[c].Joining? && !s.callers[c].hadThread ==> !s.sh.threadStarted)
      && (s.callers[c].Drained? ==> !s.sh.threadStarted || s.worker.Exited?)
  }

  lemma TakeKeepsOrder(s: System)
    requires OrderInv(s) && Enabled(s, Take)
    ensures OrderInv(Next(s, Take))
  {
    var rest := s.accepted[Taken(s)..];
    var t := Next(s, Take);
    if rest == [] {
      assert Items(rest) == [];
      assert t.worker.Exited?;
      assert t.sh.queue == Items(t.accepted[Taken(t)..]) + [];
    } else {
      assert s.sh.queue[0] == Execute(rest[0]);
      assert t.accepted[Taken(t)..] == rest[1..];
      assert Items(rest)[1..] == Items(rest[1..]);
    }
  }

  lemma SubmitKeepsOrder(s: System, job: Job)
    requires OrderInv(s)
    ensures OrderInv(Next(s, Submit(job)))
  {
    if !s.sh.closed {
      var t := Next(s, Submit(job));
      assert t.accepted[Taken(s)..] == s.accepted[Taken(s)..] + [job];
      assert Items(s.accepted[Taken(s)..] + [job]) == Items(s.accepted[Taken(s)..]) + [Execute(job)];
    }
  }

  lemma FunctionEndsKeepsOrder(s: System, outcome: Outcome)
    requires OrderInv(s) && Enabled(s, FunctionEnds(outcome))
    ensures OrderInv(Next(s, FunctionEnds(outcome)))
  {
    assert Taken(Next(s, FunctionEnds(outcome))) == Taken(s);
  }

  lemma CloseKeepsOrder(s: System, c: nat)
    requires OrderInv(s) && Enabled(s, ShutdownCall(c))
    ensures OrderInv(Next(s, ShutdownCall(c)))
  {
    var t := Next(s, ShutdownCall(c));
    var rest := Items(s.accepted[Taken(s)..]);
    assert Taken(t) == Taken(s);
    if s.sh.threadStarted && !s.sh.closed {
      assert s.sh.queue == rest + [] && t.sh.queue == s.sh.queue + [ShutdownMark];
      assert s.sh.queue == rest;
    } else {
      assert t.sh.queue == s.sh.queue;
    }
  }

  lemma StepKeepsOrder(s: System, step: Step)
    requires OrderInv(s) && Enabled(s, step)
    ensures OrderInv(Next(s, step))
  {
    match step
    case Submit(job) => SubmitKeepsOrder(s, job);
    case Take => TakeKeepsOrder(s);
    case FunctionEnds(outcome) => FunctionEndsKeepsOrder(s, outcome);
    case ShutdownCall(c) => CloseKeepsOrder(s, c);
    case Store => assert Taken(Next(s, Store)) == Taken(s);
    case Signal => assert Taken(Next(s, Signal)) == Taken(s);
    case _ => assert Taken(Next(s, step)) == Taken(s);
  }

  lemma StepKeepsCallers(s: System, step: Step)
    requires CallerInv(s) && Enabled(s, step)
    ensures CallerInv(Next(s, step))
  {
    match step
    case Submit(job) =>
    case _ =>
  }

  // ------------------------------------------------------------------------- results

  /** Job `k` was submitted under `id`. */
  predicate Names(s: System, id: RequestId, k: nat) {
    k < |s.accepted| && s.accepted[k].requestId == Some(id)
  }

  /** The last job submitted under `id`. */
  function LastOf(jobs: seq<Job>, id: RequestId): (k: Option<nat>)
    ensures k.Some? ==> k.value < |jobs| && jobs[k.value].requestId == Some(id)
    ensures k.None? ==> forall j :: 0 <= j < |jobs| ==> jobs[j].requestId != Some(id)
    ensures k.Some? ==> forall j :: k.value < j < |jobs| ==> jobs[j].requestId != Some(id)
  {
    if jobs == [] then None
    else if jobs[|jobs| - 1].requestId == Some(id) then Some(|jobs| - 1)
    else LastOf(jobs[..|jobs| - 1], id)
  }

  /** The acknowledgement of job `k`. */
  function ResultOf(s: System, k: nat): Ack
    requires k < |s.outcomes| && k < |s.accepted|
  {
    AckOf(s.accepted[k], s.outcomes[k])
  }

  /** The result of job `k` has been stored. */
  predicate StoredBy(s: System, k: nat) {
    k < |s.outcomes| && !(s.worker.Returned? && k == |s.outcomes| - 1)
  }

  /** Events and waits are of jobs with their id; a set event is of some job. */
  predicate BookInv(s: System) {
    && (forall id :: id in s.sh.events ==> Names(s, id, s.sh.events[id]))
    && (forall w :: w in s.waiters ==> Names(s, s.waiters[w].id, s.waiters[w].event))
    && (forall e :: e in s.fired ==> e < |s.accepted|)
    && (forall e :: e in s.served ==> e < |s.accepted|)
    && (s.worker.Stored? ==>
          && |s.outcomes| > 0 && s.accepted != []
          && |s.outcomes| <= |s.accepted| && s.accepted[|s.outcomes| - 1].requestId.Some?
          && (s.worker.event.Some? ==> Names(s, s.accepted[|s.outcomes| - 1].requestId.value, s.worker.event.value)))
  }

  lemma SubmitKeepsBooks(s: System, job: Job)
    requires OrderInv(s) && BookInv(s)
    ensures BookInv(Next(s, Submit(job)))
  {
    if !s.sh.closed {
      var t := Next(s, Submit(job));
      assert forall id, k :: Names(s, id, k) ==> Names(t, id, k);
    }
  }

  lemma StoreKeepsBooks(s: System)
    requires OrderInv(s) && BookInv(s) && s.worker.Returned?
    ensures BookInv(StoreResult(s))
  {
    assert forall id, k :: Names(s, id, k) <==> Names(StoreResult(s), id, k);
  }

  /** Neither jobs nor the dictionary of events change. */
  lemma QuietKeepsBooks(s: System, step: Step)
    requires OrderInv(s) && BookInv(s) && Enabled(s, step) && !step.Submit? && !step.Store?
    ensures BookInv(Next(s, step))
  {
    assert forall id, k :: Names(s, id, k) <==> Names(Next(s, step), id, k);
    match step
    case WaitBegin(w, id) =>
    case WaitEnd(w) =>
    case Take =>
    case FunctionEnds(_) =>
    case Signal =>
    case _ =>
  }

  lemma StepKeepsBooks(s: System, step: Step)
    requires OrderInv(s) && BookInv(s) && Enabled(s, step)
    ensures BookInv(Next(s, step))
  {
    match step
    case Submit(job) => SubmitKeepsBooks(s, job);
    case Store => StoreKeepsBooks(s);
    case _ => QuietKeepsBooks(s, step);
  }

  /** Nothing was ever submitted under `id`. */
  predicate NoTrace(s: System, id: RequestId) {
    id !in s.sh.events && id !in s.sh.results && forall w :: w in s.waiters ==> s.waiters[w].id != id
  }

  /** What holds for `id` while its last job `k` is the only one that matters. */
  predicate JobInv(s: System, id: RequestId, k: nat) {
    && (forall j :: 0 <= j < k && j < |s.accepted| && s.accepted[j].requestId == Some(id) ==> StoredBy(s, j))
    && (forall w :: w in s.waiters && s.waiters[w].id == id ==> s.waiters[w].event == k)
    && (id in s.sh.events ==> s.sh.events[id] == k)
    && (k in s.fired ==> StoredBy(s, k))
    && (if StoredBy(s, k) then
          && k < |s.accepted|
          && (id in s.sh.results ==> s.sh.results[id] == ResultOf(s, k))
          && (id in s.sh.events <==> k !in s.served) && (id in s.sh.results <==> k !in s.served)
          && (k in s.fired || s.worker == Stored(Some(k)))
        else id in s.sh.events && k !in s.served)
    && (s.worker == Stored(Some(k)) ==> StoredBy(s, k))
  }

  predicate IdInv(s: System, id: RequestId) {
    match LastOf(s.accepted, id)
    case None => NoTrace(s, id)
    case Some(k) => JobInv(s, id, k)
  }

  /** An earlier job under `id` has no stored result yet, or a wait on `id` is in progress. */
  ghost predicate Outstanding(s: System, id: RequestId) {
    || (exists k :: 0 <= k < |s.accepted| && s.accepted[k].requestId == Some(id) && !StoredBy(s, k))
    || (exists w :: w in s.waiters && s.waiters[w].id == id)
  }

  /** This step submits under `id`, and the job is accepted. */
  predicate Submits(s: System, step: Step, id: RequestId) {
    step.Submit? && step.job.requestId == Some(id) && !s.sh.closed
  }

  lemma LastOfSnoc(jobs: seq<Job>, job: Job, id: RequestId)
    ensures LastOf(jobs + [job], id) == if job.requestId == Some(id) then Some(|jobs|) else LastOf(jobs, id)
  {
    assert (jobs + [job])[..|jobs|] == jobs;
  }

  /** A new job under an id with nothing outstanding becomes the one that matters. */
  lemma SubmitStartsId(s: System, job: Job, id: RequestId)
    requires OrderInv(s) && BookInv(s) && !s.sh.closed && job.requestId == Some(id) && !Outstanding(s, id)
    ensures JobInv(Next(s, Submit(job)), id, |s.accepted|)
  {
    var t, n := Next(s, Submit(job)), |s.accepted|;
    assert !StoredBy(t, n) && n !in s.fired && n !in s.served;
    forall j | 0 <= j < n && t.accepted[j].requestId == Some(id) ensures StoredBy(t, j) {
      assert s.accepted[j] == t.accepted[j] && StoredBy(s, j);
    }
  }

  /** A job under another id changes nothing for this one. */
  lemma SubmitLeavesId(s: System, job: Job, id: RequestId, k: nat)
    requires !s.sh.closed && job.requestId != Some(id) && k < |s.accepted| && JobInv(s, id, k)
    ensures JobInv(Next(s, Submit(job)), id, k)
  {
    var t := Next(s, Submit(job));
    forall j | 0 <= j < k && t.accepted[j].requestId == Some(id) ensures StoredBy(t, j) {
      assert s.accepted[j] == t.accepted[j];
    }
  }

  lemma SubmitKeepsId(s: System, job: Job, id: RequestId)
    requires OrderInv(s) && BookInv(s) && IdInv(s, id)
    requires Submits(s, Submit(job), id) ==> !Outstanding(s, id)
    ensures IdInv(Next(s, Submit(job)), id)
  {
    if !s.sh.closed {
      LastOfSnoc(s.accepted, job, id);
      if job.requestId == Some(id) {
        SubmitStartsId(s, job, id);
      } else if LastOf(s.accepted, id).Some? {
        SubmitLeavesId(s, job, id, LastOf(s.accepted, id).value);
      }
    }
  }

  lemma StoreOwnId(s: System, id: RequestId, k: nat)
    requires OrderInv(s) && JobInv(s, id, k) && s.worker.Returned? && k == |s.outcomes| - 1
    requires k < |s.accepted| && s.accepted[k].requestId == Some(id)
    ensures JobInv(StoreResult(s), id, k)
  {
    assert !StoredBy(s, k) && StoreResult(s).worker == Stored(Some(k));
  }

  lemma StoreOtherId(s: System, id: RequestId, k: nat)
    requires OrderInv(s) && BookInv(s) && JobInv(s, id, k) && s.worker.Returned? && k != |s.outcomes| - 1
    requires k < |s.accepted| && s.accepted[k].requestId == Some(id)
    requires s.accepted[|s.outcomes| - 1].requestId != Some(id)
    ensures JobInv(StoreResult(s), id, k)
  {
    assert StoredBy(StoreResult(s), k) <==> StoredBy(s, k);
    assert StoreResult(s).worker != Stored(Some(k));
  }

  lemma StoreKeepsId(s: System, id: RequestId)
    requires OrderInv(s) && BookInv(s) && IdInv(s, id) && s.worker.Returned?
    ensures IdInv(StoreResult(s), id)
  {
    var n := |s.outcomes| - 1;
    match LastOf(s.accepted, id)
    case None =>
    case Some(k) =>
      if k == n {
        StoreOwnId(s, id, k);
      } else {
        assert s.accepted[n].requestId == Some(id) ==> StoredBy(s, n);
        StoreOtherId(s, id, k);
      }
  }

  lemma SignalKeepsId(s: System, id: RequestId)
    requires OrderInv(s) && BookInv(s) && IdInv(s, id) && s.worker.Stored?
    ensures IdInv(Next(s, Signal), id)
  {
  }

  lemma CollectKeepsId(s: System, w: nat, id: RequestId)
    requires OrderInv(s) && BookInv(s) && IdInv(s, id) && Enabled(s, WaitEnd(w))
    ensures IdInv(Next(s, WaitEnd(w)), id)
  {
    assert Names(s, s.waiters[w].id, s.waiters[w].event);
  }

  lemma FunctionEndsKeepsId(s: System, outcome: Outcome, id: RequestId)
    requires OrderInv(s) && BookInv(s) && IdInv(s, id) && s.worker.Running?
    ensures IdInv(Next(s, FunctionEnds(outcome)), id)
  {
  }

  lemma WaitBeginKeepsId(s: System, w: nat, x: RequestId, id: RequestId)
    requires BookInv(s) && IdInv(s, id) && Enabled(s, WaitBegin(w, x))
    ensures IdInv(Next(s, WaitBegin(w, x)), id)
  {
  }

  lemma OtherStepsKeepId(s: System, step: Step, id: RequestId)
    requires IdInv(s, id) && Enabled(s, step)
    requires step.WaitTimeout? || step.ShutdownCall? || step.JoinReturns? || step.JoinTimesOut? || step.Take?
    ensures IdInv(Next(s, step), id)
  {
    match step
    case Take =>
    case _ =>
  }

  lemma StepKeepsId(s: System, step: Step, id: RequestId)
    requires OrderInv(s) && BookInv(s) && IdInv(s, id) && Enabled(s, step)
    requires Submits(s, step, id) ==> !Outstanding(s, id)
    ensures IdInv(Next(s, step), id)
  {
    match step
    case Submit(job) => SubmitKeepsId(s, job, id);
    case Store => StoreKeepsId(s, id);
    case Signal => SignalKeepsId(s, id);
    case WaitEnd(w) => CollectKeepsId(s, w, id);
    case FunctionEnds(outcome) => FunctionEndsKeepsId(s, outcome, id);
    case WaitBegin(w, x) => WaitBeginKeepsId(s, w, x, id);
    case _ => OtherStepsKeepId(s, step, id);
  }
}
