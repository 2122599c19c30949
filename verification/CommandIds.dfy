/**
 When two submissions under one request id can exchange acknowledgements: exactly when the
 second one is accepted while the first is outstanding.
 */
module CommandIds {
  import opened Common
  import opened CommandProtocol
  import opened CommandSafety
  import opened CommandTheorems

  /** Some wait on `id` can return now, and what it returns is not its own job's
      acknowledgement. */
  ghost predicate Mixed(s: System, id: RequestId) {
    exists w :: MixedAt(s, id, w)
  }

  predicate MixedAt(s: System, id: RequestId, w: nat) {
    && w in s.waiters && s.waiters[w].id == id && Enabled(s, WaitEnd(w)) && id in s.sh.results
    && var k := s.waiters[w].event;
       !(k < |s.outcomes| && k < |s.accepted| && s.sh.results[id] == ResultOf(s, k))
  }

  predicate NoneSubmits(steps: seq<Step>, id: RequestId) {
    forall i :: 0 <= i < |steps| ==> !(steps[i].Submit? && steps[i].job.requestId == Some(id))
  }

  /** Some continuation without another submission under `id` mixes the acknowledgements. */
  ghost predicate MayMix(s: System, id: RequestId) {
    exists states, steps :: MixingPath(s, id, states, steps)
  }

  ghost predicate MixingPath(s: System, id: RequestId, states: seq<System>, steps: seq<Step>) {
    Path(states, steps) && states[0] == s && NoneSubmits(steps, id) && Mixed(states[|steps|], id)
  }

  lemma MixedNow(s: System, id: RequestId)
    requires Mixed(s, id)
    ensures MayMix(s, id)
  {
    assert MixingPath(s, id, [s], []);
  }

  lemma MixLater(s: System, step: Step, id: RequestId)
    requires Enabled(s, step) && !step.Submit? && MayMix(Next(s, step), id)
    ensures MayMix(s, id)
  {
    var states, steps :| MixingPath(Next(s, step), id, states, steps);
    var longer, more := [s] + states, [step] + steps;
    forall i | 0 <= i < |more| ensures Enabled(longer[i], more[i]) && longer[i + 1] == Next(longer[i], more[i]) {
      if i > 0 {
        assert more[i] == steps[i - 1] && longer[i] == states[i - 1] && longer[i + 1] == states[i];
      }
    }
    assert longer[|more|] == states[|steps|];
    assert MixingPath(s, id, longer, more);
  }

  // ------------------------------------------------------------- a first job not done yet

  /** The second job's event is the registered one, a wait holds it, and job `k` before it is
      not stored. */
  predicate Overtaken(s: System, id: RequestId, w: nat, k: nat, m: nat) {
    && k < m && Names(s, id, k) && Names(s, id, m) && !StoredBy(s, k)
    && id in s.sh.events && s.sh.events[id] == m
    && w in s.waiters && s.waiters[w] == Waiter(id, m)
    && !s.sh.closed && s.sh.threadStarted
  }

  /** The step the worker takes next; its function ends as told. */
  function WorkerStepOf(s: System, outcome: Outcome): Step {
    match s.worker
    case Running(_) => FunctionEnds(outcome)
    case Returned(_, _) => Store
    case Stored(_) => Signal
    case _ => Take
  }

  lemma StoringMixes(s: System, id: RequestId, w: nat, k: nat, m: nat)
    requires Inv(s) && Overtaken(s, id, w, k, m)
    requires s.worker.Returned? && s.accepted[|s.outcomes| - 1].requestId == Some(id)
    ensures MayMix(s, id)
  {
    var t := Next(s, Store);
    var u := Next(t, Signal);
    assert t.worker == Stored(Some(m));
    assert MixedAt(u, id, w);
    MixedNow(u, id);
    MixLater(t, Signal, id);
    MixLater(s, Store, id);
  }

  lemma WorkerKeepsOvertaken(s: System, id: RequestId, w: nat, k: nat, m: nat)
    requires Inv(s) && Overtaken(s, id, w, k, m)
    requires s.worker.Returned? ==> s.accepted[|s.outcomes| - 1].requestId != Some(id)
    ensures Enabled(s, WorkerStepOf(s, Done)) && Overtaken(Next(s, WorkerStepOf(s, Done)), id, w, k, m)
  {
    if s.worker.Idle? {
      assert s.accepted[Taken(s)..] != [];
    }
  }

  lemma {:induction false} OvertakenMixes(s: System, id: RequestId, w: nat, k: nat, m: nat)
    requires Inv(s) && Overtaken(s, id, w, k, m)
    ensures MayMix(s, id)
    decreases WorkLeft(s)
  {
    if s.worker.Returned? && s.accepted[|s.outcomes| - 1].requestId == Some(id) {
      StoringMixes(s, id, w, k, m);
    } else {
      var step := WorkerStepOf(s, Done);
      WorkerKeepsOvertaken(s, id, w, k, m);
      WorkerStepShrinks(s, step);
      StepKeepsInv(s, step);
      OvertakenMixes(Next(s, step), id, w, k, m);
      MixLater(s, step, id);
    }
  }

  // --------------------------------------------------------------- a wait still in progress

  /** A wait holds the event of the finished job `k`, and the next job under `id` is `m`. */
  predicate Lingers(s: System, id: RequestId, w: nat, k: nat, m: nat) {
    && k < m && Names(s, id, k) && Names(s, id, m) && StoredBy(s, k) && !StoredBy(s, m)
    && (forall j :: k < j < m && j < |s.accepted| ==> s.accepted[j].requestId != Some(id))
    && w in s.waiters && s.waiters[w] == Waiter(id, k)
    && (k in s.fired || s.worker == Stored(Some(k)))
    && (s.worker.Returned? && |s.outcomes| - 1 == m && k < |s.outcomes| ==> s.worker.ack != ResultOf(s, k))
    && !s.sh.closed && s.sh.threadStarted
  }

  /** An ending of job `m` that its acknowledgement tells from that of `k`. */
  function OtherOutcome(s: System, k: nat): Outcome
    requires k < |s.outcomes|
  {
    match s.outcomes[k] case Done => Raised("other") case Raised(_) => Done
  }

  lemma LingeringWaitMixes(s: System, id: RequestId, w: nat, k: nat, m: nat)
    requires Inv(s) && Lingers(s, id, w, k, m) && s.worker.Returned? && |s.outcomes| - 1 == m
    ensures MayMix(s, id)
  {
    var t := Next(s, Store);
    assert t.sh.results[id] == s.worker.ack;
    assert ResultOf(t, k) == ResultOf(s, k);
    assert MixedAt(t, id, w);
    MixedNow(t, id);
    MixLater(s, Store, id);
  }

  lemma WorkerKeepsLingers(s: System, id: RequestId, w: nat, k: nat, m: nat)
    requires Inv(s) && Lingers(s, id, w, k, m)
    requires !(s.worker.Returned? && |s.outcomes| - 1 == m)
    ensures k < |s.outcomes|
    ensures var step := WorkerStepOf(s, OtherOutcome(s, k));
            Enabled(s, step) && Lingers(Next(s, step), id, w, k, m)
  {
    if s.worker.Idle? {
      assert s.accepted[Taken(s)..] != [];
    }
    var step := WorkerStepOf(s, OtherOutcome(s, k));
    if step.FunctionEnds? {
      assert ResultOf(Next(s, step), k) == ResultOf(s, k);
    }
  }

  lemma {:induction false} LingersMixes(s: System, id: RequestId, w: nat, k: nat, m: nat)
    requires Inv(s) && Lingers(s, id, w, k, m)
    ensures MayMix(s, id)
    decreases WorkLeft(s)
  {
    if s.worker.Returned? && |s.outcomes| - 1 == m {
      LingeringWaitMixes(s, id, w, k, m);
    } else {
      WorkerKeepsLingers(s, id, w, k, m);
      var step := WorkerStepOf(s, OtherOutcome(s, k));
      WorkerStepShrinks(s, step);
      StepKeepsInv(s, step);
      LingersMixes(Next(s, step), id, w, k, m);
      MixLater(s, step, id);
    }
  }

  // ------------------------------------------------------------------------ main result

  lemma UnfinishedMixes(s: System, job: Job, id: RequestId, k: nat)
    requires Inv(s) && !s.sh.closed && job.requestId == Some(id) && Names(s, id, k) && !StoredBy(s, k)
    ensures MayMix(Next(s, Submit(job)), id)
  {
    var t := Next(s, Submit(job));
    var w := UnusedNumber(t.waiters.Keys);
    var u := Next(t, WaitBegin(w, id));
    StepKeepsInv(s, Submit(job));
    StepKeepsInv(t, WaitBegin(w, id));
    assert Overtaken(u, id, w, k, |s.accepted|);
    OvertakenMixes(u, id, w, k, |s.accepted|);
    MixLater(t, WaitBegin(w, id), id);
  }

  lemma WaitingMixes(s: System, job: Job, id: RequestId, w: nat)
    requires Inv(s) && IdInv(s, id) && !s.sh.closed && job.requestId == Some(id)
    requires w in s.waiters && s.waiters[w].id == id
    requires forall k :: 0 <= k < |s.accepted| && s.accepted[k].requestId == Some(id) ==> StoredBy(s, k)
    ensures MayMix(Next(s, Submit(job)), id)
  {
    var t, m := Next(s, Submit(job)), |s.accepted|;
    var k := s.waiters[w].event;
    assert Names(s, id, k) && LastOf(s.accepted, id) == Some(k);
    StepKeepsInv(s, Submit(job));
    forall j | k < j < m ensures t.accepted[j].requestId != Some(id) {
      assert t.accepted[j] == s.accepted[j];
    }
    assert Lingers(t, id, w, k, m);
    LingersMixes(t, id, w, k, m);
  }

  lemma {:induction false} PathKeepsId(states: seq<System>, steps: seq<Step>, n: nat, id: RequestId)
    requires Path(states, steps) && n <= |steps| && NoneSubmits(steps, id)
    requires Inv(states[0]) && IdInv(states[0], id)
    ensures Inv(states[n]) && IdInv(states[n], id)
  {
    if n > 0 {
      PathKeepsId(states, steps, n - 1, id);
      StepKeepsInv(states[n - 1], steps[n - 1]);
      StepKeepsId(states[n - 1], steps[n - 1], id);
    }
  }

  lemma IdInvIsNotMixed(s: System, id: RequestId)
    requires Inv(s) && IdInv(s, id)
    ensures !Mixed(s, id)
  {
    forall w ensures !MixedAt(s, id, w) {
      assert w in s.waiters ==> Names(s, s.waiters[w].id, s.waiters[w].event);
    }
  }

  /** A submission under an id used one at a time so far can be followed by a wait on that id that
      returns another job's acknowledgement exactly when it is accepted while an earlier job
      under the id has no stored result or a wait on the id is in progress. */
  lemma SharedIdsMixIff(states: seq<System>, steps: seq<Step>, n: nat, job: Job, id: RequestId)
    requires Run(states, steps) && n <= |steps| && OneAtATime(states, steps, n, id)
    requires !states[n].sh.closed && job.requestId == Some(id)
    ensures MayMix(Next(states[n], Submit(job)), id) <==> Outstanding(states[n], id)
  {
    var s := states[n];
    RunInv(states, steps, n);
    RunKeepsId(states, steps, n, id);
    if Outstanding(s, id) {
      if k :| 0 <= k < |s.accepted| && s.accepted[k].requestId == Some(id) && !StoredBy(s, k) {
        UnfinishedMixes(s, job, id, k);
      } else {
        var w :| w in s.waiters && s.waiters[w].id == id;
        WaitingMixes(s, job, id, w);
      }
    } else {
      StepKeepsId(s, Submit(job), id);
      StepKeepsInv(s, Submit(job));
      forall ps, more | MixingPath(Next(s, Submit(job)), id, ps, more) ensures false {
        PathKeepsId(ps, more, |more|, id);
        IdInvIsNotMixed(ps[|more|], id);
      }
    }
  }

  /** A submitter that finds no event registered for the id, and no wait on it, is on the safe
      side; an unfinished earlier job always shows as a registered event. */
  lemma UnregisteredIsFree(states: seq<System>, steps: seq<Step>, n: nat, id: RequestId)
    requires Run(states, steps) && n <= |steps| && OneAtATime(states, steps, n, id)
    requires forall w :: w in states[n].waiters ==> states[n].waiters[w].id != id
    ensures id !in states[n].sh.events ==> !Outstanding(states[n], id)
  {
    RunInv(states, steps, n);
    RunKeepsId(states, steps, n, id);
  }

  /** An uncollected result alone is harmless: the next job's own result replaces it before any
      new wait can return. */
  lemma LeftoverResultIsHarmless(states: seq<System>, steps: seq<Step>, n: nat, job: Job, id: RequestId)
    requires Run(states, steps) && n <= |steps| && OneAtATime(states, steps, n, id)
    requires !states[n].sh.closed && job.requestId == Some(id)
    requires id in states[n].sh.results && id in states[n].sh.events
    requires forall k: nat :: Names(states[n], id, k) ==> StoredBy(states[n], k)
    requires forall w :: w in states[n].waiters ==> states[n].waiters[w].id != id
    ensures !MayMix(Next(states[n], Submit(job)), id)
  {
    assert forall k :: 0 <= k < |states[n].accepted| && states[n].accepted[k].requestId == Some(id) ==>
                         Names(states[n], id, k);
    SharedIdsMixIff(states, steps, n, job, id);
  }
}
