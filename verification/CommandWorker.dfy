/**
 The command worker as an object. Each method is one locked section, or the worker's loop
 run over a queue that has been closed, and is tied to the functions of `CommandProtocol`.
 */
module CommandWorker {
  import opened Common
  import opened CommandProtocol
  import opened CommandSafety
  import opened CommandTheorems

  /** The results after `jobs` ended with `outcomes`, the k-th with the k-th. */
  function StoreAll(results: map<RequestId, Ack>, jobs: seq<Job>, outcomes: seq<Outcome>): map<RequestId, Ack>
    requires |jobs| <= |outcomes|
  {
    if jobs == [] then results
    else
      var n := |jobs| - 1;
      var before := StoreAll(results, jobs[..n], outcomes);
      if jobs[n].requestId.Some? then before[jobs[n].requestId.value := AckOf(jobs[n], outcomes[n])] else before
  }

  /** Every id finds the acknowledgement of the last job under it. */
  lemma {:induction false} StoreAllContents(
    results: map<RequestId, Ack>, jobs: seq<Job>, outcomes: seq<Outcome>, id: RequestId)
    requires |jobs| <= |outcomes|
    ensures var after := StoreAll(results, jobs, outcomes);
            match LastOf(jobs, id)
            case Some(k) => id in after && after[id] == AckOf(jobs[k], outcomes[k])
            case None => id in after <==> id in results
    ensures LastOf(jobs, id).None? && id in results ==> StoreAll(results, jobs, outcomes)[id] == results[id]
  {
    if jobs != [] {
      StoreAllContents(results, jobs[..|jobs| - 1], outcomes, id);
    }
  }

  /** After any number of jobs, an id some of them had finds how the last of those ended. */
  lemma StoredTellsOutcome(results: map<RequestId, Ack>, jobs: seq<Job>, outcomes: seq<Outcome>, k: nat, id: RequestId)
    requires |jobs| <= |outcomes| && k < |jobs| && jobs[k].requestId == Some(id)
    requires forall n :: k < n < |jobs| ==> jobs[n].requestId != Some(id)
    ensures var after := StoreAll(results, jobs, outcomes);
            id in after && Tells(after[id], id, jobs[k], outcomes[k])
  {
    assert LastOf(jobs, id) == Some(k);
    StoreAllContents(results, jobs, outcomes, id);
    AckTells(jobs[k], outcomes[k], id);
  }

  class CommandWorker {
    var jobs: seq<Item>
    var results: map<RequestId, Ack>
    var events: map<RequestId, EventId>
    var closed: bool
    var threadStarted: bool
    var submitted: nat

    ghost function Contents(): Shared
      reads this
    {
      Shared(jobs, results, events, closed, threadStarted)
    }

    constructor ()
      ensures Contents() == INITIAL_SHARED && submitted == 0
    {
      jobs, results, events, closed, threadStarted, submitted := [], map[], map[], false, false, 0;
    }

    /** False stands for the error of a closed worker. */
    method Submit(name: string, requestId: Option<RequestId>) returns (taken: bool)
      modifies this
      ensures taken <==> !old(closed)
      ensures Contents() == if taken then Accept(old(Contents()), Job(name, requestId), old(submitted))
                            else old(Contents())
      ensures submitted == old(submitted) + if taken then 1 else 0
    {
      if closed {
        return false;
      }
      if requestId.Some? {
        events := events[requestId.value := submitted];
      }
      threadStarted := true;
      jobs := jobs + [Execute(Job(name, requestId))];
      submitted := submitted + 1;
      return true;
    }

    /** The last locked section of `wait`; None stands for its KeyError. */
    method CollectResult(id: RequestId) returns (ack: Option<Ack>)
      modifies this
      ensures Contents() == Collect(old(Contents()), id) && submitted == old(submitted)
      ensures ack == if id in old(results) then Some(old(results)[id]) else None
    {
      ack := if id in results then Some(results[id]) else None;
      events := events - {id};
      results := results - {id};
    }

    /** The locked section of `shutdown`: is there a thread to join? */
    method BeginShutdown() returns (join: bool)
      modifies this
      ensures Contents() == Close(old(Contents())) && submitted == old(submitted)
      ensures join == old(threadStarted)
    {
      var alreadyClosed := closed;
      closed := true;
      join := threadStarted;
      if join && !alreadyClosed {
        jobs := jobs + [ShutdownMark];
      }
    }

    /** The end of one loop iteration: the acknowledgement is stored under the job's id. */
    method StoreResult(job: Job, outcome: Outcome)
      modifies this`results
      ensures job.requestId.Some? ==> results == old(results)[job.requestId.value := AckOf(job, outcome)]
      ensures job.requestId.None? ==> results == old(results)
    {
      if job.requestId.Some? {
        results := results[job.requestId.value := AckOf(job, outcome)];
      }
    }

    /** `_run` on a closed queue: everything before the mark runs once, in order, and nothing
        before the mark is left. `outcomes[k]` is what the k-th function does. */
    method RunToMark(outcomes: seq<Outcome>) returns (ran: seq<Job>)
      requires exists k :: 0 <= k < |jobs| && jobs[k].ShutdownMark? && |outcomes| >= k
      modifies this`jobs, this`results
      ensures |ran| < |old(jobs)| && old(jobs)[|ran|] == ShutdownMark && jobs == old(jobs)[|ran| + 1..]
      ensures forall k :: 0 <= k < |ran| ==> old(jobs)[k] == Execute(ran[k])
      ensures |ran| <= |outcomes| && results == StoreAll(old(results), ran, outcomes)
    {
      ghost var mark :| 0 <= mark < |jobs| && jobs[mark].ShutdownMark? && |outcomes| >= mark;
      ran := [];
      while true
        invariant |ran| <= mark && jobs == old(jobs)[|ran|..]
        invariant forall k :: 0 <= k < |ran| ==> old(jobs)[k] == Execute(ran[k])
        invariant results == StoreAll(old(results), ran, outcomes)
        decreases |jobs|
      {
        var item := jobs[0];
        jobs := jobs[1..];
        match item
        case ShutdownMark =>
          return;
        case Execute(job) =>
          StoreResult(job, outcomes[|ran|]);
          assert (ran + [job])[..|ran|] == ran;
          ran := ran + [job];
      }
    }
  }
}
