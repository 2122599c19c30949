/**
 The scheduler and its job table as objects. Each method is a database statement or a part
 of the polling pass run without interference, and is tied to the steps of `JobScheduler`;
 the loops are also described outright.
 */
module SchedulerObject {
  import opened Common
  import opened TargetKeys
  import opened JobScheduler

  // ------------------------------------------------------------------- the scheduling loop

  /** The loop of `_schedule_jobs` over the pending jobs in submission order; a start that fails
      ends the pass. */
  function ScheduleAll(s: System, jobs: seq<JobId>, starts: JobId -> bool): (t: System)
    requires forall id :: id in jobs ==> id in s.spec
    ensures t.spec == s.spec
  {
    if jobs == [] then s
    else
      var last := jobs[|jobs| - 1];
      var before := ScheduleAll(s, jobs[..|jobs| - 1], starts);
      if !before.pc.Scheduling? || last !in before.pc.jobs then before else ScheduleOne(before, last, starts(last))
  }

  lemma {:induction false} EndedPass(s: System, jobs: seq<JobId>, starts: JobId -> bool, n: nat)
    requires n <= |jobs| && forall id :: id in jobs ==> id in s.spec
    requires !ScheduleAll(s, jobs[..n], starts).pc.Scheduling?
    ensures ScheduleAll(s, jobs, starts) == ScheduleAll(s, jobs[..n], starts)
    decreases |jobs|
  {
    if n < |jobs| {
      assert jobs[..|jobs| - 1][..n] == jobs[..n];
      EndedPass(s, jobs[..|jobs| - 1], starts, n);
    } else {
      assert jobs[..n] == jobs;
    }
  }

  /** One more job of the pass. */
  lemma ScheduleNext(s: System, jobs: seq<JobId>, starts: JobId -> bool, i: nat)
    requires i < |jobs| && forall id :: id in jobs ==> id in s.spec
    ensures var before := ScheduleAll(s, jobs[..i], starts);
            before.pc.Scheduling? && jobs[i] in before.pc.jobs ==>
              ScheduleAll(s, jobs[..i + 1], starts) == ScheduleOne(before, jobs[i], starts(jobs[i]))
  {
    assert jobs[..i + 1][..i] == jobs[..i];
  }

  lemma StillToCome(s: System, id: JobId, started: bool)
    requires s.pc.Scheduling? && id in s.pc.jobs && id in s.spec
    ensures var t := ScheduleOne(s, id, started); t.pc.Scheduling? ==> t.pc.jobs == s.pc.jobs - {id}
  {
  }

  /** Which job holds which target. */
  function Owners(procs: map<string, Proc>): map<string, JobId> {
    map key | key in procs :: procs[key].job
  }

  /** Targets handed out in order: a job gets its own when nothing handed out before blocks it. */
  function Assign(owners: map<string, JobId>, spec: map<JobId, Spec>, jobs: seq<JobId>): map<string, JobId>
    requires forall id :: id in jobs ==> id in spec
  {
    if jobs == [] then owners
    else
      var last := jobs[|jobs| - 1];
      var before := Assign(owners, spec, jobs[..|jobs| - 1]);
      if TargetIsBusy(spec[last].key, before.Keys) then before else before[spec[last].key := last]
  }

  predicate NoRepeats(jobs: seq<JobId>) {
    forall i, j :: 0 <= i < j < |jobs| ==> jobs[i] != jobs[j]
  }

  /** The scheduler is about to look at these jobs. */
  predicate AboutToSchedule(s: System, jobs: seq<JobId>) {
    && s.pc.Scheduling? && !s.stop && NoRepeats(jobs)
    && forall id :: id in jobs ==> id in s.spec && id in s.pc.jobs
  }

  lemma ScheduleOneAssigns(s: System, id: JobId)
    requires s.pc.Scheduling? && !s.stop && id in s.spec && id in s.pc.jobs
    ensures var t := ScheduleOne(s, id, true);
            && !t.stop && t.pc == Scheduling(s.pc.jobs - {id})
            && Owners(t.procs) == if TargetIsBusy(s.spec[id].key, s.procs.Keys) then Owners(s.procs)
                                  else Owners(s.procs)[s.spec[id].key := id]
  {
    StartOwns(s, s.spec[id].key, id, Scheduling(s.pc.jobs - {id}));
  }

  lemma StartOwns(s: System, key: string, id: JobId, pc: Pc)
    ensures var t := StartJob(s, key, id, true, pc);
            t.stop == s.stop && t.pc == pc && Owners(t.procs) == Owners(s.procs)[key := id]
  {
  }

  /** With every start succeeding, a pass is the in-order assignment. */
  lemma {:induction false} PassAssigns(s: System, jobs: seq<JobId>, starts: JobId -> bool)
    requires AboutToSchedule(s, jobs) && forall id :: starts(id)
    ensures var t := ScheduleAll(s, jobs, starts);
            && !t.stop && t.pc.Scheduling? && (forall id :: id in s.pc.jobs && id !in jobs ==> id in t.pc.jobs)
            && Owners(t.procs) == Assign(Owners(s.procs), s.spec, jobs)
  {
    if jobs != [] {
      var n := |jobs| - 1;
      OneFewer(s, jobs);
      PassAssigns(s, jobs[..n], starts);
      PassSnoc(s, ScheduleAll(s, jobs[..n], starts), jobs, starts);
    }
  }

  lemma OneFewer(s: System, jobs: seq<JobId>)
    requires AboutToSchedule(s, jobs) && jobs != []
    ensures AboutToSchedule(s, jobs[..|jobs| - 1])
    ensures jobs[|jobs| - 1] !in jobs[..|jobs| - 1] && jobs[|jobs| - 1] in s.pc.jobs
  {
    assert jobs[|jobs| - 1] in jobs;
    forall id | id in jobs[..|jobs| - 1] ensures id in jobs {
    }
  }

  lemma PassSnoc(s: System, before: System, jobs: seq<JobId>, starts: JobId -> bool)
    requires jobs != [] && (forall id :: id in jobs ==> id in s.spec) && starts(jobs[|jobs| - 1])
    requires before == ScheduleAll(s, jobs[..|jobs| - 1], starts)
    requires !before.stop && before.pc.Scheduling? && jobs[|jobs| - 1] in before.pc.jobs
    requires Owners(before.procs) == Assign(Owners(s.procs), s.spec, jobs[..|jobs| - 1])
    ensures var t := ScheduleAll(s, jobs, starts);
            && !t.stop && t.pc == Scheduling(before.pc.jobs - {jobs[|jobs| - 1]})
            && Owners(t.procs) == Assign(Owners(s.procs), s.spec, jobs)
  {
    assert Owners(before.procs).Keys == before.procs.Keys;
    ScheduleOneAssigns(before, jobs[|jobs| - 1]);
  }

  /** The assignment is greedy in submission order: older owners keep their targets, and the
      k-th job gets its target exactly when no older owner and no earlier job of the pass holds
      a conflicting one. */
  lemma {:induction false} AssignIsGreedy(owners: map<string, JobId>, spec: map<JobId, Spec>, jobs: seq<JobId>, k: nat)
    requires k < |jobs| && NoRepeats(jobs) && (forall id :: id in jobs ==> id in spec)
    requires forall key :: key in owners ==> owners[key] !in jobs
    ensures var key := spec[jobs[k]].key; var earlier := Assign(owners, spec, jobs[..k]);
            var all := Assign(owners, spec, jobs);
            && (forall x :: x in earlier ==> x in all && all[x] == earlier[x])
            && (forall x :: x in owners ==> x in earlier && earlier[x] == owners[x])
            && (key in all && all[key] == jobs[k] <==> !exists x :: x in earlier && Blocks(x, key))
  {
    AssignGrows(owners, spec, jobs, k);
    AssignGrows(owners, spec, jobs, k + 1);
    AssignGrows(owners, spec, jobs[..k], 0);
    var key, earlier := spec[jobs[k]].key, Assign(owners, spec, jobs[..k]);
    assert jobs[..k][..0] == [] && jobs[..k + 1][..k] == jobs[..k];
    BusyMeansBlocked(key, earlier.Keys);
    if TargetIsBusy(key, earlier.Keys) {
      OnlyAssignedOwn(owners, spec, jobs, k);
    }
  }

  lemma {:induction false} AssignGrows(owners: map<string, JobId>, spec: map<JobId, Spec>, jobs: seq<JobId>, k: nat)
    requires k <= |jobs| && forall id :: id in jobs ==> id in spec
    ensures var earlier := Assign(owners, spec, jobs[..k]); var all := Assign(owners, spec, jobs);
            forall x :: x in earlier ==> x in all && all[x] == earlier[x]
    decreases |jobs|
  {
    if k < |jobs| {
      assert jobs[..|jobs| - 1][..k] == jobs[..k];
      AssignGrows(owners, spec, jobs[..|jobs| - 1], k);
    } else {
      assert jobs[..k] == jobs;
    }
  }

  /** A job passed over holds nothing at the end. */
  lemma {:induction false} OnlyAssignedOwn(owners: map<string, JobId>, spec: map<JobId, Spec>, jobs: seq<JobId>, k: nat)
    requires k < |jobs| && NoRepeats(jobs) && (forall id :: id in jobs ==> id in spec)
    requires forall key :: key in owners ==> owners[key] !in jobs
    requires TargetIsBusy(spec[jobs[k]].key, Assign(owners, spec, jobs[..k]).Keys)
    ensures forall x :: x in Assign(owners, spec, jobs) ==> Assign(owners, spec, jobs)[x] != jobs[k]
    decreases |jobs|
  {
    var n := |jobs| - 1;
    if k < n {
      assert jobs[..n][..k] == jobs[..k];
      OnlyAssignedOwn(owners, spec, jobs[..n], k);
    } else {
      AssignOwners(owners, spec, jobs[..n]);
      var before := Assign(owners, spec, jobs[..n]);
      assert jobs[k] in jobs && jobs[k] !in jobs[..n] && Assign(owners, spec, jobs) == before;
      forall x | x in before ensures before[x] != jobs[k] {
        assert (x in owners && before[x] == owners[x]) || before[x] in jobs[..n];
      }
    }
  }

  lemma {:induction false} AssignOwners(owners: map<string, JobId>, spec: map<JobId, Spec>, jobs: seq<JobId>)
    requires forall id :: id in jobs ==> id in spec
    ensures var all := Assign(owners, spec, jobs);
            forall x :: x in all ==> (x in owners && all[x] == owners[x]) || all[x] in jobs
  {
    if jobs != [] {
      AssignOwners(owners, spec, jobs[..|jobs| - 1]);
    }
  }

  // -------------------------------------------------------------------- the recovery loop

  /** A row listed by `abort_orphan_jobs`. */
  datatype Listed = Listed(id: JobId, remoteId: Option<nat>)

  /** The updates of `abort_orphan_jobs` over the rows it listed. */
  function RecoverAll(rows: map<JobId, Row>, spec: map<JobId, Spec>, listed: seq<Listed>, excluded: set<JobId>)
    : map<JobId, Row>
    requires forall l :: l in listed ==> l.id in spec
    decreases |listed|
  {
    if listed == [] then rows
    else
      var n := |listed| - 1;
      var before := RecoverAll(rows, spec, listed[..n], excluded);
      if listed[n].id in excluded then before
      else SetStatus(before, listed[n].id,
                     if Reattachable(spec[listed[n].id], listed[n].remoteId) then Pending else JobScheduler.Failed)
  }

  /** Recovery touches exactly the listed jobs without a live worker: one that can reattach is
      queued again and keeps its remote id, any other fails. */
  lemma {:induction false} RecoveryContents(
    rows: map<JobId, Row>, spec: map<JobId, Spec>, listed: seq<Listed>, excluded: set<JobId>, id: JobId)
    requires forall l :: l in listed ==> l.id in spec
    requires forall l :: l in listed ==> l.id in rows && rows[l.id].remoteId == l.remoteId
    requires id in rows
    ensures var after := RecoverAll(rows, spec, listed, excluded);
            && after.Keys == rows.Keys && after[id].remoteId == rows[id].remoteId
            && after[id].status ==
               if (exists l :: l in listed && l.id == id) && id !in excluded then
                 if Reattachable(spec[id], rows[id].remoteId) then Pending else JobScheduler.Failed
               else rows[id].status
    decreases |listed|
  {
    if listed != [] {
      var n := |listed| - 1;
      RecoveryContents(rows, spec, listed[..n], excluded, id);
      assert listed == listed[..n] + [listed[n]];
      if l :| l in listed && l.id == id {
        assert l in listed[..n] || l == listed[n];
      }
    }
  }

  // ------------------------------------------------------------------------- the objects

  class JobTable {
    var spec: map<JobId, Spec>
    var rows: map<JobId, Row>

    constructor ()
      ensures spec == map[] && rows == map[]
    {
      spec, rows := map[], map[];
    }

    /** `update_job_status`; false stands for the missing job it raises on. */
    method UpdateStatus(id: JobId, status: Status) returns (found: bool)
      modifies this`rows
      ensures found == (id in old(rows)) && rows == SetStatus(old(rows), id, status)
    {
      found := id in rows;
      if found {
        rows := rows[id := rows[id].(status := status)];
      }
    }

    /** `transition_pending_train_job` to RUNNING or CANCELED: one conditional update. */
    method TransitionPendingTrainJob(id: JobId, cancel: bool) returns (changed: bool)
      modifies this`rows
      ensures changed <==>
              && id in old(rows) && id in spec && spec[id].training && old(rows)[id].status.Pending?
              && (cancel ==> !spec[id].remote || old(rows)[id].remoteId.None?)
      ensures rows == if changed then SetStatus(old(rows), id, if cancel then Canceled else Running) else old(rows)
    {
      if !(id in rows && id in spec && spec[id].training && rows[id].status.Pending?) {
        return false;
      }
      if cancel && spec[id].remote && rows[id].remoteId.Some? {
        return false;
      }
      rows := rows[id := rows[id].(status := if cancel then Canceled else Running)];
      return true;
    }

    /** `abort_orphan_jobs`, once the RUNNING training jobs are listed. */
    method AbortOrphanJobs(listed: seq<Listed>, excluded: set<JobId>)
      requires forall l :: l in listed ==> l.id in spec && l.id in rows
      modifies this`rows
      ensures rows == RecoverAll(old(rows), spec, listed, excluded)
    {
      for i := 0 to |listed|
        invariant rows == RecoverAll(old(rows), spec, listed[..i], excluded) && rows.Keys == old(rows).Keys
      {
        assert listed[..i + 1][..i] == listed[..i];
        var l := listed[i];
        if l.id !in excluded {
          var found := UpdateStatus(l.id, if Reattachable(spec[l.id], l.remoteId) then Pending else JobScheduler.Failed);
        }
      }
      assert listed[..|listed|] == listed;
    }
  }

  class Scheduler {
    const table: JobTable
    var processes: map<string, Proc>
    var cancelEvents: map<JobId, nat>
    var raised: set<nat>
    var nextEvent: nat
    var stop: bool
    ghost var rest: System    // what other threads and requests own

    ghost function State(): System
      reads this, table
    {
      rest.(spec := table.spec, rows := table.rows, procs := processes, events := cancelEvents, raised := raised,
            nextEvent := nextEvent, stop := stop)
    }

    constructor (table: JobTable)
      requires table.spec == map[] && table.rows == map[]
      ensures this.table == table && State() == INITIAL
    {
      this.table, rest := table, INITIAL;
      processes, cancelEvents, raised, nextEvent, stop := map[], map[], {}, 0, false;
    }

    /** `_cancel_events.setdefault(id, Event())` */
    method EventFor(id: JobId) returns (event: nat)
      modifies this`cancelEvents, this`nextEvent
      ensures event == EventOf(old(State()), id) && cancelEvents == old(cancelEvents)[id := event]
      ensures nextEvent == NextEvent(old(State()), id)
    {
      if id in cancelEvents {
        event := cancelEvents[id];
      } else {
        event := nextEvent;
        cancelEvents := cancelEvents[id := event];
        nextEvent := nextEvent + 1;
      }
    }

    /** `cancel_job`, called by interrupt request `h`. */
    method CancelJob(id: JobId, ghost h: nat)
      requires h in rest.handlers && rest.handlers[h].job == id
      modifies this
      ensures State() == Signal(old(State()), h)
    {
      var event := EventFor(id);
      raised := raised + {event};
      rest := rest.(accepted := rest.accepted + {id}, handlers := rest.handlers - {h});
    }

    /** `_start_job` for a training job; `started` says whether the process could be started,
        and true stands for the error it raises otherwise. */
    method StartTraining(target: string, id: JobId, started: bool) returns (failed: bool)
      requires rest.pc.Scheduling?
      modifies this
      ensures failed <==> !old(stop) && !started
      ensures State() == if old(stop) then old(State())
                         else JobScheduler.StartJob(old(State()), target, id, started, old(rest.pc))
    {
      if stop {
        return false;
      }
      var event := EventFor(id);
      processes := processes[target := Proc(id, true, Some(event), if started then Starting else Unstarted, false)];
      rest := rest.(pc := if started then rest.pc else Pc.Ready, recovered := started && rest.recovered);
      return !started;
    }

    /** One round of the loop of `_schedule_jobs`. */
    method ScheduleJob(id: JobId, starts: bool) returns (failed: bool)
      requires rest.pc.Scheduling? && id in rest.pc.jobs && id in table.spec
      modifies this
      ensures State() == ScheduleOne(old(State()), id, starts)
      ensures failed <==> !State().pc.Scheduling?
    {
      rest := rest.(pc := Scheduling(rest.pc.jobs - {id}));
      failed := false;
      if !TargetIsBusy(table.spec[id].key, processes.Keys) {
        failed := StartTraining(table.spec[id].key, id, starts);
      }
    }

    /** The loop of `_schedule_jobs`. */
    method ScheduleJobs(jobs: seq<JobId>, starts: JobId -> bool)
      requires AboutToSchedule(State(), jobs)
      modifies this
      ensures State() == ScheduleAll(old(State()), jobs, starts)
    {
      ghost var before := State();
      for i := 0 to |jobs|
        invariant State() == ScheduleAll(before, jobs[..i], starts)
        invariant State().pc.Scheduling? && forall k :: i <= k < |jobs| ==> jobs[k] in State().pc.jobs
      {
        ScheduleNext(before, jobs, starts, i);
        StillToCome(State(), jobs[i], starts(jobs[i]));
        var failed := ScheduleJob(jobs[i], starts(jobs[i]));
        if failed {
          EndedPass(before, jobs, starts, i + 1);
          return;
        }
      }
      assert jobs[..|jobs|] == jobs;
    }

    /** `_shutdown_processes`: every process is joined or killed and forgotten. */
    method ShutdownProcesses()
      modifies this
      ensures State() == ShutDown(old(State()))
    {
      processes, cancelEvents := map[], map[];
      rest := rest.(down := true, recovered := false);
    }
  }
}
