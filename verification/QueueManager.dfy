/**
 The trainer's job store and queue manager as objects. Each method is the code between
 two awaits and is tied to the step functions of `TrainerQueue`; the dispatch loops are
 proved against them, with what they leave behind stated outright.
 */
module QueueManager {
  import opened Common
  import opened TrainerQueue
  import opened TrainerSafety

  // ------------------------------------------------------------- reasoning about scans

  lemma {:induction false} FirstFreeSnoc(s: Trainer, queue: seq<JobId>, id: JobId, telemetry: Telemetry)
    requires forall x :: x in queue + [id] ==> x in s.rows
    ensures FirstFree(s, queue + [id], telemetry) ==
            if FirstFree(s, queue, telemetry).Some? then FirstFree(s, queue, telemetry)
            else if Blocked(s, s.rows[id].request, telemetry) then None else Some(id)
  {
    if queue == [] {
      assert queue + [id] == [id];
      assert [id][1..] == [];
    } else {
      assert (queue + [id])[1..] == queue[1..] + [id];
      FirstFreeSnoc(s, queue[1..], id, telemetry);
    }
  }

  /** `n` iterations of the inner dispatch loop, the k-th scan seeing `telemetry(k)`. */
  function Dispatches(s: Trainer, telemetry: nat -> Telemetry, n: nat): Trainer {
    if n == 0 then s else Dispatch(Dispatches(s, telemetry, n - 1), telemetry(n - 1))
  }

  lemma DispatchKeepsInv(s: Trainer, telemetry: Telemetry)
    requires Inv(s) && !s.stopped && |s.active| < s.limit
    ensures Inv(Dispatch(s, telemetry))
  {
    StepKeepsInv(s, DoDispatch(telemetry));
  }

  lemma StartFillsSlot(s: Trainer, id: JobId)
    requires id in s.rows && id !in s.active
    ensures |Start(s, id).active| == |s.active| + 1
  {
    assert Start(s, id).active.Keys == s.active.Keys + {id};
    assert |s.active.Keys + {id}| == |s.active.Keys| + 1;
  }

  /** A scan that finds a job fills exactly one more slot. */
  lemma DispatchFillsSlot(s: Trainer, telemetry: Telemetry)
    requires ActiveInv(s) && FirstFree(s, QueuedIds(s), telemetry).Some?
    ensures |Dispatch(s, telemetry).active| == |s.active| + 1
  {
    var id := FirstFree(s, QueuedIds(s), telemetry).value;
    assert s.rows[id].status.Queued?;
    StartFillsSlot(Scan(s, telemetry), id);
  }

  /** The waiting reason shown for a request is the true one. */
  ghost predicate TrueReason(s: Trainer, request: Request, telemetry: Telemetry, message: Message) {
    match message
    case WaitingForDevice(device) =>
      DeviceOf(request) == Some(device) && (Reserved(s, Some(device)) || device in telemetry.busy)
    case WaitingForSlot => DeviceOf(request).None? && Reserved(s, None)
    case WaitingForGpu => DeviceOf(request).None? && !Reserved(s, None) && telemetry.anyBusy
    case _ => false
  }

  /** A scan that finds nothing leaves every queued job blocked, and its message says why. */
  lemma EmptyScanMeansBlocked(s: Trainer, telemetry: Telemetry, id: JobId)
    requires Inv(s) && FirstFree(s, QueuedIds(s), telemetry).None?
    ensures var t := Dispatch(s, telemetry);
            id in t.rows && t.rows[id].status.Queued? ==>
              && Blocked(t, t.rows[id].request, telemetry)
              && TrueReason(t, t.rows[id].request, telemetry, t.rows[id].message)
  {
    FirstFreeIsEarliest(s, QueuedIds(s), telemetry);
    var t := Dispatch(s, telemetry);
    if id in t.rows && t.rows[id].status.Queued? {
      PendingContents(s.rows, s.order, id);
      ScanKeepsBlocked(s, telemetry, s.rows[id].request, telemetry);
    }
  }

  /** Either the scan started a job, or every queued job is blocked and no slot was taken. */
  lemma DispatchOutcome(s: Trainer, telemetry: Telemetry)
    requires Inv(s) && !s.stopped && |s.active| < s.limit
    ensures var t := Dispatch(s, telemetry);
            && Inv(t) && !t.stopped && t.limit == s.limit
            && if FirstFree(s, QueuedIds(s), telemetry).Some? then |t.active| == |s.active| + 1
               else |t.active| == |s.active| && AllBlocked(t, telemetry)
  {
    var t := Dispatch(s, telemetry);
    DispatchKeepsInv(s, telemetry);
    if FirstFree(s, QueuedIds(s), telemetry).Some? {
      DispatchFillsSlot(s, telemetry);
    } else {
      forall id | id in t.rows && t.rows[id].status.Queued? ensures Blocked(t, t.rows[id].request, telemetry) {
        EmptyScanMeansBlocked(s, telemetry, id);
      }
    }
  }

  ghost predicate AllBlocked(s: Trainer, telemetry: Telemetry) {
    forall id :: id in s.rows && s.rows[id].status.Queued? ==> Blocked(s, s.rows[id].request, telemetry)
  }

  /** The rows once the jobs in `done` have been relabelled. */
  ghost function Relabelled(s: Trainer, done: seq<JobId>, telemetry: Telemetry): map<JobId, Row> {
    map id | id in s.rows ::
      if id in done then s.rows[id].(message := WaitMessage(s, s.rows[id].request, telemetry)) else s.rows[id]
  }

  lemma RelabelledSnoc(s: Trainer, done: seq<JobId>, id: JobId, telemetry: Telemetry)
    requires id in s.rows
    ensures Relabelled(s, done + [id], telemetry) ==
            Relabelled(s, done, telemetry)[
              id := s.rows[id].(message := WaitMessage(s, s.rows[id].request, telemetry))]
  {
  }

  lemma RelabelledAll(s: Trainer, telemetry: Telemetry)
    requires OrderInv(s)
    ensures Relabelled(s, QueuedIds(s), telemetry) == Scan(s, telemetry).rows
  {
    forall id | id in s.rows ensures id in QueuedIds(s) <==> s.rows[id].status.Queued? {
      PendingContents(s.rows, s.order, id);
    }
  }

  /** One more queued job has been considered. */
  lemma ConsiderSnoc(s: Trainer, queue: seq<JobId>, i: nat, telemetry: Telemetry)
    requires i < |queue| && forall x :: x in queue ==> x in s.rows
    ensures var id := queue[i];
            Relabelled(s, queue[..i + 1], telemetry) ==
            Relabelled(s, queue[..i], telemetry)[
              id := s.rows[id].(message := WaitMessage(s, s.rows[id].request, telemetry))]
    ensures FirstFree(s, queue[..i + 1], telemetry) ==
            if FirstFree(s, queue[..i], telemetry).Some? then FirstFree(s, queue[..i], telemetry)
            else if Blocked(s, s.rows[queue[i]].request, telemetry) then None else Some(queue[i])
  {
    assert queue[..i + 1] == queue[..i] + [queue[i]];
    RelabelledSnoc(s, queue[..i], queue[i], telemetry);
    FirstFreeSnoc(s, queue[..i], queue[i], telemetry);
  }

  ghost function WithDevice(s: Trainer, pick: Option<JobId>): Option<(JobId, Option<Device>)>
    requires pick.Some? ==> pick.value in s.rows
  {
    if pick.None? then None else Some((pick.value, DeviceOf(s.rows[pick.value].request)))
  }

  // ------------------------------------------------------------------------- the store

  class JobStore {
    var rows: map<JobId, Row>
    var order: seq<JobId>
    var nextRowid: nat
    var secrets: set<JobId>
    ghost var issued: set<JobId>

    constructor ()
      ensures rows == map[] && order == [] && nextRowid == 0 && secrets == {} && issued == {}
    {
      rows, order, nextRowid, secrets, issued := map[], [], 0, {}, {};
    }

    /** `create` and `stash_secret`, which `submit_job` runs without an await between. */
    method Create(id: JobId, request: Request, token: bool, now: real)
      modifies this
      ensures rows == old(rows)[id := Row(Awaiting, 0, AwaitingUpload, request, None, now, old(nextRowid))]
      ensures order == InsertByTime(old(order), old(rows), id, now)
      ensures nextRowid == old(nextRowid) + 1 && issued == old(issued) + {id}
      ensures secrets == if token then old(secrets) + {id} else old(secrets)
    {
      var before := order;
      var after := [];
      while before != [] && before[|before| - 1] in rows && now < rows[before[|before| - 1]].createdAt
        invariant InsertByTime(order, rows, id, now) == InsertByTime(before, rows, id, now) + after
        decreases |before|
      {
        after := [before[|before| - 1]] + after;
        before := before[..|before| - 1];
      }
      order := before + [id] + after;
      rows := rows[id := Row(Awaiting, 0, AwaitingUpload, request, None, now, nextRowid)];
      nextRowid := nextRowid + 1;
      issued := issued + {id};
      if token {
        secrets := secrets + {id};
      }
    }

    method Queued() returns (ids: seq<JobId>)
      ensures ids == Pending(rows, order)
    {
      ids := [];
      var i := 0;
      while i < |order|
        invariant 0 <= i <= |order|
        invariant ids == Pending(rows, order[..i])
      {
        assert order[..i + 1][..i] == order[..i];
        if order[i] in rows && rows[order[i]].status.Queued? {
          ids := ids + [order[i]];
        }
        i := i + 1;
      }
      assert order[..i] == order;
    }

    method MarkDatasetReady(id: JobId)
      modifies this`rows
      ensures rows == if id in old(rows) && old(rows)[id].status.Awaiting?
                      then SetStatus(old(rows), id, Status.Queued, InQueue) else old(rows)
    {
      if id in rows && rows[id].status.Awaiting? {
        rows := rows[id := rows[id].(status := Status.Queued, message := InQueue)];
      }
    }

    /** `update` with the columns that are not `None`. */
    method Update(id: JobId, status: Option<Status>, progress: Option<int>, message: Option<Message>,
                  artifact: Option<string>)
      modifies this`rows
      ensures id !in old(rows) ==> rows == old(rows)
      ensures id in old(rows) ==>
                var was := old(rows)[id];
                rows == old(rows)[id := was.(
                  status := if status.Some? then status.value else was.status,
                  progress := if progress.Some? then Clamp(progress.value) else was.progress,
                  message := if message.Some? then message.value else was.message,
                  artifact := if artifact.Some? then artifact else was.artifact)]
    {
      if id !in rows {
        return;
      }
      var row := rows[id];
      if status.Some? {
        row := row.(status := status.value);
      }
      if progress.Some? {
        row := row.(progress := Clamp(progress.value));
      }
      if message.Some? {
        row := row.(message := message.value);
      }
      if artifact.Some? {
        row := row.(artifact := artifact);
      }
      rows := rows[id := row];
    }

    method Delete(id: JobId)
      modifies this`rows, this`order, this`secrets
      ensures rows == old(rows) - {id} && order == Without(old(order), id) && secrets == old(secrets) - {id}
    {
      rows := rows - {id};
      secrets := secrets - {id};
      var kept := [];
      var i := 0;
      while i < |order|
        invariant 0 <= i <= |order|
        invariant kept == Without(order[..i], id)
      {
        assert order[..i + 1][..i] == order[..i];
        if order[i] != id {
          kept := kept + [order[i]];
        }
        i := i + 1;
      }
      assert order[..i] == order;
      order := kept;
    }

    /** One UPDATE statement of `reset_orphans`: fail every row with this status. */
    method FailWhere(status: Status, message: Message)
      modifies this`rows
      ensures rows.Keys == old(rows).Keys
      ensures forall id :: id in rows ==>
                rows[id] == if old(rows)[id].status == status then old(rows)[id].(status := Failed, message := message)
                            else old(rows)[id]
    {
      rows := map id | id in rows ::
        if rows[id].status == status then rows[id].(status := Failed, message := message) else rows[id];
    }

    /** Two updates, one after the other: exactly the RUNNING and the awaiting rows fail, each
        for its own reason, and nothing that was queued or had ended is touched. */
    method ResetOrphans()
      modifies this`rows
      ensures rows.Keys == old(rows).Keys
      ensures forall id :: id in rows ==>
                && (rows[id] != old(rows)[id] <==> old(rows)[id].status.Running? || old(rows)[id].status.Awaiting?)
                && (rows[id] != old(rows)[id] ==> rows[id].status.Failed?)
                && rows[id].request == old(rows)[id].request && !rows[id].status.Running? && !rows[id].status.Awaiting?
      ensures rows == map id | id in old(rows) :: ResetRow(old(rows)[id])
    {
      FailWhere(Running, Text("Aborted on trainer restart"));
      FailWhere(Awaiting, Text("Dataset upload never completed"));
    }
  }

  // ----------------------------------------------------------------------- the manager

  class QueueManager {
    const store: JobStore
    const maxConcurrentJobs: nat
    var cancelRequested: set<JobId>
    var active: map<JobId, Phase>
    var activeDevices: map<JobId, Option<Device>>
    var stopped: bool
    ghost var deleting: set<JobId>

    ghost function View(): Trainer
      reads this, store
    {
      Trainer(store.rows, store.order, store.nextRowid, store.issued, store.secrets, cancelRequested,
              active, activeDevices, deleting, stopped, maxConcurrentJobs)
    }

    ghost predicate Valid()
      reads this, store
    {
      Inv(View())
    }

    constructor (limit: nat)
      ensures View() == Initial(limit) && fresh(store)
    {
      store := new JobStore();
      maxConcurrentJobs := limit;
      cancelRequested, active, activeDevices, stopped, deleting := {}, map[], map[], false, {};
    }

    method RequestCancelOf(id: JobId)
      modifies this`cancelRequested, store
      ensures View() == RequestCancel(old(View()), id)
    {
      cancelRequested := cancelRequested + {id};
      if id in store.rows && store.rows[id].status in {Status.Queued, Awaiting} {
        store.Update(id, Some(Canceled), None, Some(Text("Canceled before start")), None);
        store.secrets := store.secrets - {id};
      }
    }

    /** The verdict `_next_runnable` reaches on one queued request. */
    method Classify(ghost s: Trainer, request: Request, telemetry: Telemetry)
      returns (device: Option<Device>, busy: bool, message: Message)
      requires s.active == active && s.devices == activeDevices
      ensures device == DeviceOf(request)
      ensures busy <==> Blocked(s, request, telemetry)
      ensures message == WaitMessage(s, request, telemetry)
    {
      device := DeviceOf(request);
      var reserved := (device.None? && active != map[])
                      || exists a :: a in activeDevices && (activeDevices[a].None? || activeDevices[a] == device);
      busy := reserved || (if device.Some? then device.value in telemetry.busy else telemetry.anyBusy);
      message := if busy && device.Some? then WaitingForDevice(device.value)
                 else if busy && reserved then WaitingForSlot
                 else if busy then WaitingForGpu
                 else InQueue;
    }

    /** Write the reason a queued job waits for, when it is not the one shown already. */
    method KeepReason(id: JobId, message: Message)
      requires id in store.rows && store.rows[id].status.Queued?
      modifies store`rows
      ensures store.rows == old(store.rows)[id := old(store.rows)[id].(message := message)]
    {
      var row := store.rows[id];
      if row.status.Queued? && row.message != message {
        store.Update(id, None, None, Some(message), None);
      }
    }

    /** `_next_runnable`: one pass over the queue under one telemetry reading. */
    method NextRunnable(telemetry: Telemetry) returns (next: Option<(JobId, Option<Device>)>)
      modifies store`rows
      ensures store.rows == Relabelled(old(View()), QueuedIds(old(View())), telemetry)
      ensures next == WithDevice(old(View()), FirstFree(old(View()), QueuedIds(old(View())), telemetry))
    {
      ghost var was := View();
      var queue := store.Queued();
      next := None;
      var i := 0;
      assert store.rows == Relabelled(was, queue[..0], telemetry);
      while i < |queue|
        invariant 0 <= i <= |queue|
        invariant store.rows == Relabelled(was, queue[..i], telemetry)
        invariant next == WithDevice(was, FirstFree(was, queue[..i], telemetry))
      {
        var id := queue[i];
        ConsiderSnoc(was, queue, i, telemetry);
        var device, busy, message := Classify(was, store.rows[id].request, telemetry);
        KeepReason(id, message);
        if !busy && next.None? {
          next := Some((id, device));
        }
        i := i + 1;
      }
      assert queue[..i] == queue;
    }

    /** Mark a picked job RUNNING, create its task and reserve its device. */
    method StartJob(id: JobId, device: Option<Device>)
      requires id in store.rows && device == DeviceOf(store.rows[id].request)
      modifies this`active, this`activeDevices, store`rows
      ensures View() == Start(old(View()), id)
    {
      store.Update(id, Some(Running), Some(0), Some(Starting), None);
      active := active[id := Created];
      activeDevices := activeDevices[id := device];
    }

    /** One iteration of the inner dispatch loop. */
    method DispatchOne(telemetry: Telemetry) returns (started: bool)
      requires OrderInv(View())
      modifies this`active, this`activeDevices, store`rows
      ensures View() == Dispatch(old(View()), telemetry)
      ensures started <==> FirstFree(old(View()), QueuedIds(old(View())), telemetry).Some?
    {
      ghost var was := View();
      var next := NextRunnable(telemetry);
      RelabelledAll(was, telemetry);
      started := next.Some?;
      if started {
        var (id, device) := next.value;
        assert View() == Scan(was, telemetry);
        if id in store.rows && store.rows[id].status.Queued? {
          StartJob(id, device);
        }
      }
    }

    /** The inner dispatch loop: it ends, and on exit either every slot is taken or every
        queued job is blocked by a reservation or a busy GPU of the last scan. */
    method FillSlots(telemetry: nat -> Telemetry) returns (scans: nat, full: bool)
      requires Valid() && !stopped
      modifies this`active, this`activeDevices, store`rows
      ensures Valid()
      ensures View() == Dispatches(old(View()), telemetry, scans)
      ensures full <==> maxConcurrentJobs <= |active|
      ensures scans == |active| - old(|active|) + if full then 0 else 1
      ensures !full ==> AllBlocked(View(), telemetry(scans - 1))
    {
      scans := 0;
      full := false;
      while |active| < maxConcurrentJobs
        invariant Valid() && !stopped
        invariant View() == Dispatches(old(View()), telemetry, scans)
        invariant scans == |active| - old(|active|)
        decreases maxConcurrentJobs - |active|
      {
        ghost var was := View();
        var started := DispatchOne(telemetry(scans));
        DispatchOutcome(was, telemetry(scans));
        scans := scans + 1;
        if !started {
          return;
        }
      }
      full := true;
    }

    /** `_run_job` up to its first await; `found` is false on its missing-request branch. */
    method BeginJob(id: JobId) returns (found: bool, token: bool)
      modifies this`cancelRequested, this`active, this`activeDevices, store`secrets
      ensures View() == Begin(old(View()), id)
      ensures found <==> id in old(store.rows)
      ensures token <==> found && id in old(store.secrets)
    {
      found, token := id in store.rows, false;
      if !found {
        cancelRequested := cancelRequested - {id};
        active := active - {id};
        activeDevices := activeDevices - {id};
        return;
      }
      token := id in store.secrets;
      store.secrets := store.secrets - {id};
      active := active[id := Training];
    }

    /** `_run_job` after its await. */
    method FinishJob(id: JobId, outcome: Outcome)
      modifies this`cancelRequested, this`active, this`activeDevices, store`rows
      ensures View() == Finish(old(View()), id, outcome)
    {
      match outcome {
        case Archive(path) =>
          if id in cancelRequested {
            store.Update(id, Some(Canceled), None, Some(Text("Canceled")), None);
          } else {
            store.Update(id, Some(Completed), Some(100), Some(Text("Training finished")), Some(path));
          }
        case StopSeen =>
          store.Update(id, Some(Canceled), None, Some(Text("Canceled")), None);
        case Error(text) =>
          var status := if id in cancelRequested then Canceled else Failed;
          store.Update(id, Some(status), None, Some(Text("Training failed: " + text)), None);
      }
      cancelRequested := cancelRequested - {id};
      active := active - {id};
      activeDevices := activeDevices - {id};
    }
  }
}
