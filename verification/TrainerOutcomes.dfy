/**
 The trainer's runs in terms of the requests themselves: which GPU a job uses, which queued
 job a scan starts, what a finish records, and what a restart does to the table.
 */
module TrainerOutcomes {
  import opened Common
  import opened TrainerQueue
  import opened TrainerSafety

  // ------------------------------------------------------------------------ who uses what

  /** The request asks for GPU `index` of this kind; without an index it asks for GPU 0. */
  predicate Uses(request: Request, kind: string, index: nat) {
    && (kind == "cuda" || kind == "xpu") && request.deviceType == Some(kind)
    && (request.deviceIndex == Some(index) || (request.deviceIndex.None? && index == 0))
  }

  /** The request names no GPU, so the job may take any. */
  predicate TakesAny(request: Request) {
    request.deviceType != Some("cuda") && request.deviceType != Some("xpu")
  }

  ghost predicate SameGpu(a: Request, b: Request) {
    exists kind, index :: Uses(a, kind, index) && Uses(b, kind, index)
  }

  lemma UsesIff(request: Request, kind: string, index: nat)
    ensures Uses(request, kind, index) <==> DeviceOf(request) == Some(Device(kind, index))
  {
  }

  lemma TakesAnyIff(request: Request)
    ensures TakesAny(request) <==> DeviceOf(request).None?
  {
  }

  lemma SameGpuIff(a: Request, b: Request)
    ensures SameGpu(a, b) <==> DeviceOf(a).Some? && DeviceOf(a) == DeviceOf(b)
  {
    if DeviceOf(a).Some? {
      var d := DeviceOf(a).value;
      UsesIff(a, d.kind, d.index);
      UsesIff(b, d.kind, d.index);
    }
    if SameGpu(a, b) {
      var kind, index :| Uses(a, kind, index) && Uses(b, kind, index);
      UsesIff(a, kind, index);
      UsesIff(b, kind, index);
    }
  }

  /** In every run no two active jobs use the same GPU. */
  lemma NoTwoJobsOnOneGpu(
    states: seq<Trainer>, steps: seq<Step>, limit: nat, k: nat, a: JobId, b: JobId, kind: string, index: nat)
    requires Run(states, steps, limit) && k < |states| && a in states[k].active && b in states[k].active
    ensures a in states[k].rows && b in states[k].rows
    ensures Uses(states[k].rows[a].request, kind, index) && Uses(states[k].rows[b].request, kind, index) ==> a == b
  {
    RunInv(states, steps, limit, k);
    ReservationsAreExclusive(states, steps, limit, k);
    if Uses(states[k].rows[a].request, kind, index) && Uses(states[k].rows[b].request, kind, index) {
      UsesIff(states[k].rows[a].request, kind, index);
      UsesIff(states[k].rows[b].request, kind, index);
    }
  }

  /** In every run a job that may take any GPU runs alone. */
  lemma AnyGpuRunsAlone(states: seq<Trainer>, steps: seq<Step>, limit: nat, k: nat, a: JobId, b: JobId)
    requires Run(states, steps, limit) && k < |states| && a in states[k].active && b in states[k].active
    ensures a in states[k].rows && (TakesAny(states[k].rows[a].request) ==> a == b)
  {
    RunInv(states, steps, limit, k);
    ReservationsAreExclusive(states, steps, limit, k);
  }

  // --------------------------------------------------------------- what blocks a queued job

  /** Running the two jobs together would not do: one of them may take any GPU, or both use the
      same one. */
  ghost predicate Collide(a: Request, b: Request) {
    TakesAny(a) || TakesAny(b) || SameGpu(a, b)
  }

  ghost predicate RunningCollides(s: Trainer, request: Request) {
    exists a :: a in s.rows && s.rows[a].status.Running? && Collide(request, s.rows[a].request)
  }

  /** Telemetry shows the GPU the request uses as busy, or any GPU if it may take any. */
  ghost predicate ShownBusy(telemetry: Telemetry, request: Request) {
    if TakesAny(request) then telemetry.anyBusy
    else exists kind, index :: Uses(request, kind, index) && Device(kind, index) in telemetry.busy
  }

  lemma ReservedIff(s: Trainer, request: Request)
    requires ActiveInv(s)
    ensures Reserved(s, DeviceOf(request)) <==> RunningCollides(s, request)
  {
    if Reserved(s, DeviceOf(request)) {
      if DeviceOf(request).None? && s.active != map[] {
        var a :| a in s.active;
        assert a in s.rows && Collide(request, s.rows[a].request);
      } else {
        var a :| a in s.devices && (s.devices[a].None? || s.devices[a] == DeviceOf(request));
        assert a in s.active;
        SameGpuIff(request, s.rows[a].request);
        assert Collide(request, s.rows[a].request);
      }
    }
    if RunningCollides(s, request) {
      var a :| a in s.rows && s.rows[a].status.Running? && Collide(request, s.rows[a].request);
      assert a in s.active && a in s.devices;
      SameGpuIff(request, s.rows[a].request);
    }
  }

  lemma ShownBusyIff(telemetry: Telemetry, request: Request)
    ensures GpuBusy(telemetry, DeviceOf(request)) <==> ShownBusy(telemetry, request)
  {
    if DeviceOf(request).Some? {
      var d := DeviceOf(request).value;
      UsesIff(request, d.kind, d.index);
      if ShownBusy(telemetry, request) {
        var kind, index :| Uses(request, kind, index) && Device(kind, index) in telemetry.busy;
        UsesIff(request, kind, index);
      }
    }
  }

  /** A request is blocked exactly when it collides with a running job or its GPU is shown busy;
      so a job for one GPU is never held back by a running job for another. */
  lemma BlockedIff(s: Trainer, request: Request, telemetry: Telemetry)
    requires ActiveInv(s)
    ensures Blocked(s, request, telemetry) <==> RunningCollides(s, request) || ShownBusy(telemetry, request)
  {
    ReservedIff(s, request);
    ShownBusyIff(telemetry, request);
  }

  /** Two jobs for different GPUs never collide. */
  lemma OtherGpuIsFree(a: Request, b: Request, kind: string, index: nat, other: string, otherIndex: nat)
    requires Uses(a, kind, index) && Uses(b, other, otherIndex)
    ensures Collide(a, b) <==> kind == other && index == otherIndex
  {
    UsesIff(a, kind, index);
    UsesIff(b, other, otherIndex);
    SameGpuIff(a, b);
  }

  // ------------------------------------------------------------------------------ dispatch

  ghost predicate MayStart(s: Trainer, id: JobId, telemetry: Telemetry) {
    && id in s.rows && s.rows[id].status.Queued?
    && !RunningCollides(s, s.rows[id].request) && !ShownBusy(telemetry, s.rows[id].request)
  }

  /** The job may start, and every other job that may start was created later. */
  ghost predicate IsNext(s: Trainer, id: JobId, telemetry: Telemetry) {
    && MayStart(s, id, telemetry)
    && forall x :: MayStart(s, x, telemetry) && x != id ==>
         || s.rows[id].createdAt < s.rows[x].createdAt
         || (s.rows[id].createdAt == s.rows[x].createdAt && s.rows[id].rowid < s.rows[x].rowid)
  }

  lemma MayStartIff(s: Trainer, id: JobId, telemetry: Telemetry)
    requires Inv(s)
    ensures MayStart(s, id, telemetry) <==>
            id in QueuedIds(s) && !Blocked(s, s.rows[id].request, telemetry)
  {
    PendingContents(s.rows, s.order, id);
    if id in s.rows {
      BlockedIff(s, s.rows[id].request, telemetry);
    }
  }

  lemma OneIsNext(s: Trainer, a: JobId, b: JobId, telemetry: Telemetry)
    requires IsNext(s, a, telemetry) && IsNext(s, b, telemetry)
    ensures a == b
  {
    assert MayStart(s, a, telemetry) && MayStart(s, b, telemetry);
  }

  lemma PickIsNext(s: Trainer, telemetry: Telemetry, id: JobId)
    requires Inv(s)
    ensures FirstFree(s, QueuedIds(s), telemetry) == Some(id) <==> IsNext(s, id, telemetry)
  {
    var queue := QueuedIds(s);
    var pick := FirstFree(s, queue, telemetry);
    FirstFreeIsEarliest(s, queue, telemetry);
    PendingSorted(s.rows, s.order);
    MayStartIff(s, id, telemetry);
    if pick.Some? {
      var i :| EarliestFree(s, queue, telemetry, i) && queue[i] == pick.value;
      EarliestIsNext(s, queue, telemetry, i);
      if IsNext(s, id, telemetry) {
        OneIsNext(s, id, pick.value, telemetry);
      }
    }
  }

  lemma EarliestIsNext(s: Trainer, queue: seq<JobId>, telemetry: Telemetry, i: nat)
    requires Inv(s) && queue == QueuedIds(s) && SortedIds(s.rows, queue) && EarliestFree(s, queue, telemetry, i)
    ensures IsNext(s, queue[i], telemetry)
  {
    MayStartIff(s, queue[i], telemetry);
    forall x | MayStart(s, x, telemetry) && x != queue[i] ensures Before(s.rows[queue[i]], s.rows[x]) {
      MayStartIff(s, x, telemetry);
      var h :| 0 <= h < |queue| && queue[h] == x;
      assert h > i;
    }
  }

  /** A dispatch starts exactly the earliest created queued job that may start, from progress 0,
      and gives every other queued job its true waiting reason. */
  lemma DispatchStartsNext(s: Trainer, telemetry: Telemetry, id: JobId)
    requires Inv(s) && id in s.rows
    ensures var t := Dispatch(s, telemetry);
            id in t.rows && t.rows[id] ==
              if IsNext(s, id, telemetry) then s.rows[id].(status := Running, progress := 0, message := Starting)
              else if s.rows[id].status.Queued? then s.rows[id].(message := t.rows[id].message)
              else s.rows[id]
  {
    PickIsNext(s, telemetry, id);
  }

  /** The reason shown: the GPU the job uses, or a slot if some job runs, or some busy GPU. */
  ghost predicate Explains(s: Trainer, request: Request, telemetry: Telemetry, message: Message) {
    match message
    case InQueue => !RunningCollides(s, request) && !ShownBusy(telemetry, request)
    case WaitingForDevice(device) =>
      Uses(request, device.kind, device.index) && (RunningCollides(s, request) || ShownBusy(telemetry, request))
    case WaitingForSlot => TakesAny(request) && exists a :: a in s.rows && s.rows[a].status.Running?
    case WaitingForGpu =>
      TakesAny(request) && telemetry.anyBusy && forall a :: a in s.rows ==> !s.rows[a].status.Running?
    case _ => false
  }

  lemma WaitExplains(s: Trainer, request: Request, telemetry: Telemetry)
    requires ActiveInv(s)
    ensures Explains(s, request, telemetry, WaitMessage(s, request, telemetry))
  {
    ReservedIff(s, request);
    ShownBusyIff(telemetry, request);
    if DeviceOf(request).Some? {
      UsesIff(request, DeviceOf(request).value.kind, DeviceOf(request).value.index);
    } else if RunningCollides(s, request) {
      var a :| a in s.rows && s.rows[a].status.Running? && Collide(request, s.rows[a].request);
    } else {
      assert forall a :: a in s.rows ==> Collide(request, s.rows[a].request);
    }
  }

  /** In every run, a scan leaves each job that stays queued with its true reason. */
  lemma ShownReasonIsTrue(
    states: seq<Trainer>, steps: seq<Step>, limit: nat, k: nat, telemetry: Telemetry, id: JobId)
    requires Run(states, steps, limit) && k < |steps|
    requires steps[k] == DoDispatch(telemetry) || steps[k] == DoRefresh(telemetry)
    requires id in states[k + 1].rows && states[k + 1].rows[id].status.Queued?
    ensures Explains(states[k], states[k + 1].rows[id].request, telemetry, states[k + 1].rows[id].message)
  {
    RunInv(states, steps, limit, k);
    var s, step := states[k], steps[k];
    assert Enabled(s, step) && states[k + 1] == Next(s, step);
    if step.DoDispatch? {
      DispatchRow(s, telemetry, id);
    }
    WaitExplains(s, s.rows[id].request, telemetry);
  }

  /** A row after a dispatch is the started one or the one the scan left. */
  lemma DispatchRow(s: Trainer, telemetry: Telemetry, id: JobId)
    requires id in Dispatch(s, telemetry).rows
    ensures id in s.rows
    ensures var row := Dispatch(s, telemetry).rows[id];
            if row.status.Queued? then row == s.rows[id].(message := WaitMessage(s, s.rows[id].request, telemetry))
            else row == s.rows[id] || (row.status.Running? && row.progress == 0
                 && row.request == s.rows[id].request && row.createdAt == s.rows[id].createdAt)
  {
  }

  // ------------------------------------------------------------------------ what rows keep

  /** Step `j` submits the job with the request of this row, at its creation time. */
  predicate Submits(steps: seq<Step>, j: nat, id: JobId, row: Row)
    requires j < |steps|
  {
    steps[j].DoSubmit? && steps[j].id == id && steps[j].request == row.request && steps[j].now == row.createdAt
  }

  ghost predicate SubmittedAs(steps: seq<Step>, k: nat, id: JobId, row: Row)
    requires k <= |steps|
  {
    exists j :: 0 <= j < k && Submits(steps, j, id, row)
  }

  /** What an edit of the table never does to a row. */
  predicate EditedRow(was: Row, row: Row) {
    && row.request == was.request && row.createdAt == was.createdAt
    && (was.progress <= 100 ==> row.progress <= 100)
  }

  lemma EditRow(s: Trainer, step: Step, id: JobId)
    requires Enabled(s, step) && id in s.rows
    requires step.DoReady? || step.DoCancel? || step.DoReport? || step.DoBegin?
    ensures id in Next(s, step).rows && EditedRow(s.rows[id], Next(s, step).rows[id])
  {
    match step
    case DoReady(x) =>
    case DoCancel(x) =>
    case DoReport(x, _, _) =>
    case DoBegin(x) =>
  }

  lemma RowBefore(s: Trainer, step: Step, id: JobId)
    requires Enabled(s, step) && id in Next(s, step).rows
    ensures var row := Next(s, step).rows[id];
            || (id in s.rows && s.rows[id].request == row.request && s.rows[id].createdAt == row.createdAt
                && (s.rows[id].progress <= 100 ==> row.progress <= 100))
            || (step.DoSubmit? && step.id == id && step.request == row.request && step.now == row.createdAt
                && row.progress == 0)
  {
    match step
    case DoDispatch(telemetry) => DispatchRow(s, telemetry, id);
    case DoFinish(x, outcome) => FinishKeepsRequest(s, x, outcome, id);
    case DoReady(_) => EditRow(s, step, id);
    case DoCancel(_) => EditRow(s, step, id);
    case DoReport(_, _, _) => EditRow(s, step, id);
    case DoBegin(_) => EditRow(s, step, id);
    case _ =>
  }

  lemma FinishKeepsRequest(s: Trainer, x: JobId, outcome: Outcome, id: JobId)
    requires id in s.rows || id in Finish(s, x, outcome).rows
    ensures id in s.rows && id in Finish(s, x, outcome).rows
    ensures Finish(s, x, outcome).rows[id].request == s.rows[id].request
    ensures Finish(s, x, outcome).rows[id].createdAt == s.rows[id].createdAt
    ensures s.rows[id].progress <= 100 ==> Finish(s, x, outcome).rows[id].progress <= 100
    ensures id != x ==> Finish(s, x, outcome).rows[id] == s.rows[id]
  {
    match outcome
    case Archive(_) =>
    case StopSeen =>
    case Error(_) =>
  }

  lemma RowBeforeAt(states: seq<Trainer>, steps: seq<Step>, limit: nat, k: nat, id: JobId)
    requires Run(states, steps, limit) && k < |steps| && id in states[k + 1].rows
    ensures var row := states[k + 1].rows[id];
            || (id in states[k].rows && states[k].rows[id].request == row.request
                && states[k].rows[id].createdAt == row.createdAt)
            || Submits(steps, k, id, row)
  {
    assert Enabled(states[k], steps[k]) && states[k + 1] == Next(states[k], steps[k]);
    RowBefore(states[k], steps[k], id);
  }

  /** In every run, a job's request and creation time are those it was submitted with. */
  lemma {:induction false} RequestIsKept(states: seq<Trainer>, steps: seq<Step>, limit: nat, k: nat, id: JobId)
    requires Run(states, steps, limit) && k <= |steps| && id in states[k].rows
    ensures SubmittedAs(steps, k, id, states[k].rows[id])
  {
    if k > 0 {
      var row := states[k].rows[id];
      RowBeforeAt(states, steps, limit, k - 1, id);
      if Submits(steps, k - 1, id, row) {
        assert 0 <= k - 1 < k;
      } else {
        RequestIsKept(states, steps, limit, k - 1, id);
        var j :| 0 <= j < k - 1 && Submits(steps, j, id, states[k - 1].rows[id]);
        assert 0 <= j < k && Submits(steps, j, id, row);
      }
    }
  }

  // ------------------------------------------------------------------------- how jobs end

  /** A finish records COMPLETED with the archive only for a run that produced one unflagged,
      FAILED with the error only unflagged, and CANCELED otherwise. */
  lemma FinishRecords(states: seq<Trainer>, steps: seq<Step>, limit: nat, k: nat, id: JobId, outcome: Outcome)
    requires Run(states, steps, limit) && k < |steps| && steps[k] == DoFinish(id, outcome)
    ensures id in states[k].rows && id in states[k + 1].rows
    ensures var row, flagged := states[k + 1].rows[id], id in states[k].cancelRequested;
            match outcome
            case Archive(path) =>
              if flagged then row.status.Canceled? && row.artifact == states[k].rows[id].artifact
              else row.status.Completed? && row.artifact == Some(path) && row.progress == 100
            case StopSeen => row.status.Canceled?
            case Error(text) =>
              && row.status == (if flagged then Canceled else Failed)
              && row.message == Text("Training failed: " + text)
    ensures id !in states[k + 1].active && id !in states[k + 1].devices && id !in states[k + 1].cancelRequested
    ensures forall x :: x in states[k].rows && x != id ==> x in states[k + 1].rows && states[k + 1].rows[x] == states[k].rows[x]
  {
    RunInv(states, steps, limit, k);
    var s := states[k];
    assert Enabled(s, steps[k]) && states[k + 1] == Finish(s, id, outcome);
    forall x | x in s.rows && x != id ensures x in states[k + 1].rows && states[k + 1].rows[x] == s.rows[x] {
      FinishKeepsRequest(s, id, outcome, x);
    }
    FinishKeepsRequest(s, id, outcome, id);
    match outcome
    case Archive(_) =>
    case StopSeen =>
    case Error(_) =>
  }

  /** This step asks a running job to stop. */
  predicate AsksToStop(step: Step, id: JobId) {
    step == DoCancel(id) || step.DoStopCancels?
  }

  predicate EndsTask(step: Step, id: JobId) {
    step.DoRestart? || (step.DoFinish? && step.id == id)
  }

  /** A job stays active until its task ends, and is flagged exactly by a request to stop. */
  lemma ActiveStays(s: Trainer, step: Step, id: JobId)
    requires ActiveInv(s) && Enabled(s, step) && id in s.active && !EndsTask(step, id)
    ensures id in Next(s, step).active
    ensures id in Next(s, step).cancelRequested <==> id in s.cancelRequested || AsksToStop(step, id)
  {
    match step
    case DoDispatch(telemetry) => DispatchKeepsActive(s, telemetry, id);
    case DoFinish(x, outcome) => assert x != id;
    case DoBegin(x) => assert x in s.rows;
    case DoCancel(_) =>
    case DoReady(_) =>
    case DoReport(_, _, _) =>
    case _ =>
  }

  lemma DispatchKeepsActive(s: Trainer, telemetry: Telemetry, id: JobId)
    requires id in s.active
    ensures id in Dispatch(s, telemetry).active
    ensures Dispatch(s, telemetry).cancelRequested == s.cancelRequested
  {
  }

  predicate AsksAt(steps: seq<Step>, n: nat, id: JobId)
    requires n < |steps|
  {
    AsksToStop(steps[n], id)
  }

  /** Somebody asks the job to stop after step `j` and before step `k`. */
  ghost predicate Asked(steps: seq<Step>, j: nat, k: nat, id: JobId)
    requires k <= |steps|
  {
    exists n :: j < n < k && AsksAt(steps, n, id)
  }

  lemma AskedGrows(steps: seq<Step>, j: nat, k: nat, id: JobId)
    requires j < k < |steps|
    ensures Asked(steps, j, k + 1, id) <==> Asked(steps, j, k, id) || AsksAt(steps, k, id)
  {
    if Asked(steps, j, k, id) {
      var n :| j < n < k && AsksAt(steps, n, id);
      assert j < n < k + 1;
    }
  }

  lemma FlaggedNext(states: seq<Trainer>, steps: seq<Step>, limit: nat, k: nat, id: JobId)
    requires Run(states, steps, limit) && k < |steps| && id in states[k].active && !EndsTask(steps[k], id)
    ensures id in states[k + 1].active
    ensures id in states[k + 1].cancelRequested <==> id in states[k].cancelRequested || AsksAt(steps, k, id)
  {
    RunInv(states, steps, limit, k);
    assert Enabled(states[k], steps[k]) && states[k + 1] == Next(states[k], steps[k]);
    ActiveStays(states[k], steps[k], id);
  }

  lemma {:induction false} FlaggedIff(
    states: seq<Trainer>, steps: seq<Step>, limit: nat, j: nat, k: nat, id: JobId)
    requires Run(states, steps, limit) && j < k <= |steps|
    requires id in states[j + 1].active && id !in states[j + 1].cancelRequested
    requires forall n :: j < n < k ==> !EndsTask(steps[n], id)
    ensures id in states[k].active && (id in states[k].cancelRequested <==> Asked(steps, j, k, id))
    decreases k
  {
    if j + 1 < k {
      FlaggedIff(states, steps, limit, j, k - 1, id);
      FlaggedNext(states, steps, limit, k - 1, id);
      AskedGrows(steps, j, k - 1, id);
    }
  }

  /** In every run: a job started at step `j` whose training returns at step `k` is COMPLETED
      exactly when it produced an archive and nobody asked it to stop in between. */
  lemma CompletesIff(
    states: seq<Trainer>, steps: seq<Step>, limit: nat, j: nat, k: nat, id: JobId, outcome: Outcome)
    requires Run(states, steps, limit) && j < k < |steps|
    requires id !in states[j].active && id in states[j + 1].active
    requires steps[k] == DoFinish(id, outcome) && forall n :: j < n < k ==> !EndsTask(steps[n], id)
    ensures id in states[k + 1].rows
    ensures states[k + 1].rows[id].status ==
            if outcome.StopSeen? || Asked(steps, j, k, id) then Canceled
            else if outcome.Archive? then Completed else Failed
  {
    StartIsUnflagged(states, steps, limit, j, id);
    FlaggedIff(states, steps, limit, j, k, id);
    FinishRecords(states, steps, limit, k, id, outcome);
  }

  lemma StartIsUnflagged(states: seq<Trainer>, steps: seq<Step>, limit: nat, j: nat, id: JobId)
    requires Run(states, steps, limit) && j < |steps| && id !in states[j].active && id in states[j + 1].active
    ensures steps[j].DoDispatch? && id !in states[j + 1].cancelRequested
  {
    RunInv(states, steps, limit, j);
    var s, step := states[j], steps[j];
    assert Enabled(s, step) && states[j + 1] == Next(s, step);
    if step.DoDispatch? {
      DispatchKeepsIds(s, step.telemetry);
      PickIsQueued(s, step.telemetry);
    } else {
      OthersActivateNone(s, step, id);
    }
  }

  lemma OthersActivateNone(s: Trainer, step: Step, id: JobId)
    requires Inv(s) && Enabled(s, step) && !step.DoDispatch? && id !in s.active
    ensures id !in Next(s, step).active
  {
    match step
    case DoBegin(x) =>
    case DoReady(_) =>
    case DoCancel(_) =>
    case DoReport(_, _, _) =>
    case DoFinish(_, _) =>
    case _ =>
  }

  // --------------------------------------------------------------------- the life of a job

  /** How each step moves the status of a job that it leaves in the table. */
  ghost predicate Moves(s: Trainer, step: Step, id: JobId, now: Status)
    requires id in s.rows
  {
    match s.rows[id].status
    case Awaiting =>
      now == (if step == DoReady(id) then Queued else if step == DoCancel(id) then Canceled
              else if step.DoRestart? then Failed else Awaiting)
    case Queued =>
      now == (if step == DoCancel(id) then Canceled
              else if step.DoDispatch? && IsNext(s, id, step.telemetry) then Running else Queued)
    case Running =>
      if step.DoFinish? && step.id == id then Terminal(now)
      else now == if step.DoRestart? then Failed else Running
    case _ => now == s.rows[id].status
  }

  lemma EditMoves(s: Trainer, step: Step, id: JobId)
    requires Enabled(s, step) && id in s.rows
    requires step.DoReady? || step.DoCancel? || step.DoReport? || step.DoBegin?
    ensures id in Next(s, step).rows && Moves(s, step, id, Next(s, step).rows[id].status)
  {
    match step
    case DoReady(x) =>
    case DoCancel(x) =>
    case DoReport(x, _, _) =>
    case DoBegin(x) =>
  }

  lemma FinishMoves(s: Trainer, x: JobId, outcome: Outcome, id: JobId)
    requires ActiveInv(s) && Enabled(s, DoFinish(x, outcome)) && id in s.rows
    ensures id in Finish(s, x, outcome).rows && Moves(s, DoFinish(x, outcome), id, Finish(s, x, outcome).rows[id].status)
  {
    assert x in s.rows && s.rows[x].status.Running?;
    FinishKeepsRequest(s, x, outcome, id);
    var row := FinishIsRelease(s, x, outcome);
  }

  lemma StepMoves(s: Trainer, step: Step, id: JobId)
    requires Inv(s) && Enabled(s, step) && id in s.rows
    ensures if id in Next(s, step).rows then Moves(s, step, id, Next(s, step).rows[id].status)
            else step == DoDelete(id) && Terminal(s.rows[id].status)
  {
    match step
    case DoDispatch(telemetry) => DispatchStartsNext(s, telemetry, id);
    case DoFinish(x, outcome) => FinishMoves(s, x, outcome, id);
    case DoSubmit(_, _, _, _) => OtherMoves(s, step, id);
    case DoRefresh(_) => OtherMoves(s, step, id);
    case DoDelete(_) => OtherMoves(s, step, id);
    case DoRestart => OtherMoves(s, step, id);
    case DoDeleteCheck(_) =>
    case DoStop =>
    case DoStopCancels =>
    case _ => EditMoves(s, step, id);
  }

  lemma OtherMoves(s: Trainer, step: Step, id: JobId)
    requires RowInv(s) && Enabled(s, step) && id in s.rows
    requires step.DoSubmit? || step.DoRefresh? || step.DoDelete? || step.DoRestart?
    ensures if id in Next(s, step).rows then Moves(s, step, id, Next(s, step).rows[id].status)
            else step == DoDelete(id) && Terminal(s.rows[id].status)
  {
  }

  /** In every run, a job moves from awaiting to queued when its dataset is ready, from queued to
      running when it is next, from running to its end when its training returns or the process
      restarts, to canceled from a cancel while it waits, and is deleted only once it has ended. */
  lemma JobLife(states: seq<Trainer>, steps: seq<Step>, limit: nat, k: nat, id: JobId)
    requires Run(states, steps, limit) && k < |steps| && id in states[k].rows
    ensures if id in states[k + 1].rows then Moves(states[k], steps[k], id, states[k + 1].rows[id].status)
            else steps[k] == DoDelete(id) && Terminal(states[k].rows[id].status)
  {
    RunInv(states, steps, limit, k);
    assert Enabled(states[k], steps[k]) && states[k + 1] == Next(states[k], steps[k]);
    StepMoves(states[k], steps[k], id);
  }

  // ------------------------------------------------------------------------------- tokens

  /** The job has not been handed to its training yet. */
  predicate Waits(s: Trainer, id: JobId) {
    && id in s.rows
    && (s.rows[id].status.Awaiting? || s.rows[id].status.Queued? || (id in s.active && s.active[id].Created?))
  }

  /** While it waits, the job's token is cached exactly if `has`. */
  predicate TokenIs(s: Trainer, id: JobId, has: bool) {
    id in s.issued && (Waits(s, id) ==> (id in s.secrets <==> has))
  }

  lemma PresentBefore(s: Trainer, step: Step, id: JobId)
    requires Enabled(s, step) && id in s.issued && id in Next(s, step).rows
    ensures id in s.rows
  {
    if id !in s.rows {
      StepKeepsAbsent(s, step, id);
      assert false;
    }
  }

  /** A job that has not started had not started before. */
  lemma UnstartedBefore(s: Trainer, step: Step, id: JobId, now: Status)
    requires id in s.rows && Moves(s, step, id, now) && (now.Awaiting? || now.Queued?)
    ensures s.rows[id].status.Awaiting? || s.rows[id].status.Queued?
  {
  }

  lemma RunningBefore(s: Trainer, step: Step, id: JobId, now: Status)
    requires id in s.rows && Moves(s, step, id, now) && now.Running?
    ensures s.rows[id].status.Queued? || (s.rows[id].status.Running? && !(step.DoFinish? && step.id == id))
  {
  }

  lemma WaitedBefore(s: Trainer, step: Step, id: JobId)
    requires Inv(s) && Enabled(s, step) && Inv(Next(s, step)) && id in s.issued && Waits(Next(s, step), id)
    ensures Waits(s, id)
  {
    PresentBefore(s, step, id);
    StepMoves(s, step, id);
    var now := Next(s, step).rows[id].status;
    if now.Awaiting? || now.Queued? {
      UnstartedBefore(s, step, id, now);
    } else {
      assert now.Running?;
      RunningBefore(s, step, id, now);
      if s.rows[id].status.Running? {
        CreatedBefore(s, step, id);
      }
    }
  }

  lemma CreatedBefore(s: Trainer, step: Step, id: JobId)
    requires ActiveInv(s) && Enabled(s, step) && id in s.rows && s.rows[id].status.Running?
    requires id in Next(s, step).active && Next(s, step).active[id].Created?
    requires !(step.DoFinish? && step.id == id)
    ensures id in s.active && s.active[id].Created?
  {
    assert id in s.active;
    match step
    case DoDispatch(telemetry) => DispatchKeepsPhase(s, telemetry, id);
    case DoFinish(x, outcome) => FinishKeepsPhase(s, x, outcome, id);
    case DoBegin(x) =>
    case DoSubmit(_, _, _, _) =>
    case DoDelete(_) =>
    case DoRestart =>
    case _ => EditKeepsFields(s, step);
  }

  lemma FinishKeepsPhase(s: Trainer, x: JobId, outcome: Outcome, id: JobId)
    requires x != id
    ensures id in Finish(s, x, outcome).active <==> id in s.active
    ensures id in s.active ==> Finish(s, x, outcome).active[id] == s.active[id]
  {
  }

  lemma DispatchKeepsPhase(s: Trainer, telemetry: Telemetry, id: JobId)
    requires id in s.active && id in s.rows && s.rows[id].status.Running?
    ensures Dispatch(s, telemetry).active.Keys >= s.active.Keys
    ensures Dispatch(s, telemetry).active[id] == s.active[id]
    ensures Dispatch(s, telemetry).secrets == s.secrets
  {
  }

  lemma TokenStays(s: Trainer, step: Step, id: JobId)
    requires ActiveInv(s) && Enabled(s, step) && Waits(s, id) && Waits(Next(s, step), id) && !step.DoRestart?
    requires step.DoSubmit? ==> step.id != id
    ensures id in Next(s, step).secrets <==> id in s.secrets
  {
    match step
    case DoBegin(x) => BeginTakesOwn(s, x, id);
    case DoCancel(x) => CancelDropsOwn(s, x, id);
    case DoDelete(x) => assert x != id;
    case _ => OthersKeepTokens(s, step, id);
  }

  lemma BeginTakesOwn(s: Trainer, x: JobId, id: JobId)
    requires ActiveInv(s) && x in s.active && id in s.rows && Waits(Begin(s, x), id)
    ensures id in Begin(s, x).secrets <==> id in s.secrets
  {
    assert x in s.rows && s.rows[x].status.Running?;
  }

  lemma CancelDropsOwn(s: Trainer, x: JobId, id: JobId)
    requires ActiveInv(s) && id in s.rows && Waits(RequestCancel(s, x), id)
    ensures id in RequestCancel(s, x).secrets <==> id in s.secrets
  {
    assert id in s.active ==> s.rows[id].status.Running?;
  }

  lemma OthersKeepTokens(s: Trainer, step: Step, id: JobId)
    requires Enabled(s, step) && !step.DoRestart? && !step.DoBegin? && !step.DoCancel? && !step.DoDelete?
    requires step.DoSubmit? ==> step.id != id
    ensures id in Next(s, step).secrets <==> id in s.secrets
  {
    match step
    case DoDispatch(_) =>
    case DoReady(_) =>
    case DoReport(_, _, _) =>
    case DoFinish(_, _) =>
    case _ =>
  }

  lemma TokenNext(states: seq<Trainer>, steps: seq<Step>, limit: nat, n: nat, id: JobId, has: bool)
    requires Run(states, steps, limit) && n < |steps| && TokenIs(states[n], id, has)
    ensures TokenIs(states[n + 1], id, has && !steps[n].DoRestart?)
  {
    RunInv(states, steps, limit, n);
    var s, step, t := states[n], steps[n], states[n + 1];
    assert Enabled(s, step) && t == Next(s, step);
    IssuedGrows(s, step);
    RunInv(states, steps, limit, n + 1);
    if Waits(t, id) {
      WaitedBefore(s, step, id);
      if !step.DoRestart? {
        TokenStays(s, step, id);
      }
    }
  }

  lemma IssuedGrows(s: Trainer, step: Step)
    requires Enabled(s, step)
    ensures s.issued <= Next(s, step).issued
  {
    match step
    case DoDispatch(_) =>
    case DoCancel(_) =>
    case DoReady(_) =>
    case DoReport(_, _, _) =>
    case _ =>
  }

  lemma SubmittedToken(states: seq<Trainer>, steps: seq<Step>, limit: nat, i: nat, id: JobId)
    requires Run(states, steps, limit) && i < |steps| && steps[i].DoSubmit? && steps[i].id == id
    ensures TokenIs(states[i + 1], id, steps[i].token)
  {
    RunInv(states, steps, limit, i);
    assert Enabled(states[i], steps[i]) && states[i + 1] == Next(states[i], steps[i]);
  }

  lemma {:induction false} TokenUntil(
    states: seq<Trainer>, steps: seq<Step>, limit: nat, i: nat, k: nat, id: JobId, has: bool)
    requires Run(states, steps, limit) && i <= k <= |steps| && TokenIs(states[i], id, has)
    ensures TokenIs(states[k], id, has && !RestartBetween(steps, i, k))
    decreases k
  {
    if i < k {
      TokenUntil(states, steps, limit, i, k - 1, id, has);
      TokenNext(states, steps, limit, k - 1, id, has && !RestartBetween(steps, i, k - 1));
      RestartGrows(steps, i, k);
    }
  }

  /** In every run, the task of a job finds a token exactly when the job was submitted with one and
      the process has not restarted since, and takes it from the cache. */
  lemma TokenIsHandedOver(states: seq<Trainer>, steps: seq<Step>, limit: nat, i: nat, k: nat, id: JobId)
    requires Run(states, steps, limit) && i < k < |steps|
    requires steps[i].DoSubmit? && steps[i].id == id && steps[k] == DoBegin(id)
    ensures id in states[k].secrets <==> steps[i].token && !RestartBetween(steps, i + 1, k)
    ensures id !in states[k + 1].secrets
  {
    SubmittedToken(states, steps, limit, i, id);
    TokenUntil(states, steps, limit, i + 1, k, id, steps[i].token);
    RunInv(states, steps, limit, k);
    RequestIsNeverMissing(states, steps, limit, k);
    assert Enabled(states[k], steps[k]) && states[k + 1] == Begin(states[k], id);
  }

  // ------------------------------------------------------------- cancels, reports, restarts

  /** A cancel ends a waiting job at once and forgets its token, flags a running one, and leaves
      an ended one as it is. */
  lemma CancelActs(s: Trainer, id: JobId)
    requires id in s.rows
    ensures var t := RequestCancel(s, id);
            && t.rows.Keys == s.rows.Keys && (forall x :: x in s.rows && x != id ==> t.rows[x] == s.rows[x])
            && match s.rows[id].status
               case Awaiting => t.rows[id].status.Canceled? && id !in t.secrets
               case Queued => t.rows[id].status.Canceled? && id !in t.secrets
               case Running => t.rows[id] == s.rows[id] && id in t.cancelRequested
               case _ => t.rows[id] == s.rows[id]
  {
  }

  predicate Bounded(states: seq<Trainer>, k: nat)
    requires k < |states|
  {
    forall id :: id in states[k].rows ==> states[k].rows[id].progress <= 100
  }

  /** In every run, progress is at most 100. */
  lemma {:induction false} ProgressIsBounded(states: seq<Trainer>, steps: seq<Step>, limit: nat, k: nat)
    requires Run(states, steps, limit) && k <= |steps|
    ensures Bounded(states, k)
  {
    if k > 0 {
      ProgressIsBounded(states, steps, limit, k - 1);
      var s, step := states[k - 1], steps[k - 1];
      assert Enabled(s, step) && states[k] == Next(s, step);
      forall id | id in states[k].rows ensures states[k].rows[id].progress <= 100 {
        RowBefore(s, step, id);
      }
    }
  }

  /** A report within 0 and 100 is recorded as it is, and one outside at the nearer bound. */
  lemma ReportIsRecorded(s: Trainer, id: JobId, progress: int, text: string)
    requires id in s.rows
    ensures var row := Report(s, id, progress, text).rows[id];
            && row.message == Text(text) && row.status == s.rows[id].status
            && (0 <= progress <= 100 ==> row.progress == progress)
            && (progress < 0 ==> row.progress == 0) && (progress > 100 ==> row.progress == 100)
  {
  }

  /** Over runs: after a restart nothing runs or waits for its dataset; exactly the jobs that did
      are FAILED, and queued and ended jobs are as they were. */
  lemma RestartFailsInterrupted(states: seq<Trainer>, steps: seq<Step>, limit: nat, k: nat, id: JobId)
    requires Run(states, steps, limit) && k < |steps| && steps[k].DoRestart? && id in states[k].rows
    ensures states[k + 1].active == map[] && states[k + 1].order == states[k].order && id in states[k + 1].rows
    ensures var was, row := states[k].rows[id], states[k + 1].rows[id];
            if was.status.Running? || was.status.Awaiting?
            then row.status.Failed? && row.progress == was.progress
                 && row.message == Text(if was.status.Running? then "Aborted on trainer restart"
                                        else "Dataset upload never completed")
            else row == was
  {
    assert Enabled(states[k], steps[k]) && states[k + 1] == Next(states[k], steps[k]);
  }
}
