/**
 The remote trainer's job table and queue manager as a transition system. All status
 writes happen on one event loop, so the code between two awaits is one step; reports of
 a running job may arrive from its worker thread at any time.
 */
module TrainerQueue {
  import opened Common

  type JobId = nat

  datatype Status = Awaiting | Queued | Running | Completed | Failed | Canceled

  predicate Terminal(status: Status) {
    status.Completed? || status.Failed? || status.Canceled?
  }

  datatype Device = Device(kind: string, index: nat)

  datatype Request = Request(deviceType: Option<string>, deviceIndex: Option<nat>)

  datatype Message =
    | AwaitingUpload
    | InQueue
    | WaitingForDevice(device: Device)
    | WaitingForSlot
    | WaitingForGpu
    | Starting
    | Text(text: string)

  datatype Row = Row(
    status: Status,
    progress: nat,
    message: Message,
    request: Request,
    artifact: Option<string>,
    createdAt: real,
    rowid: nat)

  /** A job task between its creation and its first await, or awaiting its training run. */
  datatype Phase = Created | Training

  /** How the awaited training run ends. */
  datatype Outcome = Archive(path: string) | StopSeen | Error(text: string)

  /** One reading of the GPUs: the busy devices, and whether any listed device is busy. */
  datatype Telemetry = Telemetry(busy: set<Device>, anyBusy: bool)

  datatype Trainer = Trainer(
    rows: map<JobId, Row>,
    order: seq<JobId>,                     // ORDER BY created_at, rowid
    nextRowid: nat,
    issued: set<JobId>,                    // every id ever created
    secrets: set<JobId>,                   // jobs with a cached token
    cancelRequested: set<JobId>,
    active: map<JobId, Phase>,
    devices: map<JobId, Option<Device>>,
    deleting: set<JobId>,                  // DELETE requests past their status check
    stopped: bool,
    limit: nat)                            // max_concurrent_jobs

  function Initial(limit: nat): Trainer {
    Trainer(map[], [], 0, {}, {}, {}, map[], map[], {}, false, limit)
  }

  // -------------------------------------------------------------------- the job table

  /** `(device_type, device_index or 0)` for cuda and xpu, otherwise no fixed device. */
  function DeviceOf(request: Request): Option<Device> {
    if request.deviceType == Some("cuda") || request.deviceType == Some("xpu") then
      Some(Device(request.deviceType.value,
                  if request.deviceIndex.Some? then request.deviceIndex.value else 0))
    else None
  }

  predicate Before(a: Row, b: Row) {
    a.createdAt < b.createdAt || (a.createdAt == b.createdAt && a.rowid < b.rowid)
  }

  /** Place a new job after every job created no later than `now`. */
  function InsertByTime(order: seq<JobId>, rows: map<JobId, Row>, id: JobId, now: real): seq<JobId> {
    if order == [] then [id]
    else
      var last := order[|order| - 1];
      if last !in rows || rows[last].createdAt <= now then order + [id]
      else InsertByTime(order[..|order| - 1], rows, id, now) + [last]
  }

  function Without(order: seq<JobId>, id: JobId): seq<JobId> {
    if order == [] then []
    else
      var last := order[|order| - 1];
      var front := Without(order[..|order| - 1], id);
      if last == id then front else front + [last]
  }

  function Pending(rows: map<JobId, Row>, order: seq<JobId>): (ids: seq<JobId>)
    ensures forall x :: x in ids ==> x in order && x in rows && rows[x].status.Queued?
  {
    if order == [] then []
    else
      var last := order[|order| - 1];
      var front := Pending(rows, order[..|order| - 1]);
      if last in rows && rows[last].status.Queued? then front + [last] else front
  }

  /** `JobStore.queued` */
  function QueuedIds(s: Trainer): (ids: seq<JobId>)
    ensures forall x :: x in ids ==> x in s.rows && s.rows[x].status.Queued?
  {
    Pending(s.rows, s.order)
  }

  function Clamp(progress: int): nat {
    if progress < 0 then 0 else if progress > 100 then 100 else progress
  }

  // ------------------------------------------------------------------------ dispatch

  predicate Reserved(s: Trainer, device: Option<Device>) {
    || (device.None? && s.active != map[])
    || exists id :: id in s.devices && (s.devices[id].None? || s.devices[id] == device)
  }

  predicate GpuBusy(telemetry: Telemetry, device: Option<Device>) {
    if device.Some? then device.value in telemetry.busy else telemetry.anyBusy
  }

  predicate Blocked(s: Trainer, request: Request, telemetry: Telemetry) {
    Reserved(s, DeviceOf(request)) || GpuBusy(telemetry, DeviceOf(request))
  }

  function WaitMessage(s: Trainer, request: Request, telemetry: Telemetry): Message {
    var device := DeviceOf(request);
    if !Blocked(s, request, telemetry) then InQueue
    else if device.Some? then WaitingForDevice(device.value)
    else if Reserved(s, device) then WaitingForSlot
    else WaitingForGpu
  }

  /** The message writes of one `_next_runnable` scan. */
  function Scan(s: Trainer, telemetry: Telemetry): Trainer {
    s.(rows := map id | id in s.rows ::
      if s.rows[id].status.Queued?
      then s.rows[id].(message := WaitMessage(s, s.rows[id].request, telemetry))
      else s.rows[id])
  }

  function FirstFree(s: Trainer, queue: seq<JobId>, telemetry: Telemetry): (pick: Option<JobId>)
    requires forall x :: x in queue ==> x in s.rows
    ensures pick.Some? ==> pick.value in queue && pick.value in s.rows
  {
    if queue == [] then None
    else if !Blocked(s, s.rows[queue[0]].request, telemetry) then Some(queue[0])
    else FirstFree(s, queue[1..], telemetry)
  }

  /** Mark a picked job RUNNING and reserve its device. */
  function Start(s: Trainer, id: JobId): Trainer
    requires id in s.rows
  {
    s.(rows := s.rows[id := s.rows[id].(status := Running, progress := 0, message := Starting)],
    active := s.active[id := Created],
    devices := s.devices[id := DeviceOf(s.rows[id].request)])
  }

  /** One iteration of the inner dispatch loop. */
  function Dispatch(s: Trainer, telemetry: Telemetry): Trainer {
    var pick := FirstFree(s, QueuedIds(s), telemetry);
    var scanned := Scan(s, telemetry);
    if pick.Some? && pick.value in scanned.rows && scanned.rows[pick.value].status.Queued?
    then Start(scanned, pick.value) else scanned
  }

  // --------------------------------------------------------------------- other steps

  function Submit(s: Trainer, id: JobId, request: Request, token: bool, now: real): Trainer {
    s.(rows := s.rows[id := Row(Awaiting, 0, AwaitingUpload, request, None, now, s.nextRowid)],
    order := InsertByTime(s.order, s.rows, id, now),
    nextRowid := s.nextRowid + 1,
    issued := s.issued + {id},
    secrets := if token then s.secrets + {id} else s.secrets)
  }

  function SetStatus(rows: map<JobId, Row>, id: JobId, status: Status, message: Message): map<JobId, Row> {
    if id in rows then rows[id := rows[id].(status := status, message := message)] else rows
  }

  /** `mark_dataset_ready` */
  function MarkReady(s: Trainer, id: JobId): Trainer {
    if id in s.rows && s.rows[id].status.Awaiting?
    then s.(rows := SetStatus(s.rows, id, Queued, InQueue)) else s
  }

  /** `request_cancel` */
  function RequestCancel(s: Trainer, id: JobId): Trainer {
    var flagged := s.(cancelRequested := s.cancelRequested + {id});
    if id in s.rows && (s.rows[id].status.Queued? || s.rows[id].status.Awaiting?)
    then flagged.(rows := SetStatus(s.rows, id, Canceled, Text("Canceled before start")),
                  secrets := s.secrets - {id})
    else flagged
  }

  /** The `finally` of `_run_job`. */
  function Release(s: Trainer, id: JobId): Trainer {
    s.(cancelRequested := s.cancelRequested - {id}, active := s.active - {id}, devices := s.devices - {id})
  }

  /** `_run_job` up to its first await. */
  function Begin(s: Trainer, id: JobId): Trainer {
    if id !in s.rows then Release(s, id)
    else s.(secrets := s.secrets - {id}, active := s.active[id := Training])
  }

  function Report(s: Trainer, id: JobId, progress: int, text: string): Trainer {
    if id in s.rows
    then s.(rows := s.rows[id := s.rows[id].(progress := Clamp(progress), message := Text(text))])
    else s
  }

  /** `_run_job` after its await. */
  function Finish(s: Trainer, id: JobId, outcome: Outcome): Trainer {
    var flagged := id in s.cancelRequested;
    var rows :=
      match outcome
      case Archive(path) =>
        if flagged then SetStatus(s.rows, id, Canceled, Text("Canceled"))
        else if id in s.rows
        then s.rows[id := s.rows[id].(status := Completed, progress := 100,
                                      message := Text("Training finished"), artifact := Some(path))]
        else s.rows
      case StopSeen => SetStatus(s.rows, id, Canceled, Text("Canceled"))
      case Error(text) =>
        SetStatus(s.rows, id, if flagged then Canceled else Failed, Text("Training failed: " + text));
    Release(s.(rows := rows), id)
  }

  /** `delete_job` after its file removals. */
  function Delete(s: Trainer, id: JobId): Trainer {
    s.(rows := s.rows - {id}, order := Without(s.order, id), secrets := s.secrets - {id},
    deleting := s.deleting - {id})
  }

  /** `reset_orphans` */
  function ResetRow(row: Row): Row {
    if row.status.Running? then row.(status := Failed, message := Text("Aborted on trainer restart"))
    else if row.status.Awaiting? then row.(status := Failed, message := Text("Dataset upload never completed"))
    else row
  }

  /** The process dies, losing everything in memory, and starts again on the same table. */
  function Restart(s: Trainer): Trainer {
    s.(rows := map id | id in s.rows :: ResetRow(s.rows[id]),
    secrets := {}, cancelRequested := {}, active := map[], devices := map[], deleting := {}, stopped := false)
  }

  // ---------------------------------------------------------------------------- runs

  datatype Step =
    | DoSubmit(id: JobId, request: Request, token: bool, now: real)
    | DoReady(id: JobId)
    | DoCancel(id: JobId)
    | DoDispatch(telemetry: Telemetry)
    | DoRefresh(telemetry: Telemetry)
    | DoBegin(id: JobId)
    | DoReport(id: JobId, progress: int, text: string)
    | DoFinish(id: JobId, outcome: Outcome)
    | DoDeleteCheck(id: JobId)
    | DoDelete(id: JobId)
    | DoStop
    | DoStopCancels
    | DoRestart

  predicate Enabled(s: Trainer, step: Step) {
    match step
    case DoSubmit(id, _, _, _) => id !in s.issued
    case DoReady(_) => true
    case DoCancel(id) => id in s.issued
    case DoDispatch(_) => !s.stopped && |s.active| < s.limit
    case DoRefresh(_) => !s.stopped && s.limit <= |s.active|
    case DoBegin(id) => id in s.active && s.active[id].Created?
    case DoReport(id, _, _) => id in s.active && s.active[id].Training?
    case DoFinish(id, _) => id in s.active && s.active[id].Training?
    case DoDeleteCheck(id) => id in s.rows && Terminal(s.rows[id].status)
    case DoDelete(id) => id in s.deleting
    case DoStop => true
    case DoStopCancels => s.stopped
    case DoRestart => true
  }

  function Next(s: Trainer, step: Step): Trainer
    requires Enabled(s, step)
  {
    match step
    case DoSubmit(id, request, token, now) => Submit(s, id, request, token, now)
    case DoReady(id) => MarkReady(s, id)
    case DoCancel(id) => RequestCancel(s, id)
    case DoDispatch(telemetry) => Dispatch(s, telemetry)
    case DoRefresh(telemetry) => Scan(s, telemetry)
    case DoBegin(id) => Begin(s, id)
    case DoReport(id, progress, text) => Report(s, id, progress, text)
    case DoFinish(id, outcome) => Finish(s, id, outcome)
    case DoDeleteCheck(id) => s.(deleting := s.deleting + {id})
    case DoDelete(id) => Delete(s, id)
    case DoStop => s.(stopped := true)
    case DoStopCancels => s.(cancelRequested := s.cancelRequested + s.active.Keys)
    case DoRestart => Restart(s)
  }

  /** A run: states and the steps between them. */
  ghost predicate Run(states: seq<Trainer>, steps: seq<Step>, limit: nat) {
    && |states| == |steps| + 1
    && states[0] == Initial(limit)
    && forall i {:trigger steps[i]} :: 0 <= i < |steps| ==> Enabled(states[i], steps[i]) && states[i + 1] == Next(states[i], steps[i])
  }
}
