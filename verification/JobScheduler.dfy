/**
 The Studio job scheduler as a transition system: API handlers, the scheduler thread and
 the worker processes interleave at every database call. One database statement, one
 event operation or one change of `processes` is one step. Database calls succeed or
 abort the scheduler's current pass (`SchedulerFault`).
 */
module JobScheduler {
  import opened Common
  import opened TargetKeys

  type JobId = nat

  datatype Status = Pending | Running | Completed | Failed | Canceled

  predicate Live(status: Status) {
    status.Pending? || status.Running?
  }

  /** What a job is, fixed when it is submitted. */
  datatype Spec = Spec(training: bool, remote: bool, onBatch: bool, key: string)

  datatype Row = Row(status: Status, remoteId: Option<nat>, cancelFlag: bool)

  datatype Life = Unstarted | Starting | Claimed | Exiting | Dead

  /** An entry of `processes`; `event` is the cancel event handed to a training worker, and
      `submits` says that it claimed a row without a remote id and has submitted nothing yet. */
  datatype Proc = Proc(job: JobId, training: bool, event: Option<nat>, life: Life, submits: bool)

  /** An interrupt request between two of its database or event operations. */
  datatype Handler = Seen(job: JobId, row: Row) | TryCancel(job: JobId) | MustSignal(job: JobId)

  /** Where the scheduler thread stands. */
  datatype Pc =
    | Ready
    | Scheduling(jobs: set<JobId>)
    | ImportClaimed(job: JobId)
    | Reaping(target: string, reattaching: bool, fail: bool)
    | CleaningRead(unassigned: set<JobId>)
    | Cleaning(ids: set<JobId>)
    | Recovering(todo: map<JobId, Option<nat>>)
    | RecoveringImports(imports: set<JobId>)
    | Stopped

  datatype System = System(
    spec: map<JobId, Spec>,
    rows: map<JobId, Row>,
    procs: map<string, Proc>,
    events: map<JobId, nat>,
    raised: set<nat>,
    nextEvent: nat,
    handlers: map<nat, Handler>,
    stop: bool,
    down: bool,
    recovered: bool,
    pc: Pc,
    accepted: set<JobId>,    // interrupts delivered through a cancel event
    canceled: set<JobId>,    // training jobs an interrupt moved from PENDING to CANCELED
    unmerged: map<string, bool>) // workers that have to write back the row they claimed, and its flag

  const INITIAL := System(map[], map[], map[], map[], {}, 0, map[], false, false, false, Ready, {}, {}, map[])

  /** A remote job with a recorded remote id survives its worker. */
  predicate Reattachable(spec: Spec, remoteId: Option<nat>) {
    spec.training && spec.remote && remoteId.Some?
  }

  /** Some process is reserved for the job. */
  predicate Assigned(s: System, id: JobId) {
    exists t :: t in s.procs && s.procs[t].job == id
  }

  /** `UPDATE ... SET status WHERE id` */
  function SetStatus(rows: map<JobId, Row>, id: JobId, status: Status): map<JobId, Row> {
    if id in rows then rows[id := rows[id].(status := status)] else rows
  }

  function SetLife(procs: map<string, Proc>, target: string, life: Life): map<string, Proc>
    requires target in procs
  {
    procs[target := procs[target].(life := life)]
  }

  // ------------------------------------------------------------------ API handlers

  function Submit(s: System, id: JobId, job: Option<Payload>): System {
    var spec := match job
      case None => Spec(false, false, false, IMPORT_KEY)
      case Some(p) => Spec(true, p.Remote?, p.Remote? && p.onBatch, TargetKey(p));
    s.(spec := s.spec[id := spec], rows := s.rows[id := Row(Pending, None, false)])
  }

  /** What `interrupt_job` does next, given the job as it was read. */
  datatype Decision = Refuse | FlagBatch(signal: bool) | Compete | CancelImport

  function Decide(spec: Spec, seen: Row): Decision {
    if spec.training && spec.onBatch && Live(seen.status) then
      FlagBatch(seen.remoteId.Some? || seen.status.Running?)
    else if !Live(seen.status) then Refuse
    else if spec.training then Compete
    else CancelImport
  }

  function DecideRows(rows: map<JobId, Row>, id: JobId, decision: Decision): map<JobId, Row> {
    match decision
    case FlagBatch(_) => if id in rows then rows[id := rows[id].(cancelFlag := true)] else rows
    case CancelImport => SetStatus(rows, id, Canceled)
    case _ => rows
  }

  /** A batch job that is gone by now makes the request end with a not-found error. */
  function DecideHandlers(handlers: map<nat, Handler>, h: nat, id: JobId, decision: Decision, found: bool)
    : map<nat, Handler>
  {
    match decision
    case FlagBatch(signal) =>
      if found then handlers[h := if signal then MustSignal(id) else TryCancel(id)] else handlers - {h}
    case Compete => handlers[h := TryCancel(id)]
    case _ => handlers - {h}
  }

  /** `interrupt_job` after reading the job. */
  function InterruptAct(s: System, h: nat): System
    requires h in s.handlers && s.handlers[h].Seen? && s.handlers[h].job in s.spec
  {
    var id := s.handlers[h].job;
    var decision := Decide(s.spec[id], s.handlers[h].row);
    s.(rows := DecideRows(s.rows, id, decision), handlers := DecideHandlers(s.handlers, h, id, decision, id in s.rows))
  }

  /** `transition_pending_train_job(CANCELED)` matches this row. */
  predicate Cancelable(s: System, id: JobId) {
    && id in s.rows && id in s.spec && s.spec[id].training && s.rows[id].status.Pending?
    && !Reattachable(s.spec[id], s.rows[id].remoteId)
  }

  function InterruptTry(s: System, h: nat): System
    requires h in s.handlers && s.handlers[h].TryCancel?
  {
    var id := s.handlers[h].job;
    var done := Cancelable(s, id);
    s.(rows := if done then SetStatus(s.rows, id, Canceled) else s.rows,
       handlers := if done then s.handlers - {h} else s.handlers[h := MustSignal(id)],
       canceled := if done then s.canceled + {id} else s.canceled)
  }

  /** The event `_cancel_events.setdefault(id, Event())` returns. */
  function EventOf(s: System, id: JobId): nat {
    if id in s.events then s.events[id] else s.nextEvent
  }

  function NextEvent(s: System, id: JobId): nat {
    if id in s.events then s.nextEvent else s.nextEvent + 1
  }

  /** `Scheduler.cancel_job`, the last act of interrupt request `h`. */
  function Signal(s: System, h: nat): System
    requires h in s.handlers
  {
    var id := s.handlers[h].job;
    s.(events := s.events[id := EventOf(s, id)], nextEvent := NextEvent(s, id),
    raised := s.raised + {EventOf(s, id)}, accepted := s.accepted + {id}, handlers := s.handlers - {h})
  }

  // --------------------------------------------------------------- scheduler thread

  function TrainingToRecover(s: System): map<JobId, Option<nat>> {
    map id | id in s.rows && id in s.spec && s.spec[id].training && s.rows[id].status.Running? && !Assigned(s, id)
      :: s.rows[id].remoteId
  }

  function ImportsToRecover(s: System): set<JobId> {
    set id | id in s.rows && id in s.spec && !s.spec[id].training && s.rows[id].status.Running? && !Assigned(s, id)
  }

  /** One update of `abort_orphan_jobs`, decided from the row as it was listed. */
  function RecoverRow(s: System, id: JobId): System
    requires s.pc.Recovering? && id in s.pc.todo && id in s.spec
  {
    s.(rows := SetStatus(s.rows, id, if Reattachable(s.spec[id], s.pc.todo[id]) then Pending else Failed),
    pc := Recovering(s.pc.todo - {id}))
  }

  /** The reaper's read of a dead process's job. */
  function ReapRead(s: System, target: string): System
    requires target in s.procs && s.procs[target].job in s.spec
  {
    var id := s.procs[target].job;
    if s.procs[target].training && id in s.rows then
      var row := s.rows[id];
      var reattaching := Live(row.status) && Reattachable(s.spec[id], row.remoteId);
      s.(pc := Reaping(target, reattaching, row.status.Pending? && !reattaching && !s.stop))
    else s.(pc := Reaping(target, false, false))
  }

  function ReapFail(s: System): System
    requires s.pc.Reaping? && s.pc.target in s.procs
  {
    var id := s.procs[s.pc.target].job;
    if id in s.rows then s.(rows := SetStatus(s.rows, id, Failed), pc := s.pc.(fail := false))
    else s.(pc := Ready, recovered := false)
  }

  /** Forget the event unless the job reattaches, and release the target. */
  function ReapEnd(s: System): System
    requires s.pc.Reaping? && s.pc.target in s.procs
  {
    var id := s.procs[s.pc.target].job;
    s.(events := if s.pc.reattaching then s.events else s.events - {id},
    procs := s.procs - {s.pc.target},
    pc := Ready)
  }

  /** `_start_job`: reserve the target, then start the process; a failed start ends the pass
      and keeps the reservation. */
  function StartJob(s: System, target: string, id: JobId, started: bool, pc: Pc): System {
    s.(events := s.events[id := EventOf(s, id)], nextEvent := NextEvent(s, id),
    procs := s.procs[target := Proc(id, true, Some(EventOf(s, id)), if started then Starting else Unstarted, false)],
    pc := if started then pc else Ready,
    recovered := started && s.recovered)
  }

  function ScheduleOne(s: System, id: JobId, started: bool): System
    requires s.pc.Scheduling? && id in s.pc.jobs && id in s.spec
  {
    var rest := Scheduling(s.pc.jobs - {id});
    if TargetIsBusy(s.spec[id].key, s.procs.Keys) || s.stop then s.(pc := rest)
    else StartJob(s, s.spec[id].key, id, started, rest)
  }

  function ImportStart(s: System, started: bool): System
    requires s.pc.ImportClaimed?
  {
    if s.stop then s.(pc := Ready)
    else s.(procs := s.procs[IMPORT_KEY := Proc(s.pc.job, false, None, if started then Starting else Unstarted, false)],
            pc := Ready, recovered := started && s.recovered)
  }

  /** `_shutdown_processes`: join or kill every worker, then forget it. */
  function ShutDown(s: System): System {
    s.(procs := map[], events := map[], down := true, recovered := false)
  }

  // ----------------------------------------------------------------------- workers

  predicate Claims(s: System, target: string)
    requires target in s.procs
  {
    s.procs[target].job in s.rows && s.rows[s.procs[target].job].status.Pending?
  }

  /** The process after its claim, which either took the row or found nothing to do. */
  function AfterClaim(p: Proc, rows: map<JobId, Row>): Proc {
    if p.job in rows && rows[p.job].status.Pending?
    then p.(life := Claimed, submits := rows[p.job].remoteId.None?) else p.(life := Exiting)
  }

  function WorkerClaim(s: System, target: string): System
    requires target in s.procs
  {
    s.(rows := if Claims(s, target) then SetStatus(s.rows, s.procs[target].job, Running) else s.rows,
       procs := s.procs[target := AfterClaim(s.procs[target], s.rows)],
       unmerged := if Claims(s, target) then s.unmerged[target := s.rows[s.procs[target].job].cancelFlag]
                   else s.unmerged)
  }

  /** The first write of a worker merges the whole row as it was claimed, cancellation flag included. */
  function MergeRow(s: System, target: string): System
    requires target in s.procs && target in s.unmerged
  {
    var id := s.procs[target].job;
    s.(rows := if id in s.rows then s.rows[id := s.rows[id].(status := Running, cancelFlag := s.unmerged[target])]
               else s.rows,
       unmerged := s.unmerged - {target})
  }

  /** A worker that does not reattach submits to the remote backend once, and writes the id it
      is given whatever the row holds. */
  function RecordRemote(s: System, target: string, remoteId: nat): System
    requires target in s.procs
  {
    var id := s.procs[target].job;
    s.(rows := if id in s.rows then s.rows[id := s.rows[id].(remoteId := Some(remoteId))] else s.rows,
       procs := s.procs[target := s.procs[target].(submits := false)])
  }

  // -------------------------------------------------------------------------- steps

  datatype ApiStep =
    | SubmitJob(id: JobId, job: Option<Payload>)
    | InterruptRead(h: nat, id: JobId)
    | InterruptDecide(h: nat)
    | InterruptCancel(h: nat)
    | InterruptSignal(h: nat)
    | DeleteJob(id: JobId)
    | RequestStop

  datatype RecoverStep =
    | RecoverBegin
    | RecoverOne(id: JobId)
    | RecoverImportsBegin
    | RecoverImport(id: JobId)
    | RecoverEnd

  datatype ReapStep =
    | ReapBegin(target: string)
    | ReapFailJob
    | ReapFinish
    | CleanBegin
    | CleanRead
    | CleanEnd

  datatype LaunchStep =
    | ScheduleBegin
    | ScheduleJob(id: JobId, started: bool)
    | ScheduleEnd
    | ClaimImport(id: JobId)
    | StartImport(started: bool)

  datatype WorkStep =
    | Claim(target: string)
    | Merge(target: string)
    | Progress(target: string)
    | Record(target: string, remoteId: nat)
    | Finish(target: string, status: Status)
    | WriteImport(target: string, status: Status)
    | Die(target: string)

  /** Passes cut short, shutdown, and a restart of the whole process. */
  datatype ControlStep = SchedulerFault | ShutDownProcesses | Stop | Restart

  datatype Step =
    | Api(a: ApiStep)
    | Recover(r: RecoverStep)
    | Reap(p: ReapStep)
    | Launch(l: LaunchStep)
    | Work(w: WorkStep)
    | Control(c: ControlStep)

  predicate WorkerAt(s: System, target: string, life: Life, training: bool) {
    target in s.procs && s.procs[target].life == life && s.procs[target].training == training
  }

  /** The scheduler thread is between two parts of a polling pass. */
  predicate BetweenParts(s: System) {
    s.pc.Ready? && !s.down && s.recovered
  }

  predicate Enabled(s: System, step: Step) {
    match step
    case Api(a) => ApiEnabled(s, a)
    case Recover(r) => RecoverEnabled(s, r)
    case Reap(p) => ReapEnabled(s, p)
    case Launch(l) => LaunchEnabled(s, l)
    case Work(w) => WorkEnabled(s, w)
    case Control(c) => ControlEnabled(s, c)
  }

  predicate ApiEnabled(s: System, a: ApiStep) {
    match a
    case SubmitJob(id, _) => id !in s.spec
    case InterruptRead(h, id) => h !in s.handlers && id in s.rows
    case InterruptDecide(h) => h in s.handlers && s.handlers[h].Seen? && s.handlers[h].job in s.spec
    case InterruptCancel(h) => h in s.handlers && s.handlers[h].TryCancel?
    case InterruptSignal(h) => h in s.handlers && s.handlers[h].MustSignal?
    case DeleteJob(id) => id in s.rows && (s.rows[id].status.Failed? || s.rows[id].status.Canceled?)
    case RequestStop => true
  }

  function ApiNext(s: System, a: ApiStep): System
    requires ApiEnabled(s, a)
  {
    match a
    case SubmitJob(id, job) => Submit(s, id, job)
    case InterruptRead(h, id) => s.(handlers := s.handlers[h := Seen(id, s.rows[id])])
    case InterruptDecide(h) => InterruptAct(s, h)
    case InterruptCancel(h) => InterruptTry(s, h)
    case InterruptSignal(h) => Signal(s, h)
    case DeleteJob(id) => s.(rows := s.rows - {id})
    case RequestStop => s.(stop := true)
  }

  predicate RecoverEnabled(s: System, r: RecoverStep) {
    match r
    case RecoverBegin => s.pc.Ready?
    case RecoverOne(id) => s.pc.Recovering? && id in s.pc.todo && id in s.rows && id in s.spec
    case RecoverImportsBegin => s.pc.Recovering? && s.pc.todo == map[]
    case RecoverImport(id) => s.pc.RecoveringImports? && id in s.pc.imports && id in s.rows
    case RecoverEnd => s.pc.RecoveringImports? && s.pc.imports == {}
  }

  function RecoverNext(s: System, r: RecoverStep): System
    requires RecoverEnabled(s, r)
  {
    match r
    case RecoverBegin => s.(pc := Recovering(TrainingToRecover(s)))
    case RecoverOne(id) => RecoverRow(s, id)
    case RecoverImportsBegin => s.(pc := RecoveringImports(ImportsToRecover(s)))
    case RecoverImport(id) =>
      s.(rows := SetStatus(s.rows, id, Failed), pc := RecoveringImports(s.pc.imports - {id}))
    case RecoverEnd => s.(pc := Ready, recovered := true)
  }

  predicate ReapEnabled(s: System, p: ReapStep) {
    match p
    case ReapBegin(t) =>
      BetweenParts(s) && t in s.procs && s.procs[t].job in s.spec
      && (s.procs[t].life.Dead? || s.procs[t].life.Unstarted?)
    case ReapFailJob => s.pc.Reaping? && s.pc.fail && s.pc.target in s.procs
    case ReapFinish => s.pc.Reaping? && !s.pc.fail && s.pc.target in s.procs
    case CleanBegin => BetweenParts(s)
    case CleanRead => s.pc.CleaningRead?
    case CleanEnd => s.pc.Cleaning?
  }

  function ReapNext(s: System, p: ReapStep): System
    requires ReapEnabled(s, p)
  {
    match p
    case ReapBegin(t) => ReapRead(s, t)
    case ReapFailJob => ReapFail(s)
    case ReapFinish => ReapEnd(s)
    case CleanBegin => s.(pc := CleaningRead(set id | id in s.events && !Assigned(s, id)))
    case CleanRead =>
      s.(pc := Cleaning(set id | id in s.pc.unassigned && !(id in s.rows && Live(s.rows[id].status))))
    case CleanEnd => s.(events := s.events - s.pc.ids, pc := Ready)
  }

  predicate LaunchEnabled(s: System, l: LaunchStep) {
    match l
    case ScheduleBegin => BetweenParts(s)
    case ScheduleJob(id, _) => s.pc.Scheduling? && id in s.pc.jobs && id in s.spec
    case ScheduleEnd => s.pc.Scheduling? && s.pc.jobs == {}
    case ClaimImport(id) =>
      BetweenParts(s) && !s.stop && IMPORT_KEY !in s.procs
      && id in s.rows && id in s.spec && !s.spec[id].training && s.rows[id].status.Pending?
    case StartImport(_) => s.pc.ImportClaimed?
  }

  function LaunchNext(s: System, l: LaunchStep): System
    requires LaunchEnabled(s, l)
  {
    match l
    case ScheduleBegin =>
      s.(pc := Scheduling(
        set id | id in s.rows && id in s.spec && s.spec[id].training && s.rows[id].status.Pending?))
    case ScheduleJob(id, started) => ScheduleOne(s, id, started)
    case ScheduleEnd => s.(pc := Ready)
    case ClaimImport(id) => s.(rows := SetStatus(s.rows, id, Running), pc := ImportClaimed(id))
    case StartImport(started) => ImportStart(s, started)
  }

  predicate WorkEnabled(s: System, w: WorkStep) {
    match w
    case Claim(t) => WorkerAt(s, t, Starting, true)
    case Merge(t) => WorkerAt(s, t, Claimed, true) && t in s.unmerged
    case Progress(t) => WorkerAt(s, t, Claimed, true)
    case Record(t, _) =>
      WorkerAt(s, t, Claimed, true) && t !in s.unmerged && s.procs[t].submits && s.procs[t].job in s.spec && s.spec[s.procs[t].job].remote
    case Finish(t, status) => WorkerAt(s, t, Claimed, true) && !status.Running?
    case WriteImport(t, _) => WorkerAt(s, t, Starting, false)
    case Die(t) => t in s.procs
  }

  function WorkNext(s: System, w: WorkStep): System
    requires WorkEnabled(s, w)
  {
    match w
    case Claim(t) => WorkerClaim(s, t)
    case Merge(t) => MergeRow(s, t)
    case Progress(t) => s.(rows := SetStatus(s.rows, s.procs[t].job, Running))
    case Record(t, remoteId) => RecordRemote(s, t, remoteId)
    case Finish(t, status) =>
      s.(rows := SetStatus(s.rows, s.procs[t].job, status), procs := SetLife(s.procs, t, Exiting))
    case WriteImport(t, status) => s.(rows := SetStatus(s.rows, s.procs[t].job, status))
    case Die(t) => s.(procs := SetLife(s.procs, t, Dead))
  }

  predicate ControlEnabled(s: System, c: ControlStep) {
    match c
    case SchedulerFault => !s.down
    case ShutDownProcesses => s.pc.Ready? && s.stop && !s.down
    case Stop => s.pc.Ready? && s.down && s.recovered
    case Restart => true
  }

  function ControlNext(s: System, c: ControlStep): System
    requires ControlEnabled(s, c)
  {
    match c
    case SchedulerFault => s.(pc := Ready, recovered := false)
    case ShutDownProcesses => ShutDown(s)
    case Stop => s.(pc := Stopped)
    case Restart =>
      s.(procs := map[], events := map[], raised := {}, handlers := map[], stop := false, down := false,
      recovered := false, pc := Ready, accepted := {})
  }

  function Next(s: System, step: Step): System
    requires Enabled(s, step)
  {
    match step
    case Api(a) => ApiNext(s, a)
    case Recover(r) => RecoverNext(s, r)
    case Reap(p) => ReapNext(s, p)
    case Launch(l) => LaunchNext(s, l)
    case Work(w) => WorkNext(s, w)
    case Control(c) => ControlNext(s, c)
  }

  /** Successive states of the system, from any state. */
  ghost predicate Path(states: seq<System>, steps: seq<Step>) {
    && |states| == |steps| + 1
    && forall i {:trigger steps[i]} :: 0 <= i < |steps| ==> Enabled(states[i], steps[i]) && states[i + 1] == Next(states[i], steps[i])
  }

  ghost predicate Run(states: seq<System>, steps: seq<Step>) {
    Path(states, steps) && states[0] == INITIAL
  }
}
