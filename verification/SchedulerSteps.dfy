/** Every step of the scheduler keeps the invariants of `SchedulerSafety`. */
module SchedulerSteps {
  import opened Common
  import opened TargetKeys
  import opened JobScheduler
  import opened SchedulerSafety

  /** The invariants other than what the scheduler thread itself remembers. */
  ghost predicate Core(s: System) {
    SpecInv(s) && SpecKeys(s) && ProcInv(s) && ClaimInv(s) && KeyInv(s) && EventInv(s)
  }

  ghost predicate Promises(s: System) {
    AcceptInv(s) && CanceledInv(s)
  }

  // ----------------------------------------------- API and worker steps, remaining parts

  lemma EnvKeepsProc(s: System, t: System)
    requires ProcInv(s) && Env(s, t)
    ensures ProcInv(t)
  {
    forall k | k in t.procs
      ensures t.procs[k].job in t.spec && t.spec[t.procs[k].job].key == k
      ensures t.procs[k].training == t.spec[t.procs[k].job].training
      ensures t.procs[k].training ==>
                t.procs[k].job in t.events && t.procs[k].event == Some(t.events[t.procs[k].job])
    {
      assert SameProc(s, t, k);
      assert EnvRow(s, t, s.procs[k].job) && SameEvent(s, t, s.procs[k].job);
    }
  }

  lemma ApiKeepsClaimed(s: System, a: ApiStep, id: JobId)
    requires ApiEnabled(s, a) && SpecInv(s) && id in s.spec && s.spec[id].training && IsRunning(s, id)
    ensures IsRunning(ApiNext(s, a), id)
  {
    match a
    case InterruptDecide(_) =>
    case InterruptCancel(_) =>
    case _ =>
  }

  /** What every request step but the last leaves alone. */
  predicate SameSignals(s: System, t: System) {
    t.events == s.events && t.raised == s.raised && t.accepted == s.accepted && t.nextEvent == s.nextEvent
  }

  lemma DecideFrame(s: System, h: nat)
    requires ApiEnabled(s, InterruptDecide(h))
    ensures var t := InterruptAct(s, h);
            t.procs == s.procs && t.spec == s.spec && t.canceled == s.canceled && SameSignals(s, t)
  {
  }

  lemma TryFrame(s: System, h: nat)
    requires ApiEnabled(s, InterruptCancel(h))
    ensures var t := InterruptTry(s, h); t.procs == s.procs && t.spec == s.spec && SameSignals(s, t)
  {
  }

  lemma ApiFrame(s: System, a: ApiStep)
    requires ApiEnabled(s, a)
    ensures ApiNext(s, a).procs == s.procs
    ensures !a.InterruptSignal? ==> SameSignals(s, ApiNext(s, a))
    ensures !a.SubmitJob? ==> ApiNext(s, a).spec == s.spec
    ensures !a.InterruptCancel? ==> ApiNext(s, a).canceled == s.canceled
  {
    match a
    case InterruptDecide(h) => DecideFrame(s, h);
    case InterruptCancel(h) => TryFrame(s, h);
    case InterruptSignal(_) =>
    case _ =>
  }

  lemma ApiKeepsClaim(s: System, a: ApiStep)
    requires ApiEnabled(s, a) && SpecInv(s) && ProcInv(s) && ClaimInv(s)
    ensures ClaimInv(ApiNext(s, a))
  {
    var t := ApiNext(s, a);
    ApiFrame(s, a);
    forall k | k in t.procs && t.procs[k].life.Claimed?
      ensures t.procs[k].training && t.procs[k].job in t.rows && t.rows[t.procs[k].job].status.Running?
    {
      ApiKeepsClaimed(s, a, s.procs[k].job);
    }
  }

  lemma ApiKeepsEvents(s: System, a: ApiStep)
    requires ApiEnabled(s, a) && EventInv(s)
    ensures EventInv(ApiNext(s, a))
  {
    ApiFrame(s, a);
    if a.InterruptSignal? {
      assert EventInv(Signal(s, a.h));
    }
  }

  lemma SubmitKeepsKeys(s: System, id: JobId, job: Option<Payload>)
    requires SpecKeys(s)
    ensures SpecKeys(Submit(s, id, job))
  {
    if job.Some? {
      TargetKeyIsWell(job.value);
    }
  }

  lemma ApiIsEnv(s: System, a: ApiStep)
    requires ApiEnabled(s, a) && SpecInv(s)
    ensures Env(s, ApiNext(s, a)) && SpecInv(ApiNext(s, a))
  {
    match a
    case SubmitJob(id, job) => SubmitIsEnv(s, id, job);
    case InterruptDecide(h) => DecideIsEnv(s, h);
    case InterruptCancel(h) => CancelIsEnv(s, h);
    case InterruptSignal(h) => SignalIsEnv(s, h);
    case _ => OtherApiIsEnv(s, a);
  }

  lemma ApiKeepsCore(s: System, a: ApiStep)
    requires ApiEnabled(s, a) && Core(s)
    ensures Core(ApiNext(s, a))
  {
    var t := ApiNext(s, a);
    ApiIsEnv(s, a);
    ApiFrame(s, a);
    EnvKeepsProc(s, t);
    EnvKeepsKeys(s, t);
    ApiKeepsClaim(s, a);
    ApiKeepsEvents(s, a);
    if a.SubmitJob? {
      SubmitKeepsKeys(s, a.id, a.job);
    }
  }

  /** The atomic cancel leaves the job not live. */
  lemma CanceledNow(s: System, h: nat, id: JobId)
    requires ApiEnabled(s, InterruptCancel(h)) && id in InterruptTry(s, h).canceled && id !in s.canceled
    ensures !IsLive(InterruptTry(s, h), id)
  {
  }

  lemma ApiKeepsPromises(s: System, a: ApiStep)
    requires ApiEnabled(s, a) && SpecInv(s) && Promises(s)
    ensures Promises(ApiNext(s, a))
  {
    var t := ApiNext(s, a);
    ApiIsEnv(s, a);
    ApiFrame(s, a);
    forall id | id in t.accepted && id !in s.accepted ensures Signaled(t, id) {
      assert t == Signal(s, a.h);
    }
    forall id | id in t.canceled && id !in s.canceled ensures !IsLive(t, id) {
      CanceledNow(s, a.h, id);
    }
    EnvKeepsAccept(s, t);
    EnvKeepsCanceled(s, t);
  }

  lemma WorkIsEnv(s: System, w: WorkStep)
    requires WorkEnabled(s, w) && SpecInv(s) && ProcInv(s) && ClaimInv(s)
    ensures Env(s, WorkNext(s, w)) && SpecInv(WorkNext(s, w))
  {
    match w
    case Claim(k) => ClaimIsEnv(s, k);
    case Die(k) => DieIsEnv(s, k);
    case _ => WriteIsEnv(s, w);
  }

  /** Workers write rows and the state of their own processes, nothing else. */
  predicate SameButWork(s: System, t: System) {
    && t.spec == s.spec && t.events == s.events && t.raised == s.raised && t.nextEvent == s.nextEvent
    && t.accepted == s.accepted && t.canceled == s.canceled && t.handlers == s.handlers
    && t.procs.Keys == s.procs.Keys
  }

  lemma ClaimFrame(s: System, k: string)
    requires k in s.procs
    ensures SameButWork(s, WorkerClaim(s, k))
  {
  }

  lemma RecordFrame(s: System, k: string, remoteId: nat)
    requires k in s.procs
    ensures SameButWork(s, RecordRemote(s, k, remoteId))
  {
  }

  lemma WorkFrame(s: System, w: WorkStep)
    requires WorkEnabled(s, w)
    ensures SameButWork(s, WorkNext(s, w))
  {
    match w
    case Claim(k) => ClaimFrame(s, k);
    case Record(k, remoteId) => RecordFrame(s, k, remoteId);
    case _ =>
  }

  /** Changing one process and its job's row leaves the other claimed workers right. */
  lemma OtherClaimsStay(s: System, t: System, target: string)
    requires ProcInv(s) && ClaimInv(s) && target in s.procs && target in t.procs
    requires forall k :: k in t.procs && k != target ==> k in s.procs && t.procs[k] == s.procs[k]
    requires forall id :: id in s.rows && id != s.procs[target].job ==> id in t.rows && t.rows[id] == s.rows[id]
    requires t.procs[target].life.Claimed? ==>
               && t.procs[target].training && t.procs[target].job in t.rows
               && t.rows[t.procs[target].job].status.Running?
    ensures ClaimInv(t)
  {
    forall k | k in t.procs && t.procs[k].life.Claimed?
      ensures t.procs[k].training && t.procs[k].job in t.rows && t.rows[t.procs[k].job].status.Running?
    {
      if k != target {
        assert s.procs[k].job != s.procs[target].job;
      }
    }
  }

  lemma WorkKeepsClaim(s: System, w: WorkStep)
    requires WorkEnabled(s, w) && ProcInv(s) && ClaimInv(s)
    ensures ClaimInv(WorkNext(s, w))
  {
    match w
    case Claim(k) => OtherClaimsStay(s, WorkerClaim(s, k), k);
    case Record(k, remoteId) => OtherClaimsStay(s, RecordRemote(s, k, remoteId), k);
    case _ => OtherClaimsStay(s, WorkNext(s, w), w.target);
  }

  lemma WorkKeepsCore(s: System, w: WorkStep)
    requires WorkEnabled(s, w) && Core(s)
    ensures Core(WorkNext(s, w))
  {
    var t := WorkNext(s, w);
    WorkIsEnv(s, w);
    WorkFrame(s, w);
    EnvKeepsProc(s, t);
    EnvKeepsKeys(s, t);
    WorkKeepsClaim(s, w);
  }

  lemma WorkKeepsPromises(s: System, w: WorkStep)
    requires WorkEnabled(s, w) && SpecInv(s) && ProcInv(s) && ClaimInv(s) && Promises(s)
    ensures Promises(WorkNext(s, w))
  {
    WorkIsEnv(s, w);
    WorkFrame(s, w);
    EnvKeepsAccept(s, WorkNext(s, w));
    EnvKeepsCanceled(s, WorkNext(s, w));
  }

  // --------------------------------------------------- scheduler steps: two frame rules

  /** A step that changes only what the scheduler thread remembers. */
  lemma PcStepKeeps(s: System, t: System)
    requires Core(s) && Promises(s) && t == s.(pc := t.pc, recovered := t.recovered)
    ensures Core(t) && Promises(t)
    ensures NoneRunning(s) ==> NoneRunning(t)
  {
    forall id ensures IsRunning(t, id) == IsRunning(s, id) {
    }
  }

  /** A scheduler write to the row of a job whose worker, if any, is dead. */
  lemma RowStepKeepsCore(s: System, t: System, id: JobId, status: Status)
    requires Core(s) && id in s.spec
    requires t == s.(rows := SetStatus(s.rows, id, status), pc := t.pc, recovered := t.recovered)
    requires forall k :: k in s.procs && s.procs[k].job == id ==> !s.procs[k].life.Claimed?
    ensures Core(t)
  {
    assert t.rows.Keys == s.rows.Keys;
  }

  lemma RowStepKeepsPromises(s: System, t: System, id: JobId, status: Status)
    requires Promises(s) && SpecInv(s) && id in s.spec
    requires t == s.(rows := SetStatus(s.rows, id, status), pc := t.pc, recovered := t.recovered)
    requires Live(status) && s.spec[id].training ==>
               IsLive(s, id) && (id in s.accepted && !s.stop && !s.down ==> Signaled(s, id))
    ensures Promises(t)
  {
    assert t.rows.Keys == s.rows.Keys;
    forall x | x != id ensures IsLive(t, x) == IsLive(s, x) && Doomed(t, x) == Doomed(s, x) {
    }
  }

  // ------------------------------------------------------------------------ recovery

  lemma OwnedIsAssigned(s: System)
    requires ProcInv(s)
    ensures forall id :: Assigned(s, id) <==> Owned(s, id)
  {
    forall id ensures Assigned(s, id) <==> Owned(s, id) {
      AssignedIsOwned(s, id);
    }
  }

  lemma RecoverBeginPc(s: System)
    requires Inv(s) && s.pc.Ready?
    ensures PcInv(RecoverNext(s, RecoverBegin))
  {
    OwnedIsAssigned(s);
  }

  lemma RecoverBeginKeeps(s: System)
    requires Inv(s) && s.pc.Ready?
    ensures Inv(RecoverNext(s, RecoverBegin))
  {
    PcStepKeeps(s, RecoverNext(s, RecoverBegin));
    RecoverBeginPc(s);
  }

  lemma RecoverOneKeepsPc(s: System, id: JobId)
    requires Inv(s) && RecoverEnabled(s, RecoverOne(id))
    ensures PcInv(RecoverRow(s, id)) && DownInv(RecoverRow(s, id))
  {
    var t := RecoverRow(s, id);
    assert !IsRunning(t, id);
    forall x | x != id ensures IsRunning(t, x) == IsRunning(s, x) && Owned(t, x) == Owned(s, x) {
    }
  }

  lemma RecoverOneKeeps(s: System, id: JobId)
    requires Inv(s) && RecoverEnabled(s, RecoverOne(id))
    ensures Inv(RecoverRow(s, id))
  {
    var t := RecoverRow(s, id);
    var status := if Reattachable(s.spec[id], s.pc.todo[id]) then Pending else Failed;
    RecoverOneKeepsPc(s, id);
    RowStepKeepsCore(s, t, id, status);
    RowStepKeepsPromises(s, t, id, status);
  }

  lemma RecoverImportsBeginPc(s: System)
    requires Inv(s) && RecoverEnabled(s, RecoverImportsBegin)
    ensures PcInv(RecoverNext(s, RecoverImportsBegin))
  {
    OwnedIsAssigned(s);
  }

  lemma RecoverImportsBeginKeeps(s: System)
    requires Inv(s) && RecoverEnabled(s, RecoverImportsBegin)
    ensures Inv(RecoverNext(s, RecoverImportsBegin))
  {
    PcStepKeeps(s, RecoverNext(s, RecoverImportsBegin));
    RecoverImportsBeginPc(s);
  }

  lemma RecoverImportKeepsPc(s: System, id: JobId)
    requires Inv(s) && RecoverEnabled(s, RecoverImport(id))
    ensures PcInv(RecoverNext(s, RecoverImport(id))) && DownInv(RecoverNext(s, RecoverImport(id)))
  {
    var t := RecoverNext(s, RecoverImport(id));
    assert !IsRunning(t, id);
    forall x | x != id ensures IsRunning(t, x) == IsRunning(s, x) && Owned(t, x) == Owned(s, x) {
    }
  }

  lemma RecoverImportKeeps(s: System, id: JobId)
    requires Inv(s) && RecoverEnabled(s, RecoverImport(id))
    ensures Inv(RecoverNext(s, RecoverImport(id)))
  {
    var t := RecoverNext(s, RecoverImport(id));
    RecoverImportKeepsPc(s, id);
    RowStepKeepsCore(s, t, id, Failed);
    RowStepKeepsPromises(s, t, id, Failed);
  }

  lemma RecoverEndKeeps(s: System)
    requires Inv(s) && RecoverEnabled(s, RecoverEnd)
    ensures Inv(RecoverNext(s, RecoverEnd))
    ensures forall id :: IsRunning(RecoverNext(s, RecoverEnd), id) ==> Owned(RecoverNext(s, RecoverEnd), id)
  {
    PcStepKeeps(s, RecoverNext(s, RecoverEnd));
    forall id | IsRunning(s, id) ensures Owned(s, id) {
      assert id in s.spec;
    }
  }

  lemma RecoverStepKeeps(s: System, r: RecoverStep)
    requires Inv(s) && RecoverEnabled(s, r)
    ensures Inv(RecoverNext(s, r))
  {
    match r
    case RecoverBegin => RecoverBeginKeeps(s);
    case RecoverOne(id) => RecoverOneKeeps(s, id);
    case RecoverImportsBegin => RecoverImportsBeginKeeps(s);
    case RecoverImport(id) => RecoverImportKeeps(s, id);
    case RecoverEnd => RecoverEndKeeps(s);
  }

  // ------------------------------------------------------------ reaping and cleaning

  lemma ReapBeginKeeps(s: System, k: string)
    requires Inv(s) && ReapEnabled(s, ReapBegin(k))
    ensures Inv(ReapRead(s, k))
  {
    PcStepKeeps(s, ReapRead(s, k));
  }

  lemma ReapFailKeepsPc(s: System)
    requires Inv(s) && ReapEnabled(s, ReapFailJob)
    ensures PcInv(ReapFail(s)) && DownInv(ReapFail(s))
  {
  }

  lemma ReapFailKeeps(s: System)
    requires Inv(s) && ReapEnabled(s, ReapFailJob)
    ensures Inv(ReapFail(s))
  {
    ReapFailKeepsPc(s);
    if s.procs[s.pc.target].job in s.rows {
      ReapFailWrites(s, ReapFail(s), s.procs[s.pc.target].job);
    } else {
      PcStepKeeps(s, ReapFail(s));
    }
  }

  lemma ReapFailWrites(s: System, t: System, id: JobId)
    requires Inv(s) && ReapEnabled(s, ReapFailJob) && t == ReapFail(s) && id == s.procs[s.pc.target].job && id in s.rows
    requires PcInv(t) && DownInv(t)
    ensures Inv(t)
  {
    RowStepKeepsCore(s, t, id, Failed);
    RowStepKeepsPromises(s, t, id, Failed);
  }

  lemma ReapEndKeepsProc(s: System)
    requires Inv(s) && ReapEnabled(s, ReapFinish)
    ensures ProcInv(ReapEnd(s))
  {
    var t := ReapEnd(s);
    forall k | k in t.procs && t.procs[k].training ensures t.procs[k].job in t.events {
      assert k != s.pc.target && s.procs[k].job != s.procs[s.pc.target].job;
    }
  }

  lemma ReapEndKeepsCore(s: System)
    requires Inv(s) && ReapEnabled(s, ReapFinish)
    ensures Core(ReapEnd(s)) && PcInv(ReapEnd(s)) && DownInv(ReapEnd(s))
  {
    var t := ReapEnd(s);
    ReapEndKeepsProc(s);
    assert EventInv(t) && SpecInv(t) && KeyInv(t) && ClaimInv(t);
  }

  lemma ReapEndKeepsPromises(s: System)
    requires Inv(s) && ReapEnabled(s, ReapFinish)
    ensures Promises(ReapEnd(s))
  {
    var t := ReapEnd(s);
    var target := s.pc.target;
    var job := s.procs[target].job;
    if !t.stop && !t.down {
      forall id | id in t.accepted && IsLive(t, id) ensures Signaled(t, id) || Doomed(t, id) {
        assert IsLive(s, id);
        if id == job {
          assert !Owned(t, id) && Owned(s, id);
        } else if !Owned(s, id) {
          assert !Owned(t, id);
        }
      }
    }
  }

  lemma CleanBeginKeeps(s: System)
    requires Inv(s) && ReapEnabled(s, CleanBegin)
    ensures Inv(ReapNext(s, CleanBegin))
  {
    PcStepKeeps(s, ReapNext(s, CleanBegin));
    forall id ensures Assigned(s, id) <==> Owned(s, id) {
      AssignedIsOwned(s, id);
    }
  }

  lemma CleanReadKeeps(s: System)
    requires Inv(s) && ReapEnabled(s, CleanRead)
    ensures Inv(ReapNext(s, CleanRead))
  {
    PcStepKeeps(s, ReapNext(s, CleanRead));
  }

  lemma CleanEndKeepsCore(s: System)
    requires Inv(s) && ReapEnabled(s, CleanEnd)
    ensures Core(ReapNext(s, CleanEnd)) && PcInv(ReapNext(s, CleanEnd)) && DownInv(ReapNext(s, CleanEnd))
  {
    var t := ReapNext(s, CleanEnd);
    assert ProcInv(t) by {
      forall k | k in t.procs && t.procs[k].training ensures t.procs[k].job in t.events {
        assert Owned(s, s.procs[k].job);
      }
    }
    assert EventInv(t) && SpecInv(t);
  }

  lemma CleanEndKeepsPromises(s: System)
    requires Inv(s) && ReapEnabled(s, CleanEnd)
    ensures Promises(ReapNext(s, CleanEnd))
  {
    var t := ReapNext(s, CleanEnd);
    forall id ensures IsLive(t, id) == IsLive(s, id) && Doomed(t, id) == Doomed(s, id) {
    }
  }

  lemma ReapStepKeeps(s: System, p: ReapStep)
    requires Inv(s) && ReapEnabled(s, p)
    ensures Inv(ReapNext(s, p))
  {
    match p
    case ReapBegin(k) => ReapBeginKeeps(s, k);
    case ReapFailJob => ReapFailKeeps(s);
    case ReapFinish =>
      ReapEndKeepsCore(s);
      ReapEndKeepsPromises(s);
    case CleanBegin => CleanBeginKeeps(s);
    case CleanRead => CleanReadKeeps(s);
    case CleanEnd =>
      CleanEndKeepsCore(s);
      CleanEndKeepsPromises(s);
  }

  // ----------------------------------------------------------------------- launching

  /** A target that is not busy conflicts with no reserved one, in either direction. */
  lemma FreeTargetConflictsWithNone(s: System, target: string, k: string)
    requires SpecKeys(s) && ProcInv(s) && k in s.procs && WellKey(target)
    requires !TargetIsBusy(target, s.procs.Keys)
    ensures !Blocks(k, target) && !Blocks(target, k)
  {
    BusyMeansBlocked(target, s.procs.Keys);
    assert GoodKey(s.spec[s.procs[k].job]);
    if Blocks(target, k) {
      BlocksIsSymmetric(target, k);
    }
  }

  /** The import key conflicts with no training key. */
  lemma ImportKeyConflictsWithNone(k: string)
    requires WellKey(k) && k != IMPORT_KEY
    ensures !Blocks(k, IMPORT_KEY) && !Blocks(IMPORT_KEY, k)
  {
    assert IMPORT_KEY[0] == 'd';
    assert !("remote:" <= IMPORT_KEY);
    if Blocks(IMPORT_KEY, k) {
      BlocksIsSymmetric(IMPORT_KEY, k);
    }
  }

  lemma StartKeepsSpec(s: System, id: JobId, started: bool, pc: Pc)
    requires SpecInv(s) && id in s.spec && s.spec[id].training
    ensures SpecInv(StartJob(s, s.spec[id].key, id, started, pc))
  {
    assert StartJob(s, s.spec[id].key, id, started, pc).events.Keys == s.events.Keys + {id};
  }

  lemma StartKeepsProc(s: System, id: JobId, started: bool, pc: Pc)
    requires Core(s) && id in s.spec && s.spec[id].training && s.spec[id].key !in s.procs
    ensures var t := StartJob(s, s.spec[id].key, id, started, pc);
            SpecInv(t) && SpecKeys(t) && ProcInv(t) && ClaimInv(t)
  {
    var t := StartJob(s, s.spec[id].key, id, started, pc);
    StartKeepsSpec(s, id, started, pc);
    assert forall x :: x in s.events ==> x in t.events && t.events[x] == s.events[x];
  }

  lemma StartKeepsEvents(s: System, target: string, id: JobId, started: bool, pc: Pc)
    requires EventInv(s)
    ensures EventInv(StartJob(s, target, id, started, pc))
  {
  }

  lemma StartKeepsKeys(s: System, id: JobId, started: bool, pc: Pc)
    requires Core(s) && id in s.spec && !TargetIsBusy(s.spec[id].key, s.procs.Keys)
    ensures KeyInv(StartJob(s, s.spec[id].key, id, started, pc))
  {
    var target := s.spec[id].key;
    assert GoodKey(s.spec[id]);
    forall k | k in s.procs ensures !Blocks(k, target) && !Blocks(target, k) {
      FreeTargetConflictsWithNone(s, target, k);
    }
  }

  lemma StartKeepsPromises(s: System, id: JobId, started: bool, pc: Pc)
    requires Core(s) && Promises(s) && id in s.spec && s.spec[id].key !in s.procs
    requires !IsRunning(s, id)
    ensures Promises(StartJob(s, s.spec[id].key, id, started, pc))
  {
    var t := StartJob(s, s.spec[id].key, id, started, pc);
    forall x | x != id ensures Owned(t, x) == Owned(s, x) {
    }
    forall x ensures Signaled(s, x) ==> Signaled(t, x) {
    }
    forall x ensures IsLive(t, x) == IsLive(s, x) && (Doomed(s, x) ==> Doomed(t, x)) {
    }
  }

  lemma StartKeepsPc(s: System, id: JobId, started: bool)
    requires Inv(s) && LaunchEnabled(s, ScheduleJob(id, started)) && s.spec[id].key !in s.procs
    ensures var t := StartJob(s, s.spec[id].key, id, started, Scheduling(s.pc.jobs - {id}));
            PcInv(t) && DownInv(t)
  {
    var t := StartJob(s, s.spec[id].key, id, started, Scheduling(s.pc.jobs - {id}));
    forall x | Owned(s, x) ensures Owned(t, x) {
    }
  }

  lemma StartKeeps(s: System, id: JobId, started: bool)
    requires Inv(s) && LaunchEnabled(s, ScheduleJob(id, started)) && !TargetIsBusy(s.spec[id].key, s.procs.Keys)
    ensures Inv(StartJob(s, s.spec[id].key, id, started, Scheduling(s.pc.jobs - {id})))
  {
    var rest := Scheduling(s.pc.jobs - {id});
    assert s.spec[id].key !in s.procs && !IsRunning(s, id);
    StartKeepsProc(s, id, started, rest);
    StartKeepsEvents(s, s.spec[id].key, id, started, rest);
    StartKeepsKeys(s, id, started, rest);
    StartKeepsPromises(s, id, started, rest);
    StartKeepsPc(s, id, started);
  }

  lemma PassOverKeeps(s: System, id: JobId)
    requires Inv(s) && s.pc.Scheduling?
    ensures Inv(s.(pc := Scheduling(s.pc.jobs - {id})))
  {
    PcStepKeeps(s, s.(pc := Scheduling(s.pc.jobs - {id})));
  }

  lemma ScheduleJobKeeps(s: System, id: JobId, started: bool)
    requires Inv(s) && LaunchEnabled(s, ScheduleJob(id, started))
    ensures Inv(ScheduleOne(s, id, started))
  {
    if TargetIsBusy(s.spec[id].key, s.procs.Keys) || s.stop {
      PassOverKeeps(s, id);
    } else {
      StartKeeps(s, id, started);
    }
  }

  lemma ScheduleBeginKeeps(s: System)
    requires Inv(s) && LaunchEnabled(s, ScheduleBegin)
    ensures Inv(LaunchNext(s, ScheduleBegin))
  {
    PcStepKeeps(s, LaunchNext(s, ScheduleBegin));
  }

  lemma ClaimImportKeeps(s: System, id: JobId)
    requires Inv(s) && LaunchEnabled(s, ClaimImport(id))
    ensures Inv(LaunchNext(s, ClaimImport(id)))
  {
    var t := LaunchNext(s, ClaimImport(id));
    assert GoodKey(s.spec[id]);
    RowStepKeepsCore(s, t, id, Running);
    RowStepKeepsPromises(s, t, id, Running);
  }

  lemma StartImportKeepsProc(s: System, started: bool)
    requires Inv(s) && LaunchEnabled(s, StartImport(started)) && !s.stop
    ensures ProcInv(ImportStart(s, started)) && ClaimInv(ImportStart(s, started))
  {
    assert GoodKey(s.spec[s.pc.job]);
  }

  lemma StartImportKeepsKeys(s: System, started: bool)
    requires Inv(s) && LaunchEnabled(s, StartImport(started)) && !s.stop
    ensures KeyInv(ImportStart(s, started))
  {
    forall k | k in s.procs ensures !Blocks(k, IMPORT_KEY) && !Blocks(IMPORT_KEY, k) {
      assert GoodKey(s.spec[s.procs[k].job]);
      ImportKeyConflictsWithNone(k);
    }
  }

  lemma StartImportKeepsCore(s: System, started: bool)
    requires Inv(s) && LaunchEnabled(s, StartImport(started)) && !s.stop
    ensures Core(ImportStart(s, started))
  {
    StartImportKeepsProc(s, started);
    StartImportKeepsKeys(s, started);
  }

  lemma StartImportKeeps(s: System, started: bool)
    requires Inv(s) && LaunchEnabled(s, StartImport(started))
    ensures Inv(ImportStart(s, started))
  {
    var t := ImportStart(s, started);
    if s.stop {
      PcStepKeeps(s, t);
    } else {
      StartImportKeepsCore(s, started);
      assert GoodKey(s.spec[s.pc.job]);
      forall x ensures Doomed(s, x) && x in s.spec && s.spec[x].training ==> Doomed(t, x) {
        if x in s.spec {
          assert GoodKey(s.spec[x]);
        }
      }
      forall x ensures IsLive(t, x) == IsLive(s, x) && Signaled(t, x) == Signaled(s, x) {
      }
      assert Promises(t);
    }
  }

  lemma LaunchStepKeeps(s: System, l: LaunchStep)
    requires Inv(s) && LaunchEnabled(s, l)
    ensures Inv(LaunchNext(s, l))
  {
    match l
    case ScheduleBegin => ScheduleBeginKeeps(s);
    case ScheduleJob(id, started) => ScheduleJobKeeps(s, id, started);
    case ScheduleEnd => PcStepKeeps(s, LaunchNext(s, ScheduleEnd));
    case ClaimImport(id) => ClaimImportKeeps(s, id);
    case StartImport(started) => StartImportKeeps(s, started);
  }

  // ------------------------------------------------------------------------ the rest

  lemma ControlStepKeeps(s: System, c: ControlStep)
    requires Inv(s) && ControlEnabled(s, c)
    ensures Inv(ControlNext(s, c))
  {
    var t := ControlNext(s, c);
    if c.SchedulerFault? || c.Stop? {
      PcStepKeeps(s, t);
    } else {
      assert Core(t);
      assert Promises(t);
    }
  }

  lemma StepKeepsInv(s: System, step: Step)
    requires Inv(s) && Enabled(s, step)
    ensures Inv(Next(s, step))
  {
    match step
    case Api(a) =>
      ApiIsEnv(s, a);
      ApiKeepsCore(s, a);
      ApiKeepsPromises(s, a);
      EnvKeepsPc(s, ApiNext(s, a));
      EnvKeepsDown(s, ApiNext(s, a));
    case Recover(r) => RecoverStepKeeps(s, r);
    case Reap(p) => ReapStepKeeps(s, p);
    case Launch(l) => LaunchStepKeeps(s, l);
    case Work(w) =>
      WorkIsEnv(s, w);
      WorkKeepsCore(s, w);
      WorkKeepsPromises(s, w);
      EnvKeepsPc(s, WorkNext(s, w));
      EnvKeepsDown(s, WorkNext(s, w));
    case Control(c) => ControlStepKeeps(s, c);
  }

  lemma {:induction false} RunInv(states: seq<System>, steps: seq<Step>, k: nat)
    requires Run(states, steps) && k < |states|
    ensures Inv(states[k])
  {
    if k > 0 {
      RunInv(states, steps, k - 1);
      StepKeepsInv(states[k - 1], steps[k - 1]);
    }
  }
}
