/** Invariants of the job scheduler, kept by every step of every interleaving. */
module SchedulerSafety {
  import opened Common
  import opened TargetKeys
  import opened JobScheduler

  // --------------------------------------------------------------------- invariants

  predicate HandlerOk(spec: map<JobId, Spec>, h: Handler) {
    h.job in spec && (h.Seen? || spec[h.job].training)
  }

  ghost predicate SpecInv(s: System) {
    && (forall id :: id in s.rows ==> id in s.spec)
    && (forall h :: h in s.handlers ==> HandlerOk(s.spec, s.handlers[h]))
    && (forall id :: id in s.events ==> id in s.spec && s.spec[id].training)
    && (forall id :: id in s.accepted ==> id in s.spec && s.spec[id].training)
    && (forall id :: id in s.canceled ==> id in s.spec && s.spec[id].training)
  }

  /** Keys are those `target_key` makes, and only imports use the import key. */
  predicate GoodKey(spec: Spec) {
    WellKey(spec.key) && (spec.training <==> spec.key != IMPORT_KEY)
  }

  ghost predicate SpecKeys(s: System) {
    forall id :: id in s.spec ==> GoodKey(s.spec[id])
  }

  /** A reserved process belongs to the job whose key it holds, and a training worker holds
      that job's cancel event. */
  ghost predicate ProcInv(s: System) {
    && (forall t :: t in s.procs ==>
          s.procs[t].job in s.spec && s.spec[s.procs[t].job].key == t
          && s.procs[t].training == s.spec[s.procs[t].job].training)
    && (forall t :: t in s.procs && s.procs[t].training ==>
          s.procs[t].job in s.events && s.procs[t].event == Some(s.events[s.procs[t].job]))
  }

  /** A claimed worker's job is RUNNING. */
  ghost predicate ClaimInv(s: System) {
    forall t :: t in s.procs && s.procs[t].life.Claimed? ==>
      s.procs[t].training && s.procs[t].job in s.rows && s.rows[s.procs[t].job].status.Running?
  }

  /** Reserved targets do not conflict. */
  ghost predicate KeyInv(s: System) {
    forall a, b :: a in s.procs && b in s.procs && a != b ==> !Blocks(a, b)
  }

  /** The process reserved under the job's own key is the job's. */
  predicate Owned(s: System, id: JobId) {
    id in s.spec && s.spec[id].key in s.procs && s.procs[s.spec[id].key].job == id
  }

  predicate IsLive(s: System, id: JobId) {
    id in s.rows && Live(s.rows[id].status)
  }

  predicate IsRunning(s: System, id: JobId) {
    id in s.rows && s.rows[id].status.Running?
  }

  predicate Survives(s: System, id: JobId) {
    id in s.rows && id in s.spec && Reattachable(s.spec[id], s.rows[id].remoteId)
  }

  /** What the scheduler thread knows between two of its steps. */
  ghost predicate PcInv(s: System) {
    match s.pc
    case Ready => true
    case Scheduling(jobs) =>
      forall id :: id in jobs ==> id in s.spec && s.spec[id].training && (IsRunning(s, id) ==> Owned(s, id))
    case ImportClaimed(id) => id in s.spec && !s.spec[id].training && IMPORT_KEY !in s.procs
    case Reaping(t, reattaching, fail) =>
      && t in s.procs && (s.procs[t].life.Dead? || s.procs[t].life.Unstarted?)
      && s.procs[t].job in s.spec
      && (var id := s.procs[t].job;
          && (fail ==> !reattaching && s.procs[t].training && !Survives(s, id))
          && (fail && id in s.rows ==> s.rows[id].status.Pending? || s.rows[id].status.Canceled?)
          && (!fail && !reattaching && s.procs[t].training && !s.stop && IsLive(s, id) ==>
                IsRunning(s, id) && !Survives(s, id)))
    case CleaningRead(unassigned) => forall id :: id in unassigned ==> id in s.spec && s.spec[id].training && !Owned(s, id)
    case Cleaning(ids) =>
      forall id :: id in ids ==> id in s.spec && s.spec[id].training && !Owned(s, id) && !IsLive(s, id)
    case Recovering(todo) =>
      && (forall id :: id in todo ==>
            id in s.spec && s.spec[id].training && !Owned(s, id) && IsRunning(s, id)
            && s.rows[id].remoteId == todo[id])
      && (forall id :: IsRunning(s, id) && id in s.spec && s.spec[id].training && !Owned(s, id) ==> id in todo)
    case RecoveringImports(imports) =>
      && (forall id :: id in imports ==> id in s.spec && !s.spec[id].training && !Owned(s, id))
      && (forall id :: IsRunning(s, id) && id in s.spec && !Owned(s, id) ==> !s.spec[id].training && id in imports)
    case Stopped => s.down && s.recovered
  }

  ghost predicate NoneRunning(s: System) {
    forall id :: !IsRunning(s, id)
  }

  /** After the shutdown no process is left, and once recovery has run no job is RUNNING. */
  ghost predicate DownInv(s: System) {
    s.down ==>
      && s.procs == map[]
      && (s.pc.Ready? || s.pc.Recovering? || s.pc.RecoveringImports? || s.pc.Stopped?)
      && (s.recovered ==> NoneRunning(s))
  }

  /** An unowned RUNNING job without a remote id: recovery will fail it, nothing else can touch it. */
  predicate Doomed(s: System, id: JobId) {
    IsRunning(s, id) && !Survives(s, id) && !Owned(s, id)
  }

  predicate Signaled(s: System, id: JobId) {
    id in s.events && s.events[id] in s.raised
  }

  /** An interrupt delivered by event is not lost while its job is live. */
  ghost predicate AcceptInv(s: System) {
    !s.stop && !s.down ==>
      forall id :: id in s.accepted && IsLive(s, id) ==> Signaled(s, id) || Doomed(s, id)
  }

  /** A queued job canceled by an interrupt never becomes live again. */
  ghost predicate CanceledInv(s: System) {
    forall id :: id in s.canceled ==> !IsLive(s, id)
  }

  /** Events are unique to their job, and only an interrupt raises one. */
  ghost predicate EventInv(s: System) {
    && (forall id :: id in s.events ==> s.events[id] < s.nextEvent)
    && (forall e :: e in s.raised ==> e < s.nextEvent)
    && (forall i, j :: i in s.events && j in s.events && i != j ==> s.events[i] != s.events[j])
    && (forall id :: id in s.events && s.events[id] in s.raised ==> id in s.accepted)
  }

  ghost predicate Inv(s: System) {
    && SpecInv(s) && SpecKeys(s) && ProcInv(s) && ClaimInv(s) && KeyInv(s) && PcInv(s)
    && DownInv(s) && AcceptInv(s) && CanceledInv(s) && EventInv(s)
  }

  /** Being named by some process is being owned. */
  lemma AssignedIsOwned(s: System, id: JobId)
    requires ProcInv(s)
    ensures Assigned(s, id) <==> Owned(s, id)
  {
    if Owned(s, id) {
      assert s.spec[id].key in s.procs && s.procs[s.spec[id].key].job == id;
    }
  }

  // ------------------------------------------- steps beside the scheduler thread

  /** A worker process that may still write to the job's row. */
  predicate Active(s: System, id: JobId) {
    Owned(s, id) && (s.procs[s.spec[id].key].life.Starting? || s.procs[s.spec[id].key].life.Claimed?)
  }

  /** What API handlers and workers may do to one job. */
  predicate EnvRow(s: System, t: System, id: JobId) {
    && (id in s.spec ==> id in t.spec && t.spec[id] == s.spec[id])
    && (id !in s.spec ==> !IsRunning(t, id))
    && (id in s.spec && s.spec[id].training && !IsLive(s, id) ==> !IsLive(t, id))
    && (id in s.spec && !Active(s, id) ==>
          && (id in t.rows ==> id in s.rows && t.rows[id].remoteId == s.rows[id].remoteId)
          && (IsLive(t, id) ==> IsLive(s, id) && t.rows[id].status == s.rows[id].status)
          && (s.spec[id].training && id in t.rows && t.rows[id].status != s.rows[id].status ==>
                s.rows[id].status.Pending? && t.rows[id].status.Canceled?)
          && (s.spec[id].training && IsRunning(s, id) ==> IsRunning(t, id)))
  }

  /** The same reservations; only the life of a worker may advance. */
  predicate SameProc(s: System, t: System, k: string) {
    && (k in s.procs <==> k in t.procs)
    && (k in s.procs ==>
          && t.procs[k].job == s.procs[k].job && t.procs[k].training == s.procs[k].training
          && t.procs[k].event == s.procs[k].event
          && ((s.procs[k].life.Dead? || s.procs[k].life.Unstarted?) ==>
                (t.procs[k].life.Dead? || t.procs[k].life.Unstarted?)))
  }

  predicate SameEvent(s: System, t: System, id: JobId) {
    id in s.events ==> id in t.events && t.events[id] == s.events[id]
  }

  /** The scheduler thread keeps its place, its reservations and its events. */
  ghost predicate EnvFields(s: System, t: System) {
    && t.pc == s.pc && t.down == s.down && t.recovered == s.recovered && (s.stop ==> t.stop)
    && s.raised <= t.raised
    && (forall k :: SameProc(s, t, k))
    && (forall id :: SameEvent(s, t, id))
  }

  ghost predicate Env(s: System, t: System) {
    EnvFields(s, t) && forall id :: EnvRow(s, t, id)
  }

  lemma EnvKeepsOwned(s: System, t: System, id: JobId)
    requires Env(s, t) && id in s.spec
    ensures Owned(t, id) <==> Owned(s, id)
  {
    assert EnvRow(s, t, id);
    assert SameProc(s, t, s.spec[id].key);
  }

  lemma EnvKeepsPc(s: System, t: System)
    requires SpecInv(s) && ProcInv(s) && PcInv(s) && Env(s, t)
    ensures PcInv(t)
  {
    forall id ensures EnvRow(s, t, id) && (id in s.spec ==> (Owned(t, id) <==> Owned(s, id))) {
      assert EnvRow(s, t, id);
      if id in s.spec {
        EnvKeepsOwned(s, t, id);
      }
    }
    match s.pc
    case Scheduling(jobs) =>
    case ImportClaimed(_) => assert SameProc(s, t, IMPORT_KEY);
    case Reaping(k, _, _) => EnvKeepsReaping(s, t);
    case CleaningRead(_) =>
    case Cleaning(_) =>
    case Recovering(_) => EnvKeepsRecovering(s, t);
    case RecoveringImports(_) => EnvKeepsRecoveringImports(s, t);
    case _ =>
  }

  lemma EnvKeepsReaping(s: System, t: System)
    requires SpecInv(s) && ProcInv(s) && PcInv(s) && Env(s, t) && s.pc.Reaping?
    ensures PcInv(t)
  {
    var k := s.pc.target;
    var id := s.procs[k].job;
    assert SameProc(s, t, k) && EnvRow(s, t, id);
    assert !Active(s, id);
  }

  lemma EnvKeepsRecovering(s: System, t: System)
    requires SpecInv(s) && PcInv(s) && Env(s, t) && s.pc.Recovering?
    ensures PcInv(t)
  {
    var todo := s.pc.todo;
    forall id | id in todo
      ensures id in t.spec && t.spec[id].training && !Owned(t, id) && IsRunning(t, id)
      ensures t.rows[id].remoteId == todo[id]
    {
      assert EnvRow(s, t, id);
      EnvKeepsOwned(s, t, id);
    }
    forall id | IsRunning(t, id) && id in t.spec && t.spec[id].training && !Owned(t, id) ensures id in todo {
      assert EnvRow(s, t, id);
      EnvKeepsOwned(s, t, id);
    }
  }

  lemma EnvKeepsRecoveringImports(s: System, t: System)
    requires SpecInv(s) && PcInv(s) && Env(s, t) && s.pc.RecoveringImports?
    ensures PcInv(t)
  {
    forall id ensures EnvRow(s, t, id) && (id in s.spec ==> (Owned(t, id) <==> Owned(s, id))) {
      assert EnvRow(s, t, id);
      if id in s.spec {
        EnvKeepsOwned(s, t, id);
      }
    }
  }

  lemma EnvKeepsDown(s: System, t: System)
    requires DownInv(s) && Env(s, t)
    ensures DownInv(t)
  {
    if t.down {
      forall k ensures k !in t.procs {
        assert SameProc(s, t, k);
      }
      forall id | !IsRunning(s, id) ensures !IsRunning(t, id) {
        assert EnvRow(s, t, id);
      }
    }
  }

  lemma EnvKeepsKeys(s: System, t: System)
    requires KeyInv(s) && Env(s, t)
    ensures KeyInv(t)
  {
    forall k ensures k in t.procs <==> k in s.procs {
      assert SameProc(s, t, k);
    }
  }

  lemma EnvKeepsAccept(s: System, t: System)
    requires SpecInv(s) && AcceptInv(s) && Env(s, t)
    requires forall id :: id in t.accepted && id !in s.accepted ==> Signaled(t, id)
    ensures AcceptInv(t)
  {
    if !t.stop && !t.down {
      forall id | id in t.accepted && IsLive(t, id) ensures Signaled(t, id) || Doomed(t, id) {
        if id in s.accepted {
          assert EnvRow(s, t, id) && SameEvent(s, t, id);
          EnvKeepsOwned(s, t, id);
          assert IsLive(s, id);
        }
      }
    }
  }

  lemma EnvKeepsCanceled(s: System, t: System)
    requires SpecInv(s) && CanceledInv(s) && Env(s, t)
    requires forall id :: id in t.canceled && id !in s.canceled ==> !IsLive(t, id)
    ensures CanceledInv(t)
  {
    forall id | id in t.canceled ensures !IsLive(t, id) {
      assert EnvRow(s, t, id);
    }
  }

  // ---------------------------------------------------------------------- API steps

  lemma SubmitSpec(s: System, x: JobId, job: Option<Payload>)
    requires SpecInv(s) && x !in s.spec
    ensures SpecInv(Submit(s, x, job))
  {
    if job.Some? {
      TargetKeyIsWell(job.value);
    }
  }

  lemma SubmitRow(s: System, x: JobId, job: Option<Payload>, id: JobId)
    requires SpecInv(s) && x !in s.spec
    ensures EnvRow(s, Submit(s, x, job), id)
  {
  }

  lemma SubmitIsEnv(s: System, x: JobId, job: Option<Payload>)
    requires SpecInv(s) && x !in s.spec
    ensures Env(s, Submit(s, x, job)) && SpecInv(Submit(s, x, job))
  {
    SubmitSpec(s, x, job);
    forall id ensures EnvRow(s, Submit(s, x, job), id) {
      SubmitRow(s, x, job, id);
    }
  }

  lemma DecideIsEnv(s: System, h: nat)
    requires SpecInv(s) && ApiEnabled(s, InterruptDecide(h))
    ensures Env(s, InterruptAct(s, h)) && SpecInv(InterruptAct(s, h))
  {
  }

  lemma HandlersSpec(s: System, t: System)
    requires SpecInv(s)
    requires t.spec == s.spec && t.events == s.events && t.accepted == s.accepted && t.rows.Keys == s.rows.Keys
    requires forall h :: h in t.handlers ==> HandlerOk(t.spec, t.handlers[h])
    requires forall id :: id in t.canceled ==> id in s.canceled || (id in t.spec && t.spec[id].training)
    ensures SpecInv(t)
  {
  }

  lemma CancelSpec(s: System, h: nat)
    requires SpecInv(s) && ApiEnabled(s, InterruptCancel(h))
    ensures SpecInv(InterruptTry(s, h))
  {
    assert HandlerOk(s.spec, s.handlers[h]);
    HandlersSpec(s, InterruptTry(s, h));
  }

  /** A row changed by an accepted cancel, and every row by none. */
  lemma CanceledRow(s: System, t: System, id: JobId, job: JobId)
    requires t.spec == s.spec && t.procs == s.procs
    requires job in s.rows && job in s.spec && s.rows[job].status.Pending? && s.spec[job].training
    requires t.rows == SetStatus(s.rows, job, Canceled)
    requires SpecInv(s)
    ensures EnvRow(s, t, id)
  {
  }

  lemma CancelRow(s: System, h: nat, id: JobId)
    requires SpecInv(s) && ApiEnabled(s, InterruptCancel(h))
    ensures EnvRow(s, InterruptTry(s, h), id)
  {
    var job := s.handlers[h].job;
    if Cancelable(s, job) {
      CanceledRow(s, InterruptTry(s, h), id, job);
    } else {
      SameRows(s, InterruptTry(s, h), id);
    }
  }

  lemma SameRows(s: System, t: System, id: JobId)
    requires t.spec == s.spec && t.procs == s.procs && t.rows == s.rows && SpecInv(s)
    ensures EnvRow(s, t, id)
  {
  }

  lemma CancelIsEnv(s: System, h: nat)
    requires SpecInv(s) && ApiEnabled(s, InterruptCancel(h))
    ensures Env(s, InterruptTry(s, h)) && SpecInv(InterruptTry(s, h))
  {
    CancelSpec(s, h);
    forall id ensures EnvRow(s, InterruptTry(s, h), id) {
      CancelRow(s, h, id);
    }
  }

  lemma SignalIsEnv(s: System, h: nat)
    requires SpecInv(s) && ApiEnabled(s, InterruptSignal(h))
    ensures Env(s, Signal(s, h)) && SpecInv(Signal(s, h))
  {
  }

  lemma OtherApiIsEnv(s: System, a: ApiStep)
    requires SpecInv(s) && ApiEnabled(s, a) && (a.InterruptRead? || a.DeleteJob? || a.RequestStop?)
    ensures Env(s, ApiNext(s, a)) && SpecInv(ApiNext(s, a))
  {
    match a
    case InterruptRead(h, id) => ReadIsEnv(s, h, id);
    case DeleteJob(id) => DeleteIsEnv(s, id);
    case RequestStop => StopIsEnv(s);
  }

  lemma ReadIsEnv(s: System, h: nat, id: JobId)
    requires SpecInv(s) && ApiEnabled(s, InterruptRead(h, id))
    ensures Env(s, ApiNext(s, InterruptRead(h, id))) && SpecInv(ApiNext(s, InterruptRead(h, id)))
  {
  }

  lemma DeleteIsEnv(s: System, id: JobId)
    requires SpecInv(s) && ApiEnabled(s, DeleteJob(id))
    ensures Env(s, ApiNext(s, DeleteJob(id))) && SpecInv(ApiNext(s, DeleteJob(id)))
  {
  }

  lemma StopIsEnv(s: System)
    requires SpecInv(s)
    ensures Env(s, ApiNext(s, RequestStop)) && SpecInv(ApiNext(s, RequestStop))
  {
  }

  // ------------------------------------------------------------------- worker steps

  lemma ClaimSpec(s: System, k: string)
    requires SpecInv(s) && ProcInv(s) && WorkEnabled(s, Claim(k))
    ensures SpecInv(WorkerClaim(s, k))
  {
    assert Active(s, s.procs[k].job);
  }

  lemma ClaimRow(s: System, k: string, id: JobId)
    requires SpecInv(s) && ProcInv(s) && WorkEnabled(s, Claim(k))
    ensures EnvRow(s, WorkerClaim(s, k), id)
  {
    assert Active(s, s.procs[k].job);
  }

  lemma ClaimFields(s: System, k: string)
    requires WorkEnabled(s, Claim(k))
    ensures EnvFields(s, WorkerClaim(s, k))
  {
  }

  lemma ClaimIsEnv(s: System, k: string)
    requires SpecInv(s) && ProcInv(s) && WorkEnabled(s, Claim(k))
    ensures Env(s, WorkerClaim(s, k)) && SpecInv(WorkerClaim(s, k))
  {
    ClaimSpec(s, k);
    ClaimFields(s, k);
    forall id ensures EnvRow(s, WorkerClaim(s, k), id) {
      ClaimRow(s, k, id);
    }
    RowsAreEnv(s, WorkerClaim(s, k));
  }

  lemma WriteSpec(s: System, w: WorkStep)
    requires SpecInv(s) && ProcInv(s) && ClaimInv(s) && WorkEnabled(s, w) && !w.Claim? && !w.Die?
    ensures SpecInv(WorkNext(s, w))
  {
    assert Active(s, s.procs[w.target].job);
  }

  lemma WriteRow(s: System, w: WorkStep, id: JobId)
    requires SpecInv(s) && ProcInv(s) && ClaimInv(s) && WorkEnabled(s, w) && !w.Claim? && !w.Die?
    ensures EnvRow(s, WorkNext(s, w), id)
  {
    var job := s.procs[w.target].job;
    assert Active(s, job);
    if id != job {
      assert id in WorkNext(s, w).rows <==> id in s.rows;
      assert id in s.rows ==> WorkNext(s, w).rows[id] == s.rows[id];
    }
  }

  lemma RecordFields(s: System, k: string, remoteId: nat)
    requires k in s.procs
    ensures EnvFields(s, RecordRemote(s, k, remoteId))
  {
  }

  lemma FinishFields(s: System, k: string, status: Status)
    requires WorkEnabled(s, Finish(k, status))
    ensures EnvFields(s, WorkNext(s, Finish(k, status)))
  {
  }

  lemma WriteFields(s: System, w: WorkStep)
    requires ProcInv(s) && WorkEnabled(s, w) && !w.Claim? && !w.Die?
    ensures EnvFields(s, WorkNext(s, w))
  {
    match w
    case Record(k, remoteId) => RecordFields(s, k, remoteId);
    case Finish(k, status) => FinishFields(s, k, status);
    case _ =>
  }

  lemma RowsAreEnv(s: System, t: System)
    requires EnvFields(s, t) && forall id :: EnvRow(s, t, id)
    ensures Env(s, t)
  {
  }

  lemma WriteIsEnv(s: System, w: WorkStep)
    requires SpecInv(s) && ProcInv(s) && ClaimInv(s) && WorkEnabled(s, w) && !w.Claim? && !w.Die?
    ensures Env(s, WorkNext(s, w)) && SpecInv(WorkNext(s, w))
  {
    WriteSpec(s, w);
    WriteFields(s, w);
    forall id ensures EnvRow(s, WorkNext(s, w), id) {
      WriteRow(s, w, id);
    }
    RowsAreEnv(s, WorkNext(s, w));
  }

  lemma DieIsEnv(s: System, k: string)
    requires SpecInv(s) && WorkEnabled(s, Die(k))
    ensures Env(s, WorkNext(s, Die(k))) && SpecInv(WorkNext(s, Die(k)))
  {
  }
}
