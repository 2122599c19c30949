/**
 What every step of the trainer keeps, and what follows for whole runs with uploads,
 cancellations, dispatch, finishes, deletions and restarts.
 */
module TrainerSafety {
  import opened Common
  import opened TrainerQueue

  // ---------------------------------------------------------------------- invariants

  /** `_active`, `_active_devices` and the RUNNING rows name the same jobs. */
  ghost predicate ActiveInv(s: Trainer) {
    && s.devices.Keys == s.active.Keys
    && (forall id :: id in s.active <==> id in s.rows && s.rows[id].status.Running?)
    && (forall id :: id in s.devices ==> s.devices[id] == DeviceOf(s.rows[id].request))
    && |s.active| <= s.limit
  }

  /** Two active jobs hold two different fixed devices. */
  ghost predicate DeviceInv(s: Trainer) {
    forall a, b :: a in s.devices && b in s.devices && a != b ==>
      s.devices[a].Some? && s.devices[b].Some? && s.devices[a] != s.devices[b]
  }

  ghost predicate RowInv(s: Trainer) {
    && (forall id :: id in s.rows ==> id in s.issued)
    && (forall id :: id in s.rows && s.rows[id].status.Completed? ==>
          s.rows[id].progress == 100 && s.rows[id].artifact.Some?)
    && s.deleting <= s.issued
    && (forall id :: id in s.deleting && id in s.rows ==> Terminal(s.rows[id].status))
  }

  /** A token is cached only until the job's task begins. */
  ghost predicate SecretInv(s: Trainer) {
    forall id :: id in s.secrets ==>
      id in s.rows && !Terminal(s.rows[id].status) && (id in s.active ==> s.active[id].Created?)
  }

  /** A job with a pending cancel flag is neither awaiting nor queued. */
  ghost predicate CancelInv(s: Trainer) {
    && s.cancelRequested <= s.issued
    && (forall id :: id in s.cancelRequested && id in s.rows ==>
          !s.rows[id].status.Awaiting? && !s.rows[id].status.Queued?)
  }

  ghost predicate SortedIds(rows: map<JobId, Row>, ids: seq<JobId>) {
    && (forall x :: x in ids ==> x in rows)
    && (forall i, j :: 0 <= i < j < |ids| ==> Before(rows[ids[i]], rows[ids[j]]))
  }

  /** `order` lists every row once, in submission order. */
  ghost predicate OrderInv(s: Trainer) {
    && SortedIds(s.rows, s.order)
    && (forall id :: id in s.rows ==> id in s.order)
    && (forall id :: id in s.rows ==> s.rows[id].rowid < s.nextRowid)
  }

  ghost predicate TableInv(s: Trainer) {
    RowInv(s) && SecretInv(s) && CancelInv(s)
  }

  ghost predicate Inv(s: Trainer) {
    ActiveInv(s) && DeviceInv(s) && TableInv(s) && OrderInv(s)
  }

  // -------------------------------------------------------------- the order of the table

  lemma {:induction false} PendingContents(rows: map<JobId, Row>, order: seq<JobId>, id: JobId)
    ensures id in Pending(rows, order) <==> id in order && id in rows && rows[id].status.Queued?
  {
    if order != [] {
      PendingContents(rows, order[..|order| - 1], id);
      assert order == order[..|order| - 1] + [order[|order| - 1]];
    }
  }

  lemma {:induction false} PendingSorted(rows: map<JobId, Row>, order: seq<JobId>)
    requires SortedIds(rows, order)
    ensures SortedIds(rows, Pending(rows, order))
  {
    if order != [] {
      var front := order[..|order| - 1];
      PendingSorted(rows, front);
      forall x | x in Pending(rows, front) ensures Before(rows[x], rows[order[|order| - 1]]) {
        PendingContents(rows, front, x);
      }
    }
  }

  lemma {:induction false} InsertContents(order: seq<JobId>, rows: map<JobId, Row>, id: JobId, now: real, x: JobId)
    ensures x in InsertByTime(order, rows, id, now) <==> x == id || x in order
  {
    if order != [] && order[|order| - 1] in rows && rows[order[|order| - 1]].createdAt > now {
      InsertContents(order[..|order| - 1], rows, id, now, x);
      assert order == order[..|order| - 1] + [order[|order| - 1]];
    }
  }

  lemma SortedAppend(rows: map<JobId, Row>, ids: seq<JobId>, last: JobId)
    requires SortedIds(rows, ids) && last in rows && forall x :: x in ids ==> Before(rows[x], rows[last])
    ensures SortedIds(rows, ids + [last])
  {
    var all := ids + [last];
    forall i, j | 0 <= i < j < |all| ensures Before(rows[all[i]], rows[all[j]]) {
      assert i < |ids| && all[i] == ids[i] && ids[i] in ids;
      assert j < |ids| ==> all[j] == ids[j];
    }
  }

  lemma LastIsAfter(rows: map<JobId, Row>, order: seq<JobId>, x: JobId)
    requires SortedIds(rows, order) && order != [] && x in order[..|order| - 1]
    ensures Before(rows[x], rows[order[|order| - 1]])
  {
    var i :| 0 <= i < |order| - 1 && order[..|order| - 1][i] == x;
    assert order[i] == x;
  }

  /** Whoever is in a sorted list comes no later than its last entry. */
  lemma NoneIsLater(rows: map<JobId, Row>, order: seq<JobId>, row: Row, x: JobId)
    requires SortedIds(rows, order) && order != [] && x in order && rows[x].rowid < row.rowid
    requires rows[order[|order| - 1]].createdAt <= row.createdAt
    ensures Before(rows[x], row)
  {
    var i :| 0 <= i < |order| && order[i] == x;
    assert i == |order| - 1 || Before(rows[order[i]], rows[order[|order| - 1]]);
  }

  lemma SortedInMore(rows: map<JobId, Row>, order: seq<JobId>, id: JobId, row: Row)
    requires SortedIds(rows, order) && id !in rows
    ensures SortedIds(rows[id := row], order)
  {
    forall i, j | 0 <= i < j < |order| ensures Before(rows[id := row][order[i]], rows[id := row][order[j]]) {
      assert order[i] in order && order[j] in order && Before(rows[order[i]], rows[order[j]]);
    }
  }

  lemma {:induction false} InsertSorted(order: seq<JobId>, rows: map<JobId, Row>, id: JobId, row: Row)
    requires SortedIds(rows, order) && id !in rows
    requires forall x :: x in order ==> rows[x].rowid < row.rowid
    ensures SortedIds(rows[id := row], InsertByTime(order, rows, id, row.createdAt))
  {
    if order != [] {
      var front, last := order[..|order| - 1], order[|order| - 1];
      if rows[last].createdAt <= row.createdAt {
        forall x | x in order ensures Before(rows[id := row][x], row) {
          NoneIsLater(rows, order, row, x);
        }
        SortedInMore(rows, order, id, row);
        SortedAppend(rows[id := row], order, id);
      } else {
        InsertSorted(front, rows, id, row);
        forall x | x in InsertByTime(front, rows, id, row.createdAt)
          ensures Before(rows[id := row][x], rows[id := row][last])
        {
          InsertContents(front, rows, id, row.createdAt, x);
          if x != id {
            LastIsAfter(rows, order, x);
          }
        }
        SortedAppend(rows[id := row], InsertByTime(front, rows, id, row.createdAt), last);
      }
    }
  }

  lemma {:induction false} WithoutContents(order: seq<JobId>, id: JobId, x: JobId)
    ensures x in Without(order, id) <==> x in order && x != id
  {
    if order != [] {
      WithoutContents(order[..|order| - 1], id, x);
      assert order == order[..|order| - 1] + [order[|order| - 1]];
    }
  }

  lemma {:induction false} WithoutSorted(order: seq<JobId>, rows: map<JobId, Row>, id: JobId)
    requires SortedIds(rows, order)
    ensures SortedIds(rows - {id}, Without(order, id))
  {
    if order != [] {
      var front, last := order[..|order| - 1], order[|order| - 1];
      WithoutSorted(front, rows, id);
      if last != id {
        forall x | x in Without(front, id) ensures x in rows - {id} && Before(rows[x], rows[last]) {
          WithoutContents(front, id, x);
          LastIsAfter(rows, order, x);
        }
        SortedAppend(rows - {id}, Without(front, id), last);
      }
    }
  }

  /** Rewriting rows without touching ids or creation keys keeps the order. */
  lemma RewriteKeepsOrder(s: Trainer, rows: map<JobId, Row>)
    requires OrderInv(s) && rows.Keys == s.rows.Keys
    requires forall id :: id in rows ==>
               rows[id].createdAt == s.rows[id].createdAt && rows[id].rowid == s.rows[id].rowid
    ensures OrderInv(s.(rows := rows))
  {
  }

  lemma SubmitKeepsOrder(s: Trainer, id: JobId, request: Request, token: bool, now: real)
    requires OrderInv(s) && id !in s.rows
    ensures OrderInv(Submit(s, id, request, token, now))
  {
    var t := Submit(s, id, request, token, now);
    InsertSorted(s.order, s.rows, id, t.rows[id]);
    forall x | x in t.rows ensures x in t.order {
      InsertContents(s.order, s.rows, id, now, x);
    }
  }

  lemma DeleteKeepsOrder(s: Trainer, id: JobId)
    requires OrderInv(s)
    ensures OrderInv(Delete(s, id))
  {
    WithoutSorted(s.order, s.rows, id);
    forall x | x in Delete(s, id).rows ensures x in Delete(s, id).order {
      WithoutContents(s.order, id, x);
    }
  }

  /** Steps other than submission and deletion keep every row's id, creation key and request. */
  lemma OtherStepsKeepKeys(s: Trainer, step: Step)
    requires Enabled(s, step) && !step.DoSubmit? && !step.DoDelete?
    ensures SameKeys(s, Next(s, step))
  {
    match step
    case DoDispatch(telemetry) => DispatchKeepsKeys(s, telemetry);
    case DoRefresh(telemetry) =>
    case DoFinish(id, outcome) => FinishKeepsKeys(s, id, outcome);
    case DoRestart =>
    case _ => EditKeepsKeys(s, step);
  }

  predicate SameKeys(s: Trainer, t: Trainer) {
    && t.rows.Keys == s.rows.Keys && t.order == s.order && t.nextRowid == s.nextRowid
    && forall id :: id in s.rows ==>
         t.rows[id].createdAt == s.rows[id].createdAt && t.rows[id].rowid == s.rows[id].rowid
  }

  lemma DispatchKeepsKeys(s: Trainer, telemetry: Telemetry)
    ensures SameKeys(s, Dispatch(s, telemetry))
  {
    assert SameKeys(s, Scan(s, telemetry));
  }

  lemma FinishKeepsKeys(s: Trainer, id: JobId, outcome: Outcome)
    ensures SameKeys(s, Finish(s, id, outcome))
  {
    match outcome
    case Archive(_) =>
    case StopSeen =>
    case Error(_) =>
  }

  lemma EditKeepsKeys(s: Trainer, step: Step)
    requires Enabled(s, step)
    requires step.DoReady? || step.DoCancel? || step.DoBegin? || step.DoReport? || step.DoDeleteCheck? || step.DoStop?
             || step.DoStopCancels?
    ensures SameKeys(s, Next(s, step))
  {
    match step
    case DoReady(_) =>
    case DoCancel(_) =>
    case DoBegin(_) =>
    case DoReport(_, _, _) =>
    case _ =>
  }

  lemma OtherStepsKeepOrder(s: Trainer, step: Step)
    requires Enabled(s, step) && OrderInv(s) && !step.DoSubmit? && !step.DoDelete?
    ensures OrderInv(Next(s, step))
  {
    var t := Next(s, step);
    OtherStepsKeepKeys(s, step);
    RewriteKeepsOrder(s, t.rows);
  }

  // ------------------------------------------------------------------------- dispatch

  /** `queue[i]` is the first job in the queue that is not blocked. */
  ghost predicate EarliestFree(s: Trainer, queue: seq<JobId>, telemetry: Telemetry, i: int) {
    && 0 <= i < |queue|
    && (forall x :: x in queue ==> x in s.rows)
    && !Blocked(s, s.rows[queue[i]].request, telemetry)
    && (forall h :: 0 <= h < i ==> Blocked(s, s.rows[queue[h]].request, telemetry))
  }

  /** The picked job is the earliest queued job that is not blocked. */
  lemma {:induction false} FirstFreeIsEarliest(s: Trainer, queue: seq<JobId>, telemetry: Telemetry)
    requires forall x :: x in queue ==> x in s.rows
    ensures var pick := FirstFree(s, queue, telemetry);
            && (pick.None? <==> forall x :: x in queue ==> Blocked(s, s.rows[x].request, telemetry))
            && (pick.Some? ==> exists i :: EarliestFree(s, queue, telemetry, i) && queue[i] == pick.value)
  {
    if queue != [] {
      assert queue[0] in queue;
      if Blocked(s, s.rows[queue[0]].request, telemetry) {
        FirstFreeIsEarliest(s, queue[1..], telemetry);
        var pick := FirstFree(s, queue[1..], telemetry);
        if pick.Some? {
          var i :| EarliestFree(s, queue[1..], telemetry, i) && queue[1..][i] == pick.value;
          forall h | 0 <= h < i + 1 ensures Blocked(s, s.rows[queue[h]].request, telemetry) {
            if h > 0 {
              assert queue[h] == queue[1..][h - 1];
            }
          }
          assert EarliestFree(s, queue, telemetry, i + 1) && queue[i + 1] == pick.value;
        } else {
          forall x | x in queue ensures Blocked(s, s.rows[x].request, telemetry) {
            if x != queue[0] {
              assert x in queue[1..];
            }
          }
        }
      } else {
        assert EarliestFree(s, queue, telemetry, 0);
      }
    }
  }

  /** A pick is queued, so the loop's `continue` is unreachable. */
  lemma PickIsQueued(s: Trainer, telemetry: Telemetry)
    requires OrderInv(s)
    ensures var pick := FirstFree(s, QueuedIds(s), telemetry);
            pick.Some? ==> pick.value in s.rows && s.rows[pick.value].status.Queued?
                           && !Blocked(s, s.rows[pick.value].request, telemetry)
  {
    FirstFreeIsEarliest(s, QueuedIds(s), telemetry);
    var pick := FirstFree(s, QueuedIds(s), telemetry);
    if pick.Some? {
      PendingContents(s.rows, s.order, pick.value);
    }
  }

  lemma UnreservedKeepsDevices(s: Trainer, id: JobId)
    requires id in s.rows && id !in s.active && ActiveInv(s) && DeviceInv(s)
    requires !Reserved(s, DeviceOf(s.rows[id].request))
    ensures DeviceInv(Start(s, id))
  {
    var t := Start(s, id);
    forall a, b | a in t.devices && b in t.devices && a != b
      ensures t.devices[a].Some? && t.devices[b].Some? && t.devices[a] != t.devices[b]
    {
      var o := if a == id then b else a;
      assert o in s.devices && s.devices[o] == t.devices[o];
      assert s.active != map[] by { assert o in s.active; }
    }
  }

  lemma StartKeepsActive(s: Trainer, id: JobId)
    requires ActiveInv(s) && id in s.rows && s.rows[id].status.Queued? && |s.active| < s.limit
    ensures ActiveInv(Start(s, id))
  {
    assert id !in s.active;
    var t := Start(s, id);
    assert t.active.Keys == s.active.Keys + {id};
  }

  lemma StartKeepsTable(s: Trainer, id: JobId)
    requires TableInv(s) && ActiveInv(s) && id in s.rows && s.rows[id].status.Queued?
    ensures TableInv(Start(s, id))
  {
  }

  /** The job runs in both states or in neither, and if it runs it has the same request. */
  predicate SameRun(s: Trainer, t: Trainer, id: JobId) {
    && (id in t.rows && t.rows[id].status.Running? <==> id in s.rows && s.rows[id].status.Running?)
    && (id in s.rows && id in t.rows ==> t.rows[id].request == s.rows[id].request)
  }

  /** Rewriting rows without changing which of them run, or their requests. */
  lemma RewriteKeepsReservations(s: Trainer, t: Trainer)
    requires ActiveInv(s) && DeviceInv(s)
    requires t.active.Keys == s.active.Keys && t.devices == s.devices && t.limit == s.limit
    requires forall id :: SameRun(s, t, id)
    ensures ActiveInv(t) && DeviceInv(t)
  {
    assert |t.active.Keys| == |s.active.Keys|;
    forall id
      ensures id in t.active <==> id in t.rows && t.rows[id].status.Running?
      ensures id in t.devices ==> id in t.rows && t.devices[id] == DeviceOf(t.rows[id].request)
    {
      assert SameRun(s, t, id);
    }
  }

  lemma ScanKeepsTable(s: Trainer, telemetry: Telemetry)
    requires TableInv(s)
    ensures TableInv(Scan(s, telemetry))
  {
  }

  lemma ScanKeepsBlocked(s: Trainer, telemetry: Telemetry, request: Request, later: Telemetry)
    ensures Blocked(Scan(s, telemetry), request, later) == Blocked(s, request, later)
    ensures Reserved(Scan(s, telemetry), DeviceOf(request)) == Reserved(s, DeviceOf(request))
  {
  }

  lemma DispatchKeepsReservations(s: Trainer, telemetry: Telemetry)
    requires ActiveInv(s) && DeviceInv(s) && OrderInv(s) && |s.active| < s.limit
    ensures ActiveInv(Dispatch(s, telemetry)) && DeviceInv(Dispatch(s, telemetry))
  {
    PickIsQueued(s, telemetry);
    var scanned := Scan(s, telemetry);
    RewriteKeepsReservations(s, scanned);
    var pick := FirstFree(s, QueuedIds(s), telemetry);
    if pick.Some? {
      ScanKeepsBlocked(s, telemetry, s.rows[pick.value].request, telemetry);
      StartKeepsActive(scanned, pick.value);
      UnreservedKeepsDevices(scanned, pick.value);
    }
  }

  lemma DispatchKeepsTable(s: Trainer, telemetry: Telemetry)
    requires ActiveInv(s) && DeviceInv(s) && TableInv(s) && OrderInv(s)
    ensures TableInv(Dispatch(s, telemetry))
  {
    PickIsQueued(s, telemetry);
    var scanned := Scan(s, telemetry);
    RewriteKeepsReservations(s, scanned);
    ScanKeepsTable(s, telemetry);
    var pick := FirstFree(s, QueuedIds(s), telemetry);
    if pick.Some? {
      StartKeepsTable(scanned, pick.value);
    }
  }

  // ------------------------------------------------------------------ inductive steps

  lemma SubmitKeepsTable(s: Trainer, id: JobId, request: Request, token: bool, now: real)
    requires TableInv(s) && id !in s.issued && (forall x :: x in s.active ==> x in s.rows)
    ensures TableInv(Submit(s, id, request, token, now))
  {
    assert id !in s.rows && id !in s.active;
  }

  lemma MarkReadyKeepsTable(s: Trainer, id: JobId)
    requires TableInv(s)
    ensures TableInv(MarkReady(s, id))
  {
  }

  lemma CancelQueuedKeepsTable(s: Trainer, id: JobId)
    requires TableInv(s) && id in s.issued && id in s.rows && (s.rows[id].status.Queued? || s.rows[id].status.Awaiting?)
    ensures TableInv(RequestCancel(s, id))
  {
    var t := RequestCancel(s, id);
    assert forall x :: x in s.rows && x != id ==> t.rows[x] == s.rows[x];
  }

  lemma RequestCancelKeepsTable(s: Trainer, id: JobId)
    requires TableInv(s) && id in s.issued
    ensures TableInv(RequestCancel(s, id))
  {
    if id in s.rows && (s.rows[id].status.Queued? || s.rows[id].status.Awaiting?) {
      CancelQueuedKeepsTable(s, id);
    } else {
      assert RequestCancel(s, id) == s.(cancelRequested := s.cancelRequested + {id});
    }
  }

  lemma ReportKeepsTable(s: Trainer, id: JobId, progress: int, text: string)
    requires TableInv(s) && id in s.rows && s.rows[id].status.Running?
    ensures TableInv(Report(s, id, progress, text))
  {
    var t := Report(s, id, progress, text);
    assert forall x :: x in s.rows ==> t.rows[x].status == s.rows[x].status;
  }

  lemma BeginKeepsTable(s: Trainer, id: JobId)
    requires TableInv(s) && id in s.rows
    ensures TableInv(Begin(s, id))
  {
  }

  /** Releasing an active job together with a terminal row write. */
  lemma ReleaseKeepsReservations(s: Trainer, id: JobId, row: Row)
    requires ActiveInv(s) && DeviceInv(s) && id in s.active && Terminal(row.status)
    ensures var t := Release(s.(rows := s.rows[id := row]), id); ActiveInv(t) && DeviceInv(t)
  {
    ReleaseKeepsActive(s, id, row);
    assert Release(s.(rows := s.rows[id := row]), id).devices == s.devices - {id};
  }

  lemma ReleaseKeepsActive(s: Trainer, id: JobId, row: Row)
    requires ActiveInv(s) && id in s.active && Terminal(row.status)
    ensures ActiveInv(Release(s.(rows := s.rows[id := row]), id))
  {
    var t := Release(s.(rows := s.rows[id := row]), id);
    assert t.active.Keys == s.active.Keys - {id};
    assert |t.active.Keys| <= |s.active.Keys|;
  }

  lemma ReleaseKeepsTable(s: Trainer, id: JobId, row: Row)
    requires TableInv(s) && id in s.rows && id in s.active && s.active[id].Training?
    requires Terminal(row.status) && (row.status.Completed? ==> row.progress == 100 && row.artifact.Some?)
    ensures TableInv(Release(s.(rows := s.rows[id := row]), id))
  {
    assert id !in s.secrets;
  }

  lemma FinishIsRelease(s: Trainer, id: JobId, outcome: Outcome) returns (row: Row)
    requires id in s.rows
    ensures Terminal(row.status) && (row.status.Completed? ==> row.progress == 100 && row.artifact.Some?)
    ensures row.status.Completed? <==> outcome.Archive? && id !in s.cancelRequested
    ensures row.status.Failed? <==> outcome.Error? && id !in s.cancelRequested
    ensures Finish(s, id, outcome) == Release(s.(rows := s.rows[id := row]), id)
  {
    row := Finish(s, id, outcome).rows[id];
  }

  lemma DeleteKeepsTable(s: Trainer, id: JobId)
    requires ActiveInv(s) && DeviceInv(s) && TableInv(s) && id in s.deleting
    ensures TableInv(Delete(s, id))
  {
    assert id !in s.active;
  }

  lemma DeleteKeepsReservations(s: Trainer, id: JobId)
    requires ActiveInv(s) && DeviceInv(s) && (id in s.rows ==> Terminal(s.rows[id].status))
    ensures ActiveInv(Delete(s, id)) && DeviceInv(Delete(s, id))
  {
    assert id !in s.active;
    forall x ensures SameRun(s, Delete(s, id), x) {
    }
    RewriteKeepsReservations(s, Delete(s, id));
  }

  lemma RestartKeepsInv(s: Trainer)
    requires TableInv(s)
    ensures ActiveInv(Restart(s)) && DeviceInv(Restart(s)) && TableInv(Restart(s))
  {
  }

  lemma StepKeepsTable(s: Trainer, step: Step)
    requires Enabled(s, step) && Inv(s)
    ensures TableInv(Next(s, step))
  {
    match step
    case DoSubmit(id, request, token, now) => SubmitKeepsTable(s, id, request, token, now);
    case DoReady(id) => MarkReadyKeepsTable(s, id);
    case DoCancel(id) => RequestCancelKeepsTable(s, id);
    case DoDispatch(telemetry) => DispatchKeepsTable(s, telemetry);
    case DoRefresh(telemetry) => ScanKeepsTable(s, telemetry);
    case DoBegin(id) => BeginKeepsTable(s, id);
    case DoReport(id, progress, text) => ReportKeepsTable(s, id, progress, text);
    case DoFinish(id, outcome) =>
      var row := FinishIsRelease(s, id, outcome);
      ReleaseKeepsTable(s, id, row);
    case DoDelete(id) => DeleteKeepsTable(s, id);
    case DoRestart => RestartKeepsInv(s);
    case _ => FlagsKeepTable(s, step);
  }

  lemma FlagsKeepTable(s: Trainer, step: Step)
    requires Enabled(s, step) && Inv(s)
    requires step.DoDeleteCheck? || step.DoStop? || step.DoStopCancels?
    ensures TableInv(Next(s, step))
  {
  }

  lemma StepKeepsReservations(s: Trainer, step: Step)
    requires Enabled(s, step) && Inv(s)
    ensures ActiveInv(Next(s, step)) && DeviceInv(Next(s, step))
  {
    match step
    case DoDispatch(telemetry) => DispatchKeepsReservations(s, telemetry);
    case DoFinish(id, outcome) =>
      var row := FinishIsRelease(s, id, outcome);
      ReleaseKeepsReservations(s, id, row);
    case DoDelete(id) => DeleteKeepsReservations(s, id);
    case DoRestart => RestartKeepsInv(s);
    case _ => QuietStepKeepsReservations(s, step);
  }

  lemma QuietStepKeepsReservations(s: Trainer, step: Step)
    requires Enabled(s, step) && Inv(s)
    requires !step.DoDispatch? && !step.DoFinish? && !step.DoDelete? && !step.DoRestart?
    ensures ActiveInv(Next(s, step)) && DeviceInv(Next(s, step))
  {
    match step
    case DoSubmit(id, request, token, now) => SubmitKeepsReservations(s, id, request, token, now);
    case DoBegin(id) => BeginKeepsReservations(s, id);
    case _ => EditKeepsReservations(s, step);
  }

  lemma SubmitKeepsReservations(s: Trainer, id: JobId, request: Request, token: bool, now: real)
    requires ActiveInv(s) && DeviceInv(s) && RowInv(s) && id !in s.issued
    ensures ActiveInv(Submit(s, id, request, token, now)) && DeviceInv(Submit(s, id, request, token, now))
  {
    assert id !in s.rows && id !in s.active;
    RewriteKeepsReservations(s, Submit(s, id, request, token, now));
  }

  lemma BeginKeepsReservations(s: Trainer, id: JobId)
    requires ActiveInv(s) && DeviceInv(s) && id in s.active
    ensures ActiveInv(Begin(s, id)) && DeviceInv(Begin(s, id))
  {
    assert Begin(s, id).active.Keys == s.active.Keys;
    RewriteKeepsReservations(s, Begin(s, id));
  }

  predicate Edits(step: Step) {
    step.DoReady? || step.DoCancel? || step.DoRefresh? || step.DoReport? || step.DoDeleteCheck?
    || step.DoStop? || step.DoStopCancels?
  }

  lemma EditKeepsRow(s: Trainer, step: Step, id: JobId)
    requires Enabled(s, step) && ActiveInv(s) && Edits(step)
    ensures SameRun(s, Next(s, step), id)
  {
  }

  lemma EditKeepsFields(s: Trainer, step: Step)
    requires Enabled(s, step) && Edits(step)
    ensures Next(s, step).active == s.active && Next(s, step).devices == s.devices
    ensures Next(s, step).limit == s.limit
  {
  }

  lemma EditKeepsReservations(s: Trainer, step: Step)
    requires Enabled(s, step) && ActiveInv(s) && DeviceInv(s) && Edits(step)
    ensures ActiveInv(Next(s, step)) && DeviceInv(Next(s, step))
  {
    EditKeepsFields(s, step);
    forall id ensures SameRun(s, Next(s, step), id) {
      EditKeepsRow(s, step, id);
    }
    RewriteKeepsReservations(s, Next(s, step));
  }

  lemma StepKeepsOrder(s: Trainer, step: Step)
    requires Enabled(s, step) && Inv(s)
    ensures OrderInv(Next(s, step))
  {
    match step
    case DoSubmit(id, request, token, now) => SubmitKeepsOrder(s, id, request, token, now);
    case DoDelete(id) => DeleteKeepsOrder(s, id);
    case _ => OtherStepsKeepOrder(s, step);
  }

  lemma StepKeepsInv(s: Trainer, step: Step)
    requires Enabled(s, step) && Inv(s)
    ensures Inv(Next(s, step)) && Next(s, step).limit == s.limit
  {
    StepKeepsOrder(s, step);
    StepKeepsReservations(s, step);
    StepKeepsTable(s, step);
  }

  lemma {:induction false} RunInv(states: seq<Trainer>, steps: seq<Step>, limit: nat, k: nat)
    requires Run(states, steps, limit) && k < |states|
    ensures Inv(states[k]) && states[k].limit == limit
  {
    if k > 0 {
      RunInv(states, steps, limit, k - 1);
      StepKeepsInv(states[k - 1], steps[k - 1]);
    }
  }

  // ------------------------------------------------------- main theorem: reservations

  /** At every await point of every run, restarts included: the active jobs, the device
      reservations and the RUNNING rows are the same at most `limit` jobs; no two share a
      device; and a job with no fixed device is the only active one. */
  lemma ReservationsAreExclusive(states: seq<Trainer>, steps: seq<Step>, limit: nat, k: nat)
    requires Run(states, steps, limit) && k < |states|
    ensures var s := states[k];
            && s.active.Keys == s.devices.Keys == (set id | id in s.rows && s.rows[id].status.Running?)
            && |s.active| <= limit
            && (forall a, b :: a in s.active && b in s.active && a != b ==>
                  && DeviceOf(s.rows[a].request).Some?
                  && DeviceOf(s.rows[a].request) != DeviceOf(s.rows[b].request))
            && (forall a :: a in s.active && DeviceOf(s.rows[a].request).None? ==> s.active.Keys == {a})
  {
    RunInv(states, steps, limit, k);
    var s := states[k];
    forall a, b | a in s.active && b in s.active && a != b
      ensures DeviceOf(s.rows[a].request).Some? && DeviceOf(s.rows[a].request) != DeviceOf(s.rows[b].request)
    {
      assert a in s.devices && b in s.devices;
    }
    forall a | a in s.active && DeviceOf(s.rows[a].request).None? ensures s.active.Keys == {a} {
      forall b | b in s.active ensures b == a {
      }
    }
  }

  // ------------------------------------------------------- main theorem: job outcomes

  /** Terminal rows are final: complete when COMPLETED, without a cached token, and the
      task of an active job always finds its request. */
  lemma TerminalRowsAreFinal(states: seq<Trainer>, steps: seq<Step>, limit: nat, k: nat, id: JobId)
    requires Run(states, steps, limit) && k < |states| && id in states[k].rows
    ensures var s := states[k]; Terminal(s.rows[id].status) ==> id !in s.secrets && id !in s.active
    ensures var s := states[k];
            s.rows[id].status.Completed? ==> s.rows[id].progress == 100 && s.rows[id].artifact.Some?
  {
    RunInv(states, steps, limit, k);
  }

  /** `_run_job` never takes its "Missing job request" branch. */
  lemma RequestIsNeverMissing(states: seq<Trainer>, steps: seq<Step>, limit: nat, k: nat)
    requires Run(states, steps, limit) && k < |steps| && steps[k].DoBegin?
    ensures steps[k].id in states[k].rows
  {
    RunInv(states, steps, limit, k);
  }

  /** A dispatch only starts or relabels queued rows. */
  lemma DispatchTouchesQueued(s: Trainer, telemetry: Telemetry, id: JobId)
    requires OrderInv(s) && id in s.rows && !s.rows[id].status.Queued?
    ensures id in Dispatch(s, telemetry).rows && Dispatch(s, telemetry).rows[id] == s.rows[id]
  {
    PickIsQueued(s, telemetry);
  }

  lemma DispatchKeepsIds(s: Trainer, telemetry: Telemetry)
    ensures var t := Dispatch(s, telemetry);
            t.rows.Keys == s.rows.Keys && t.issued == s.issued && t.cancelRequested == s.cancelRequested
  {
  }

  lemma StepKeepsTerminal(s: Trainer, step: Step, id: JobId)
    requires Enabled(s, step) && Inv(s) && id in s.rows && Terminal(s.rows[id].status)
    ensures var t := Next(s, step);
            id in t.issued && (id in t.rows ==> t.rows[id].status == s.rows[id].status)
  {
    if step.DoDispatch? {
      DispatchTouchesQueued(s, step.telemetry, id);
      DispatchKeepsIds(s, step.telemetry);
    } else if step.DoFinish? {
      assert id !in s.active;
      var row := FinishIsRelease(s, step.id, step.outcome);
    } else {
      EditKeepsTerminal(s, step, id);
    }
  }

  predicate KeepsTerminal(s: Trainer, t: Trainer, id: JobId)
    requires id in s.rows
  {
    id in t.issued && (id in t.rows ==> t.rows[id].status == s.rows[id].status)
  }

  lemma EditKeepsTerminal(s: Trainer, step: Step, id: JobId)
    requires Enabled(s, step) && Inv(s) && id in s.rows && Terminal(s.rows[id].status)
    requires !step.DoDispatch? && !step.DoFinish?
    ensures KeepsTerminal(s, Next(s, step), id)
  {
    assert id in s.issued;
    match step
    case DoSubmit(x, request, token, now) =>
    case DoRefresh(telemetry) => ScanKeepsTerminal(s, telemetry, id);
    case DoRestart => RestartKeepsTerminal(s, id);
    case DoDelete(x) => DeleteKeepsTerminal(s, x, id);
    case _ => SmallEditKeepsTerminal(s, step, id);
  }

  lemma ScanKeepsTerminal(s: Trainer, telemetry: Telemetry, id: JobId)
    requires id in s.rows && id in s.issued && Terminal(s.rows[id].status)
    ensures KeepsTerminal(s, Scan(s, telemetry), id)
  {
  }

  lemma RestartKeepsTerminal(s: Trainer, id: JobId)
    requires id in s.rows && id in s.issued && Terminal(s.rows[id].status)
    ensures KeepsTerminal(s, Restart(s), id)
  {
  }

  lemma DeleteKeepsTerminal(s: Trainer, x: JobId, id: JobId)
    requires id in s.rows && id in s.issued
    ensures KeepsTerminal(s, Delete(s, x), id)
  {
  }

  lemma SmallEditKeepsTerminal(s: Trainer, step: Step, id: JobId)
    requires Enabled(s, step) && id in s.rows && id in s.issued && Terminal(s.rows[id].status)
    requires step.DoReady? || step.DoCancel? || step.DoBegin? || step.DoReport? || step.DoDeleteCheck? || step.DoStop?
             || step.DoStopCancels?
    ensures KeepsTerminal(s, Next(s, step), id)
  {
    match step
    case DoReady(_) =>
    case DoCancel(_) =>
    case DoBegin(_) =>
    case DoReport(_, _, _) =>
    case _ =>
  }

  /** A deleted id never comes back. */
  lemma StepKeepsAbsent(s: Trainer, step: Step, id: JobId)
    requires Enabled(s, step) && id in s.issued && id !in s.rows
    ensures id in Next(s, step).issued && id !in Next(s, step).rows
  {
    if step.DoDispatch? {
      DispatchKeepsIds(s, step.telemetry);
    }
  }

  lemma AbsentNext(states: seq<Trainer>, steps: seq<Step>, limit: nat, k: nat, id: JobId)
    requires Run(states, steps, limit) && k < |steps| && id in states[k].issued && id !in states[k].rows
    ensures id in states[k + 1].issued && id !in states[k + 1].rows
  {
    var s, step := states[k], steps[k];
    assert Enabled(s, step) && states[k + 1] == Next(s, step);
    StepKeepsAbsent(s, step, id);
  }

  /** A deleted job id never comes back, restarts included. */
  lemma DeletedNeverComesBack(states: seq<Trainer>, steps: seq<Step>, limit: nat, j: nat, k: nat, id: JobId)
    requires Run(states, steps, limit) && j <= k < |states|
    requires id in states[j].issued && id !in states[j].rows
    ensures id in states[k].issued && id !in states[k].rows
  {
    var holds := (n: nat) => n < |states| && id in states[n].issued && id !in states[n].rows;
    forall n: nat | j <= n < k && holds(n) ensures holds(n + 1) {
      AbsentNext(states, steps, limit, n, id);
    }
    Upward(holds, j, k);
  }

  lemma TerminalNextInRun(
    states: seq<Trainer>, steps: seq<Step>, limit: nat, k: nat, id: JobId, status: Status)
    requires Run(states, steps, limit) && k < |steps| && Terminal(status)
    requires id in states[k].issued && (id in states[k].rows ==> states[k].rows[id].status == status)
    ensures id in states[k + 1].issued
    ensures id in states[k + 1].rows ==> id in states[k].rows && states[k + 1].rows[id].status == status
  {
    RunInv(states, steps, limit, k);
    TerminalNext(states[k], steps[k], id);
  }

  predicate KeptBy(states: seq<Trainer>, n: nat, id: JobId, status: Status) {
    n < |states| && id in states[n].issued && (id in states[n].rows ==> states[n].rows[id].status == status)
  }

  lemma TerminalIsKept(
    states: seq<Trainer>, steps: seq<Step>, limit: nat, i: nat, k: nat, id: JobId, status: Status)
    requires Run(states, steps, limit) && i <= k < |states| && Terminal(status) && KeptBy(states, i, id, status)
    ensures KeptBy(states, k, id, status)
  {
    var holds := (n: nat) => KeptBy(states, n, id, status);
    forall n: nat | i <= n < k && holds(n) ensures holds(n + 1) {
      TerminalNextInRun(states, steps, limit, n, id, status);
    }
    Upward(holds, i, k);
  }

  /** Once terminal, a job keeps its status until its row is deleted, and then it stays deleted. */
  lemma TerminalNeverChanges(states: seq<Trainer>, steps: seq<Step>, limit: nat, i: nat, k: nat, id: JobId)
    requires Run(states, steps, limit) && i <= k < |states|
    requires id in states[i].rows && Terminal(states[i].rows[id].status)
    ensures id in states[k].issued
    ensures id in states[k].rows ==> states[k].rows[id].status == states[i].rows[id].status
    ensures forall j :: i <= j <= k && id !in states[j].rows ==> id !in states[k].rows
  {
    RunInv(states, steps, limit, i);
    var status := states[i].rows[id].status;
    TerminalIsKept(states, steps, limit, i, k, id, status);
    forall j | i <= j <= k && id !in states[j].rows ensures id !in states[k].rows {
      TerminalIsKept(states, steps, limit, i, j, id, status);
      DeletedNeverComesBack(states, steps, limit, j, k, id);
    }
  }

  lemma TerminalNext(s: Trainer, step: Step, id: JobId)
    requires Enabled(s, step) && Inv(s) && id in s.issued && (id in s.rows ==> Terminal(s.rows[id].status))
    ensures id in Next(s, step).issued
    ensures id in Next(s, step).rows ==> id in s.rows && Next(s, step).rows[id].status == s.rows[id].status
  {
    if id in s.rows {
      StepKeepsTerminal(s, step, id);
    } else {
      StepKeepsAbsent(s, step, id);
    }
  }

  /** What a cancel accepted on a live job guarantees from then on. */
  predicate CancelHolds(s: Trainer, id: JobId, restarted: bool) {
    id in s.issued &&
    (id in s.rows ==>
       || s.rows[id].status.Canceled?
       || (s.rows[id].status.Running? && id in s.cancelRequested)
       || (restarted && s.rows[id].status.Failed?))
  }

  lemma CancelTakesHold(s: Trainer, id: JobId)
    requires Inv(s) && id in s.rows && !Terminal(s.rows[id].status)
    ensures CancelHolds(RequestCancel(s, id), id, false)
  {
  }

  lemma StepKeepsCancel(s: Trainer, step: Step, id: JobId, restarted: bool)
    requires Enabled(s, step) && Inv(s) && CancelHolds(s, id, restarted)
    ensures CancelHolds(Next(s, step), id, restarted || step.DoRestart?)
  {
    if id !in s.rows {
      StepKeepsAbsent(s, step, id);
    } else if Terminal(s.rows[id].status) {
      StepKeepsTerminal(s, step, id);
    } else {
      StepKeepsRunningCancel(s, step, id);
    }
  }

  lemma StepKeepsRunningCancel(s: Trainer, step: Step, id: JobId)
    requires Enabled(s, step) && Inv(s) && id in s.rows && s.rows[id].status.Running? && id in s.cancelRequested
    ensures CancelHolds(Next(s, step), id, step.DoRestart?)
  {
    assert id in s.active;
    match step
    case DoDispatch(telemetry) =>
      DispatchTouchesQueued(s, telemetry, id);
      DispatchKeepsIds(s, telemetry);
    case DoFinish(x, outcome) =>
      var row := FinishIsRelease(s, x, outcome);
    case _ => EditKeepsRunningCancel(s, step, id);
  }

  lemma EditKeepsRunningCancel(s: Trainer, step: Step, id: JobId)
    requires Enabled(s, step) && RowInv(s) && ActiveInv(s)
    requires id in s.rows && s.rows[id].status.Running? && id in s.cancelRequested && id in s.active
    requires !step.DoDispatch? && !step.DoFinish?
    ensures CancelHolds(Next(s, step), id, step.DoRestart?)
  {
    match step
    case DoSubmit(_, _, _, _) =>
    case DoReady(_) =>
    case DoCancel(_) =>
    case DoBegin(_) =>
    case DoReport(_, _, _) =>
    case DoDelete(_) =>
    case DoRestart =>
    case _ =>
  }

  predicate RestartBetween(steps: seq<Step>, i: nat, k: nat)
    requires i <= k <= |steps|
  {
    exists h :: i <= h < k && steps[h].DoRestart?
  }

  lemma CancelTakesHoldAt(states: seq<Trainer>, steps: seq<Step>, limit: nat, i: nat, id: JobId)
    requires Run(states, steps, limit) && i < |steps|
    requires steps[i] == DoCancel(id) && id in states[i].rows && !Terminal(states[i].rows[id].status)
    ensures CancelHolds(states[i + 1], id, false)
  {
    RunInv(states, steps, limit, i);
    CancelTakesHold(states[i], id);
  }

  lemma CancelHoldsNext(
    states: seq<Trainer>, steps: seq<Step>, limit: nat, k: nat, id: JobId, restarted: bool)
    requires Run(states, steps, limit) && k < |steps| && CancelHolds(states[k], id, restarted)
    ensures CancelHolds(states[k + 1], id, restarted || steps[k].DoRestart?)
  {
    RunInv(states, steps, limit, k);
    StepKeepsCancel(states[k], steps[k], id, restarted);
  }

  predicate HoldsBy(states: seq<Trainer>, steps: seq<Step>, i: nat, n: nat, id: JobId) {
    i < n < |states| && n <= |steps| && CancelHolds(states[n], id, RestartBetween(steps, i, n))
  }

  lemma HoldsByNext(states: seq<Trainer>, steps: seq<Step>, limit: nat, i: nat, n: nat, id: JobId)
    requires Run(states, steps, limit) && n < |steps| && HoldsBy(states, steps, i, n, id)
    ensures HoldsBy(states, steps, i, n + 1, id)
  {
    CancelHoldsNext(states, steps, limit, n, id, RestartBetween(steps, i, n));
    RestartGrows(steps, i, n + 1);
  }

  lemma CancelKeepsHolding(states: seq<Trainer>, steps: seq<Step>, limit: nat, i: nat, k: nat, id: JobId)
    requires Run(states, steps, limit) && i < k < |states|
    requires steps[i] == DoCancel(id) && id in states[i].rows && !Terminal(states[i].rows[id].status)
    ensures CancelHolds(states[k], id, RestartBetween(steps, i, k))
  {
    CancelTakesHoldAt(states, steps, limit, i, id);
    var holds := (n: nat) => HoldsBy(states, steps, i, n, id);
    forall n: nat | i < n < k && holds(n) ensures holds(n + 1) {
      HoldsByNext(states, steps, limit, i, n, id);
    }
    assert !RestartBetween(steps, i, i + 1);
    Upward(holds, i + 1, k);
  }

  lemma RestartGrows(steps: seq<Step>, i: nat, k: nat)
    requires i < k <= |steps|
    ensures RestartBetween(steps, i, k) <==> RestartBetween(steps, i, k - 1) || steps[k - 1].DoRestart?
  {
    if RestartBetween(steps, i, k - 1) {
      var h :| i <= h < k - 1 && steps[h].DoRestart?;
      assert i <= h < k && steps[h].DoRestart?;
    }
  }

  /** A cancel accepted on a live job: it never ends COMPLETED, and unless the process
      restarts first the only terminal status it can reach is CANCELED. */
  lemma CanceledJobNeverCompletes(
    states: seq<Trainer>, steps: seq<Step>, limit: nat, i: nat, k: nat, id: JobId)
    requires Run(states, steps, limit) && i < k < |states|
    requires steps[i] == DoCancel(id) && id in states[i].rows && !Terminal(states[i].rows[id].status)
    ensures id in states[k].rows ==> !states[k].rows[id].status.Completed?
    ensures id in states[k].rows && Terminal(states[k].rows[id].status) && !RestartBetween(steps, i, k) ==>
              states[k].rows[id].status.Canceled?
  {
    CancelKeepsHolding(states, steps, limit, i, k, id);
  }

  /** `queued` lists exactly the QUEUED jobs, each once, in submission order. */
  lemma QueueIsSubmissionOrder(states: seq<Trainer>, steps: seq<Step>, limit: nat, k: nat)
    requires Run(states, steps, limit) && k < |states|
    ensures SortedIds(states[k].rows, QueuedIds(states[k]))
    ensures forall id :: id in states[k].rows && states[k].rows[id].status.Queued? <==> id in QueuedIds(states[k])
  {
    RunInv(states, steps, limit, k);
    PendingSorted(states[k].rows, states[k].order);
    forall id | id in states[k].rows && states[k].rows[id].status.Queued? ensures id in QueuedIds(states[k]) {
      PendingContents(states[k].rows, states[k].order, id);
    }
  }
}
