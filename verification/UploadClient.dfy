/**
 Studio's resuming uploader run against the trainer. Each attempt asks for the staged
 offset and sends the rest of the archive; the connection may fail at any point, also while
 the trainer extracts or after it has answered.
 */
module UploadClient {
  import opened Common
  import opened ContentRange
  import opened TrainerQueue
  import Upload

  type Bytes = Upload.Bytes

  const TRANSFER_RETRY_LIMIT: nat := 3

  datatype Client =
    | Asking(attempt: nat)
    | Ready(attempt: nat, offset: nat)
    | Sending(attempt: nat)
    | Waiting(attempt: nat)      // the body is sent, the reply is not read yet
    | Uploaded(replied: bool)    // reported success, after a reply or after asking
    | GaveUp

  datatype System = System(server: Upload.Server, client: Client, extracted: Option<Bytes>)

  const INITIAL := System(Upload.INITIAL, Asking(0), None)

  /** After an error: give up, or ask for the offset and go on. */
  function Retry(attempt: nat): Client {
    if attempt >= TRANSFER_RETRY_LIMIT then GaveUp else Asking(attempt + 1)
  }

  datatype Step =
    | Ask
    | AskFails
    | Send(room: bool)
    | SendChunk(data: Bytes)
    | SendEnd
    | ConnectionLost
    | ReadReply
    | Extract(verdict: Upload.Verdict)
    | Cancel
    | Restart

  predicate Enabled(s: System, step: Step, archive: Bytes) {
    match step
    case Ask => s.client.Asking?
    case AskFails => s.client.Asking?
    case Send(_) => s.client.Ready? && s.server.put.NoPut?
    case SendChunk(data) =>
      && s.client.Sending? && s.server.put.Receiving? && data != []
      && Upload.Sends(s.server, Upload.Chunk(data), archive)
    case SendEnd => s.client.Sending? && s.server.put.Receiving? && Upload.Position(s.server) == |archive|
    case ConnectionLost => s.client.Waiting? || (s.client.Sending? && s.server.put.Receiving?)
    case ReadReply => s.client.Waiting? && s.server.put.NoPut? && s.server.reply.Some?
    case Extract(_) => s.server.put.Extracting?
    case Cancel => true
    case Restart => true
  }

  /** `_get_upload_offset` and the top of the attempt loop. */
  function Asked(s: System, archive: Bytes): Client
    requires s.client.Asking?
  {
    if !s.server.status.Awaiting? then GaveUp
    else if Upload.Offset(s.server) == |archive| then Uploaded(false)
    else if Upload.Offset(s.server) > |archive| then GaveUp
    else Ready(s.client.attempt, Upload.Offset(s.server))
  }

  function Sent(s: System, room: bool, archive: Bytes): System
    requires s.client.Ready?
  {
    var r := Range(s.client.offset, if |archive| == 0 then 0 else |archive| - 1, |archive|);
    var server := Upload.Begin(s.server, Header(r), true, room);
    s.(server := server, client := if server.put.Receiving? then Sending(s.client.attempt) else Retry(s.client.attempt))
  }

  function Next(s: System, step: Step, archive: Bytes): System
    requires Enabled(s, step, archive)
  {
    match step
    case Ask => s.(client := Asked(s, archive))
    case AskFails => s.(client := GaveUp)
    case Send(room) => Sent(s, room, archive)
    case SendChunk(data) => s.(server := Upload.Write(s.server, data))
    case SendEnd => s.(server := Upload.EndBody(s.server), client := Waiting(s.client.attempt))
    case ConnectionLost =>
      s.(server := if s.client.Sending? then s.server.(put := Upload.NoPut, reply := None) else s.server,
         client := Retry(s.client.attempt))
    case ReadReply =>
      s.(client := if s.server.reply.value.code == 202 then Uploaded(true) else Retry(s.client.attempt))
    case Extract(verdict) =>
      s.(server := Upload.EndExtract(s.server, verdict),
         extracted := if verdict.Good? then Some(Upload.Staged(s.server)) else s.extracted)
    case Cancel => s.(server := Upload.Next(s.server, Upload.Cancel))
    case Restart =>
      s.(server := Upload.Next(s.server, Upload.Restart),
         client := if s.client.Sending? || s.client.Waiting? then Retry(s.client.attempt) else s.client)
  }

  ghost predicate Run(states: seq<System>, steps: seq<Step>, archive: Bytes) {
    && |states| == |steps| + 1
    && states[0] == INITIAL
    && forall i {:trigger steps[i]} :: 0 <= i < |steps| ==>
         Enabled(states[i], steps[i], archive) && states[i + 1] == Next(states[i], steps[i], archive)
  }

  /** A request whose range is the rest of the archive. */
  predicate SendsRest(range: Option<Range>, archive: Bytes) {
    range.Some? && range.value.end + 1 == range.value.total == |archive|
  }

  predicate Inv(s: System, archive: Bytes) {
    && Upload.Inv(s.server, archive)
    && (s.server.put.Receiving? <==> s.client.Sending?)
    && (s.server.put.Receiving? ==> SendsRest(s.server.put.range, archive))
    && (s.server.put.Extracting? ==> SendsRest(s.server.put.range, archive))
    && (s.client.Waiting? ==> s.server.put.Extracting? || s.server.reply.Some?)
    && (s.client.Waiting? && s.server.put.NoPut? && s.server.reply.value.code == 202 ==> s.extracted.Some?)
    && (s.client.Waiting? && s.extracted.Some? ==> s.server.reply.Some? && s.server.reply.value.code == 202)
    && (s.extracted.Some? ==>
          s.extracted.value == archive && !s.server.status.Awaiting? && s.server.put.NoPut?)
    && (s.client == Uploaded(true) ==> s.extracted.Some?)
    && (s.server.status.Queued? ==> s.extracted.Some?)
  }

  lemma SendKeepsInv(s: System, room: bool, archive: Bytes)
    requires Inv(s, archive) && Enabled(s, Send(room), archive)
    ensures Inv(Sent(s, room, archive), archive)
  {
    var r := Range(s.client.offset, if |archive| == 0 then 0 else |archive| - 1, |archive|);
    Upload.RangedBegin(s.server, r, room);
  }

  /** While the trainer extracts for this client, the whole archive is staged. */
  lemma ExtractingHasAll(s: System, archive: Bytes)
    requires Inv(s, archive) && s.server.put.Extracting?
    ensures s.server.file == Some(archive)
  {
    assert archive[..|archive|] == archive;
    assert Upload.Staged(s.server) == archive[..Upload.Offset(s.server)];
  }

  lemma ServerStepKeepsInv(s: System, step: Step, archive: Bytes)
    requires Inv(s, archive) && Enabled(s, step, archive)
    ensures Upload.Inv(Next(s, step, archive).server, archive)
  {
    match step
    case Send(room) => SendKeepsInv(s, room, archive);
    case SendChunk(data) => Upload.StepKeepsInv(s.server, Upload.Chunk(data), archive);
    case SendEnd => Upload.StepKeepsInv(s.server, Upload.BodyEnds, archive);
    case Extract(verdict) => Upload.StepKeepsInv(s.server, Upload.ExtractEnds(verdict), archive);
    case Cancel => Upload.StepKeepsInv(s.server, Upload.Cancel, archive);
    case Restart => Upload.StepKeepsInv(s.server, Upload.Restart, archive);
    case _ =>
  }

  lemma StepKeepsInv(s: System, step: Step, archive: Bytes)
    requires Inv(s, archive) && Enabled(s, step, archive)
    ensures Inv(Next(s, step, archive), archive)
  {
    ServerStepKeepsInv(s, step, archive);
    match step
    case Send(room) => SendKeepsInv(s, room, archive);
    case Extract(verdict) => ExtractingHasAll(s, archive);
    case _ =>
  }

  lemma {:induction false} RunInv(states: seq<System>, steps: seq<Step>, archive: Bytes, n: nat)
    requires Run(states, steps, archive) && n <= |steps|
    ensures Inv(states[n], archive)
  {
    if n > 0 {
      RunInv(states, steps, archive, n - 1);
      StepKeepsInv(states[n - 1], steps[n - 1], archive);
    }
  }

  // ------------------------------------------------------------------------ main results

  /** A client that reports success after a reply has had exactly its archive extracted. One
      that reports success after asking knows only that every byte is staged: the job still
      awaits its dataset. */
  lemma UploadedMeans(states: seq<System>, steps: seq<Step>, archive: Bytes, n: nat)
    requires Run(states, steps, archive) && n < |steps|
    requires !states[n].client.Uploaded? && states[n + 1].client.Uploaded?
    ensures states[n + 1].client.replied ==> states[n + 1].extracted == Some(archive)
    ensures !states[n + 1].client.replied ==>
              && Upload.Staged(states[n + 1].server) == archive
              && states[n + 1].server.status.Awaiting? && states[n + 1].extracted.None?
  {
    RunInv(states, steps, archive, n);
    RunInv(states, steps, archive, n + 1);
    assert archive[..|archive|] == archive;
    if steps[n].Ask? {
      var server := states[n].server;
      assert Upload.Staged(server) == archive[..Upload.Offset(server)];
    }
  }

  /** The client has reported, success or failure. */
  predicate Over(s: System) {
    s.client.Uploaded? || s.client.GaveUp?
  }

  /** The upload is over for the client and nobody extracts. */
  predicate Stuck(s: System) {
    Over(s) && s.server.put.NoPut? && !s.server.status.Queued?
  }

  /** A job left that way is never queued, whatever happens next. */
  lemma {:induction false} StuckForGood(states: seq<System>, steps: seq<Step>, archive: Bytes, n: nat, m: nat)
    requires Run(states, steps, archive) && n <= m <= |steps| && Stuck(states[n])
    ensures Stuck(states[m])
  {
    if n < m {
      StuckForGood(states, steps, archive, n, m - 1);
      assert Enabled(states[m - 1], steps[m - 1], archive);
    }
  }

  /** After either report, with the job still awaiting its dataset, it can be queued exactly while
      the trainer is extracting. So a reported success can be empty, and a reported failure can
      turn into a queued job, exactly then. */
  lemma ReportedCanBeQueuedIff(states: seq<System>, steps: seq<Step>, archive: Bytes, n: nat)
    requires Run(states, steps, archive) && n <= |steps|
    requires Over(states[n]) && states[n].server.status.Awaiting?
    ensures (exists step :: CanQueue(states[n], step, archive)) <==> states[n].server.put.Extracting?
    ensures Stuck(states[n]) <==> !states[n].server.put.Extracting?
  {
    RunInv(states, steps, archive, n);
    if states[n].server.put.Extracting? {
      assert CanQueue(states[n], Extract(Upload.Good), archive);
    }
  }

  predicate ExtractedBefore(steps: seq<Step>, n: nat)
    requires n <= |steps|
  {
    exists j :: 0 <= j < n && steps[j] == Extract(Upload.Good)
  }

  predicate CanceledBefore(steps: seq<Step>, n: nat)
    requires n <= |steps|
  {
    exists j :: 0 <= j < n && steps[j] == Cancel
  }

  predicate HistoryInv(s: System, extracted: bool, canceled: bool) {
    && (s.server.status.Queued? <==> extracted && !canceled)
    && (s.server.status.Awaiting? ==> !extracted && !canceled)
    && (!s.server.put.NoPut? && !canceled ==> s.server.status.Awaiting?)
  }

  lemma StepKeepsHistory(s: System, step: Step, archive: Bytes, extracted: bool, canceled: bool)
    requires Inv(s, archive) && HistoryInv(s, extracted, canceled) && Enabled(s, step, archive)
    ensures HistoryInv(Next(s, step, archive), extracted || step == Extract(Upload.Good), canceled || step == Cancel)
  {
    match step
    case Send(room) =>
    case Extract(verdict) =>
    case _ =>
  }

  lemma HistoryGrows(steps: seq<Step>, n: nat)
    requires n < |steps|
    ensures ExtractedBefore(steps, n + 1) <==> ExtractedBefore(steps, n) || steps[n] == Extract(Upload.Good)
    ensures CanceledBefore(steps, n + 1) <==> CanceledBefore(steps, n) || steps[n] == Cancel
  {
  }

  /** The job is queued exactly when a good extraction has happened and no cancel has. */
  lemma {:induction false} QueuedIff(states: seq<System>, steps: seq<Step>, archive: Bytes, n: nat)
    requires Run(states, steps, archive) && n <= |steps|
    ensures HistoryInv(states[n], ExtractedBefore(steps, n), CanceledBefore(steps, n))
  {
    if n > 0 {
      QueuedIff(states, steps, archive, n - 1);
      HistoryNext(states, steps, archive, n - 1);
    }
  }

  lemma HistoryNext(states: seq<System>, steps: seq<Step>, archive: Bytes, n: nat)
    requires Run(states, steps, archive) && n < |steps|
    requires HistoryInv(states[n], ExtractedBefore(steps, n), CanceledBefore(steps, n))
    ensures HistoryInv(states[n + 1], ExtractedBefore(steps, n + 1), CanceledBefore(steps, n + 1))
  {
    RunInv(states, steps, archive, n);
    HistoryGrows(steps, n);
    StepKeepsHistory(states[n], steps[n], archive, ExtractedBefore(steps, n), CanceledBefore(steps, n));
  }

  /** The whole body was sent and the reply to it never read. */
  predicate LostReply(states: seq<System>, steps: seq<Step>, n: nat)
    requires n <= |steps| < |states|
  {
    exists i :: 0 <= i < n && states[i].client.Waiting? && (steps[i].ConnectionLost? || steps[i].Restart?)
  }

  lemma {:induction false} ExtractionIsAwaitedOrLost(states: seq<System>, steps: seq<Step>, archive: Bytes, n: nat)
    requires Run(states, steps, archive) && n <= |steps|
    ensures states[n].server.put.Extracting? || states[n].extracted.Some? ==>
              states[n].client.Waiting? || states[n].client == Uploaded(true) || LostReply(states, steps, n)
  {
    if n > 0 {
      ExtractionIsAwaitedOrLost(states, steps, archive, n - 1);
      assert Enabled(states[n - 1], steps[n - 1], archive);
      RunInv(states, steps, archive, n - 1);
      RunInv(states, steps, archive, n);
      assert LostReply(states, steps, n) <==>
             LostReply(states, steps, n - 1)
             || (states[n - 1].client.Waiting? && (steps[n - 1].ConnectionLost? || steps[n - 1].Restart?));
    }
  }

  /** At the step with which the client gives up, its report of failure is already wrong exactly
      when a good extraction has happened and no cancel has; the reply that said so was lost. */
  lemma FailureIsWrongIff(states: seq<System>, steps: seq<Step>, archive: Bytes, n: nat)
    requires Run(states, steps, archive) && n < |steps|
    requires !states[n].client.GaveUp? && states[n + 1].client.GaveUp?
    ensures states[n + 1].server.status.Queued? <==> ExtractedBefore(steps, n + 1) && !CanceledBefore(steps, n + 1)
    ensures states[n + 1].server.status.Queued? ==> LostReply(states, steps, n + 1)
  {
    QueuedIff(states, steps, archive, n + 1);
    ExtractionIsAwaitedOrLost(states, steps, archive, n + 1);
    RunInv(states, steps, archive, n + 1);
  }

  // ---------------------------------------------------------------------- giving up

  /** How often the body was sent or begun in the first `n` steps. */
  function Sends(steps: seq<Step>, n: nat): nat
    requires n <= |steps|
  {
    if n == 0 then 0 else Sends(steps, n - 1) + if steps[n - 1].Send? then 1 else 0
  }

  /** What the client counts. */
  predicate Counts(client: Client, sends: nat) {
    match client
    case Asking(attempt) => sends == attempt <= 3
    case Ready(attempt, _) => sends == attempt <= 3
    case Sending(attempt) => sends == attempt + 1 <= 4
    case Waiting(attempt) => sends == attempt + 1 <= 4
    case _ => sends <= 4
  }

  /** An attempt that ends without success. */
  predicate AttemptFails(s: System, step: Step, archive: Bytes)
    requires Enabled(s, step, archive)
  {
    match step
    case Send(_) => !Next(s, step, archive).server.put.Receiving?
    case ConnectionLost => true
    case ReadReply => s.server.reply.value.code != 202
    case Restart => s.client.Sending? || s.client.Waiting?
    case _ => false
  }

  lemma CountsNext(s: System, step: Step, archive: Bytes, sends: nat)
    requires Inv(s, archive) && Enabled(s, step, archive) && Counts(s.client, sends)
    ensures var t := Next(s, step, archive); var more := sends + if step.Send? then 1 else 0;
            && Counts(t.client, more)
            && (!s.client.GaveUp? ==>
                  (t.client.GaveUp? <==>
                     || step.AskFails?
                     || (step.Ask? && !s.server.status.Awaiting?)
                     || (AttemptFails(s, step, archive) && more == 4)))
  {
    assert Upload.Offset(s.server) <= |archive|;
    match step
    case Send(_) =>
    case _ =>
  }

  lemma {:induction false} RunCounts(states: seq<System>, steps: seq<Step>, archive: Bytes, n: nat)
    requires Run(states, steps, archive) && n <= |steps|
    ensures Counts(states[n].client, Sends(steps, n))
  {
    if n > 0 {
      RunCounts(states, steps, archive, n - 1);
      RunInv(states, steps, archive, n - 1);
      assert Enabled(states[n - 1], steps[n - 1], archive)
             && states[n] == Next(states[n - 1], steps[n - 1], archive);
      CountsNext(states[n - 1], steps[n - 1], archive, Sends(steps, n - 1));
    }
  }

  /** In every run, the client sends at most four times, and gives up exactly when asking fails, the
      job no longer awaits its dataset, or its fourth attempt fails. */
  lemma GivesUpIff(states: seq<System>, steps: seq<Step>, archive: Bytes, n: nat)
    requires Run(states, steps, archive) && n < |steps| && !states[n].client.GaveUp?
    ensures Sends(steps, n + 1) <= 4 && Enabled(states[n], steps[n], archive)
    ensures states[n + 1].client.GaveUp? <==>
            || steps[n] == AskFails
            || (steps[n] == Ask && !states[n].server.status.Awaiting?)
            || (AttemptFails(states[n], steps[n], archive) && Sends(steps, n + 1) == 4)
  {
    RunInv(states, steps, archive, n);
    RunCounts(states, steps, archive, n);
    RunCounts(states, steps, archive, n + 1);
    assert Enabled(states[n], steps[n], archive) && states[n + 1] == Next(states[n], steps[n], archive);
    CountsNext(states[n], steps[n], archive, Sends(steps, n));
  }

  predicate CanQueue(s: System, step: Step, archive: Bytes) {
    Enabled(s, step, archive) && Next(s, step, archive).server.status.Queued?
  }

  // ----------------------------------------------------------------- the two bad endings

  const ARCHIVE: Bytes := [7]

  const RANGE := Range(0, 0, 1)

  /** The shared start: ask, send, the whole body. */
  function Begun(n: nat): System {
    match n
    case 0 => INITIAL
    case 1 => INITIAL.(client := Ready(0, 0))
    case 2 => System(Upload.Server(Awaiting, Some([]), Upload.Absent, Upload.Receiving(Some(RANGE), 0), None), Sending(0), None)
    case 3 =>
      System(Upload.Server(Awaiting, Some(ARCHIVE), Upload.Absent, Upload.Receiving(Some(RANGE), 1), None), Sending(0), None)
    case _ =>
      System(Upload.Server(Awaiting, Some(ARCHIVE), Upload.Absent, Upload.Extracting(Some(RANGE)), None), Waiting(0), None)
  }

  const BEGIN_STEPS: seq<Step> := [Ask, Send(true), SendChunk(ARCHIVE), SendEnd]

  lemma BegunStep(n: nat)
    requires n < 4
    ensures Enabled(Begun(n), BEGIN_STEPS[n], ARCHIVE)
    ensures Begun(n + 1) == Next(Begun(n), BEGIN_STEPS[n], ARCHIVE)
  {
    if n == 1 {
      Upload.RangedBegin(Upload.INITIAL, RANGE, true);
    } else if n == 2 {
      assert [] + ARCHIVE == ARCHIVE;
    }
  }

  lemma BegunRun(tail: seq<Step>, rest: seq<System>) returns (states: seq<System>, steps: seq<Step>)
    requires |tail| == |rest| > 0
    requires Enabled(Begun(4), tail[0], ARCHIVE) && rest[0] == Next(Begun(4), tail[0], ARCHIVE)
    requires forall i :: 0 < i < |tail| ==>
               Enabled(rest[i - 1], tail[i], ARCHIVE) && rest[i] == Next(rest[i - 1], tail[i], ARCHIVE)
    ensures Run(states, steps, ARCHIVE) && |states| == 5 + |rest| && states[5..] == rest
  {
    states := seq(5, i requires 0 <= i < 5 => Begun(i)) + rest;
    steps := BEGIN_STEPS + tail;
    forall i | 0 <= i < |steps|
      ensures Enabled(states[i], steps[i], ARCHIVE) && states[i + 1] == Next(states[i], steps[i], ARCHIVE)
    {
      if i < 4 {
        BegunStep(i);
      } else {
        assert steps[i] == tail[i - 4] && states[i + 1] == rest[i - 4];
        assert i > 4 ==> states[i] == rest[i - 5];
      }
    }
  }

  /** A failed extraction: the client asks again, finds every byte staged and reports success,
      and the job waits for its dataset for good. */
  lemma SuccessCanBeEmpty() returns (states: seq<System>, steps: seq<Step>)
    ensures Run(states, steps, ARCHIVE) && |steps| == 7
    ensures states[7].client == Uploaded(false) && Stuck(states[7]) && states[7].server.status.Awaiting?
  {
    var broken := Upload.EndExtract(Begun(4).server, Upload.Broken);
    var rest := [Begun(4).(server := broken), System(broken, Asking(1), None), System(broken, Uploaded(false), None)];
    states, steps := BegunRun([Extract(Upload.Broken), ReadReply, Ask], rest);
    assert states[7] == states[5..][2];
  }

  /** A lost reply: the archive is extracted and the job queued, but the client reports failure. */
  lemma FailureCanBeSuccess() returns (states: seq<System>, steps: seq<Step>)
    ensures Run(states, steps, ARCHIVE) && |steps| == 7
    ensures states[7].client == GaveUp && states[7].server.status.Queued? && states[7].extracted == Some(ARCHIVE)
  {
    var done := Upload.EndExtract(Begun(4).server, Upload.Good);
    var rest := [System(done, Waiting(0), Some(ARCHIVE)), System(done, Asking(1), Some(ARCHIVE)),
                 System(done, GaveUp, Some(ARCHIVE))];
    states, steps := BegunRun([Extract(Upload.Good), ConnectionLost, Ask], rest);
    assert states[7] == states[5..][2];
  }
}
