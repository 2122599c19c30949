/**
 The trainer's resumable dataset upload for one job, as a transition system: one request at
 a time stages bytes, and cancellation, a lost connection or a restart may come between any
 two chunks. Extraction runs in a thread while the job may still be canceled.
 */
module Upload {
  import opened Common
  import opened ContentRange
  import opened TrainerQueue

  newtype byte = x: int | 0 <= x < 256

  type Bytes = seq<byte>

  /** What the extraction directory holds; `Whole(b)` was extracted from the staged file `b`. */
  datatype Directory = Absent | Partial | Whole(archive: Bytes)

  /** A request being served; an unranged one declares no range. */
  datatype Put =
    | NoPut
    | Receiving(range: Option<Range>, written: nat)
    | Extracting(range: Option<Range>)

  datatype Reply = Reply(code: nat, offset: Option<nat>)

  datatype Server = Server(
    status: Status,
    file: Option<Bytes>,     // the staged .zip.part
    dir: Directory,
    put: Put,
    reply: Option<Reply>)    // of the request served last; None when its client was lost

  const INITIAL := Server(Awaiting, None, Absent, NoPut, None)

  function Staged(s: Server): Bytes {
    if s.file.Some? then s.file.value else []
  }

  /** `_upload_offset` */
  function Offset(s: Server): nat {
    |Staged(s)|
  }

  // ------------------------------------------------------------------------ a request

  function Answer(s: Server, code: nat, offset: Option<nat>): Server {
    s.(put := NoPut, reply := Some(Reply(code, offset)))
  }

  /** `_cleanup_upload` */
  function Cleaned(s: Server): Server {
    s.(file := None, dir := Absent)
  }

  /** `_parse_upload_range` for a declared range: the reply that refuses it, if any. */
  function RangeRefusal(s: Server, header: string): Option<Reply> {
    match Parse(header)
    case Bad(_) => Some(Reply(400, None))
    case Ok(r) => if r.start != Offset(s) then Some(Reply(409, Some(Offset(s)))) else None
  }

  function Declared(header: string): Option<Range> {
    match Parse(header) case Ok(r) => Some(r) case Bad(_) => None
  }

  /** Open the staged file: append after a non-zero start, otherwise truncate. */
  function Open(s: Server, range: Option<Range>): Server {
    var append := range.Some? && range.value.start > 0;
    s.(file := if append then Some(Staged(s)) else Some([]), put := Receiving(range, 0), reply := None)
  }

  /** The request up to its body. `room` is the headroom check, an absent header is empty. */
  function Begin(s: Server, header: string, zip: bool, room: bool): Server {
    if !s.status.Awaiting? then Answer(s, 409, None)
    else if !zip then Answer(s, 415, None)
    else if header != "" && RangeRefusal(s, header).Some? then
      s.(put := NoPut, reply := RangeRefusal(s, header))
    else if !room then Answer(Cleaned(s), 507, None)
    else Open(s, if header == "" then None else Declared(header))
  }

  /** One chunk of `_stream_body_to_disk`. */
  function Write(s: Server, data: Bytes): Server
    requires s.put.Receiving?
  {
    s.(file := Some(Staged(s) + data), put := Receiving(s.put.range, s.put.written + |data|))
  }

  /** The end of the body: `_validate_range_body_size`, then partial range or extraction. */
  function EndBody(s: Server): Server
    requires s.put.Receiving?
  {
    match s.put.range
    case None => s.(put := Extracting(None))
    case Some(r) =>
      if s.put.written != r.end - r.start + 1 then Answer(s, 400, None)
      else if r.end + 1 < r.total then Answer(s, 202, Some(r.end + 1))
      else s.(put := Extracting(Some(r)))
  }

  /** How validation and extraction end; `Broken` is any other exception. */
  datatype Verdict = Good | Invalid | NoSpace | Broken

  function EndExtract(s: Server, verdict: Verdict): Server
    requires s.put.Extracting?
  {
    match verdict
    case Good => MarkReady(s.(file := None, dir := Whole(Staged(s))))
    case Invalid => Answer(Cleaned(s), 400, None)
    case NoSpace => Answer(Cleaned(s), 507, None)
    case Broken => Answer(s.(dir := Partial), 500, None)
  }

  /** `mark_dataset_ready`, unless the job ended meanwhile, and the reply. */
  function MarkReady(s: Server): Server
    requires s.put.Extracting?
  {
    var offset := if s.put.range.Some? then Some(s.put.range.value.end + 1) else None;
    if s.status.Awaiting? then Answer(s.(status := Queued), 202, offset)
    else if s.status.Queued? then Answer(s, 202, offset)
    else Answer(Cleaned(s), 202, offset)
  }

  datatype Step =
    | BeginPut(header: string, zip: bool, room: bool)
    | Chunk(data: Bytes)
    | Lost
    | BodyEnds
    | ExtractEnds(verdict: Verdict)
    | Cancel
    | Restart

  predicate Enabled(s: Server, step: Step) {
    match step
    case BeginPut(_, _, _) => s.put.NoPut?
    case Chunk(_) => s.put.Receiving?
    case Lost => s.put.Receiving?
    case BodyEnds => s.put.Receiving?
    case ExtractEnds(_) => s.put.Extracting?
    case Cancel => true
    case Restart => true
  }

  function Next(s: Server, step: Step): Server
    requires Enabled(s, step)
  {
    match step
    case BeginPut(header, zip, room) => Begin(s, header, zip, room)
    case Chunk(data) => Write(s, data)
    case Lost => s.(put := NoPut, reply := None)
    case BodyEnds => EndBody(s)
    case ExtractEnds(verdict) => EndExtract(s, verdict)
    case Cancel => if s.status.Awaiting? || s.status.Queued? then s.(status := Canceled) else s
    case Restart => s.(status := if s.status.Awaiting? then Failed else s.status, put := NoPut, reply := None)
  }

  // -------------------------------------------------------------- bodies of one archive

  /** Where the next body byte belongs. */
  function Position(s: Server): nat
    requires s.put.Receiving?
  {
    (if s.put.range.Some? then s.put.range.value.start else 0) + s.put.written
  }

  /** Every body sends the bytes of `archive` from its declared start, as far as it goes. */
  predicate Sends(s: Server, step: Step, archive: Bytes) {
    step.Chunk? && s.put.Receiving? ==>
      var p := Position(s);
      p + |step.data| <= |archive| && step.data == archive[p..p + |step.data|]
  }

  ghost predicate Run(states: seq<Server>, steps: seq<Step>, archive: Bytes) {
    && |states| == |steps| + 1
    && states[0] == INITIAL
    && forall i {:trigger steps[i]} :: 0 <= i < |steps| ==>
         && Enabled(states[i], steps[i]) && Sends(states[i], steps[i], archive)
         && states[i + 1] == Next(states[i], steps[i])
  }

  predicate PutInv(s: Server) {
    match s.put
    case NoPut => true
    case Receiving(range, written) =>
      && s.file.Some? && Offset(s) == Position(s)
      && (range.Some? ==> ValidBounds(range.value))
    case Extracting(range) =>
      s.file.Some? && (range.Some? ==> range.value.end + 1 == range.value.total == Offset(s))
  }

  predicate Inv(s: Server, archive: Bytes) {
    && PutInv(s) && Staged(s) <= archive
    && (s.dir.Whole? ==> s.dir.archive <= archive)
    && (s.status.Queued? ==> s.dir.Whole? && s.put.NoPut?)
    && (s.status.Awaiting? ==> !s.dir.Whole?)
    && !s.status.Running? && !s.status.Completed?
  }

  lemma BeginKeepsInv(s: Server, header: string, zip: bool, room: bool, archive: Bytes)
    requires Inv(s, archive) && s.put.NoPut?
    ensures Inv(Begin(s, header, zip, room), archive)
  {
    DeclaredIsValid(header);
  }

  lemma DeclaredIsValid(header: string)
    ensures Parse(header).Ok? ==> ValidBounds(Parse(header).range)
  {
    if Parse(header).Ok? {
      ParseIff(header, Parse(header).range);
    }
  }

  lemma StepKeepsInv(s: Server, step: Step, archive: Bytes)
    requires Inv(s, archive) && Enabled(s, step) && Sends(s, step, archive)
    ensures Inv(Next(s, step), archive)
  {
    match step
    case BeginPut(header, zip, room) => BeginKeepsInv(s, header, zip, room, archive);
    case Chunk(data) =>
      var p := Position(s);
      assert Staged(s) == archive[..p];
      assert archive[..p] + archive[p..p + |data|] == archive[..p + |data|];
    case _ =>
  }

  lemma {:induction false} RunInv(states: seq<Server>, steps: seq<Step>, archive: Bytes, n: nat)
    requires Run(states, steps, archive) && n <= |steps|
    ensures Inv(states[n], archive)
  {
    if n > 0 {
      RunInv(states, steps, archive, n - 1);
      StepKeepsInv(states[n - 1], steps[n - 1], archive);
    }
  }

  // ------------------------------------------------------------------------ main results

  /** Through drops, short and long bodies, retries, cancellation and restarts, what is staged
      is a prefix of the client's archive. */
  lemma StagedIsPrefix(states: seq<Server>, steps: seq<Step>, archive: Bytes, n: nat)
    requires Run(states, steps, archive) && n <= |steps|
    ensures Staged(states[n]) <= archive
  {
    RunInv(states, steps, archive, n);
  }

  /** A ranged upload reaches extraction only with exactly its declared total staged; with the
      true total that is the whole archive. */
  lemma RangedExtractionIsComplete(states: seq<Server>, steps: seq<Step>, archive: Bytes, n: nat)
    requires Run(states, steps, archive) && n <= |steps|
    requires states[n].put.Extracting? && states[n].put.range.Some?
    ensures Offset(states[n]) == states[n].put.range.value.total <= |archive|
    ensures states[n].put.range.value.total == |archive| ==> states[n].file == Some(archive)
  {
    RunInv(states, steps, archive, n);
    assert archive[..|archive|] == archive;
    assert Staged(states[n]) == archive[..Offset(states[n])];
  }

  /** The end of a ranged
      body leads to extraction exactly when it filled its range and its range ends the total. */
  lemma BodyEndIff(s: Server)
    requires PutInv(s) && s.put.Receiving? && s.put.range.Some?
    ensures var r := s.put.range.value; var t := EndBody(s);
            && Staged(t) == Staged(s)
            && (t.put.Extracting? <==> s.put.written == r.end - r.start + 1 && Offset(s) == r.total)
            && (t.reply == Some(Reply(202, Some(Offset(s)))) && t.put.NoPut? <==>
                  s.put.written == r.end - r.start + 1 && Offset(s) < r.total)
            && (s.put.written != r.end - r.start + 1 ==> t.reply == Some(Reply(400, None)) && t.put.NoPut?)
  {
  }

  /** An upload offset in an accepting reply is the number of bytes that are safe: staged, or
      already extracted. */
  predicate ReplyInv(s: Server) {
    s.reply.Some? && s.reply.value.code == 202 && s.reply.value.offset.Some? && s.put.NoPut? ==>
      s.reply.value.offset.value == Offset(s) || (s.file.None? && !s.status.Awaiting?)
  }

  lemma AcceptedOffsetIsStaged(states: seq<Server>, steps: seq<Step>, archive: Bytes, n: nat)
    requires Run(states, steps, archive) && n <= |steps|
    ensures ReplyInv(states[n])
  {
    if n > 0 {
      RunInv(states, steps, archive, n - 1);
      AcceptedOffsetIsStaged(states, steps, archive, n - 1);
      var s, step := states[n - 1], steps[n - 1];
      if step.BeginPut? {
        BeginKeepsReply(s, step.header, step.zip, step.room);
      } else if step.BodyEnds? && s.put.range.Some? {
        BodyEndIff(s);
      }
    }
  }

  lemma BeginKeepsReply(s: Server, header: string, zip: bool, room: bool)
    ensures ReplyInv(Begin(s, header, zip, room))
  {
  }

  // ---------------------------------------------------------------------------- resuming

  /** A well-formed ranged request with the true total gets as far as its body. */
  ghost predicate Resumable(s: Server, archive: Bytes) {
    exists r: Range ::
      ValidBounds(r) && r.total == |archive| && Begin(s, Header(r), true, true).put == Receiving(Some(r), 0)
  }

  /** What a well-formed ranged request meets, in the order the trainer looks. */
  lemma RangedBegin(s: Server, r: Range, room: bool)
    ensures Begin(s, Header(r), true, room) ==
            if !s.status.Awaiting? then Answer(s, 409, None)
            else if !ValidBounds(r) then Answer(s, 400, None)
            else if r.start != Offset(s) then Answer(s, 409, Some(Offset(s)))
            else if !room then Answer(Cleaned(s), 507, None)
            else Open(s, Some(r))
  {
    ParseOfHeader(r);
    assert Header(r)[0] == 'b';
  }

  /** A ranged upload with the true total can be resumed exactly while bytes are missing. Once
      the whole archive is staged and not extracted, no such request is accepted any more. */
  lemma ResumableIff(states: seq<Server>, steps: seq<Step>, archive: Bytes, n: nat)
    requires Run(states, steps, archive) && n <= |steps| && states[n].put.NoPut?
    ensures Resumable(states[n], archive) <==> states[n].status.Awaiting? && Offset(states[n]) < |archive|
  {
    var s := states[n];
    RunInv(states, steps, archive, n);
    forall r: Range
      ensures Begin(s, Header(r), true, true).put == Receiving(Some(r), 0) <==>
              s.status.Awaiting? && ValidBounds(r) && r.start == Offset(s)
    {
      RangedBegin(s, r, true);
    }
    if s.status.Awaiting? && Offset(s) < |archive| {
      var r := Range(Offset(s), |archive| - 1, |archive|);
      assert Begin(s, Header(r), true, true).put == Receiving(Some(r), 0);
    }
  }

  const MADE_OF_ONE: Bytes := [7]

  const BROKEN_STEPS: seq<Step> := [
    BeginPut(Header(Range(0, 0, 1)), true, true), Chunk(MADE_OF_ONE), BodyEnds, ExtractEnds(Broken)
  ]

  function BrokenState(n: nat): Server {
    var range := Some(Range(0, 0, 1));
    match n
    case 0 => INITIAL
    case 1 => Server(Awaiting, Some([]), Absent, Receiving(range, 0), None)
    case 2 => Server(Awaiting, Some(MADE_OF_ONE), Absent, Receiving(range, 1), None)
    case 3 => Server(Awaiting, Some(MADE_OF_ONE), Absent, Extracting(range), None)
    case _ => Server(Awaiting, Some(MADE_OF_ONE), Partial, NoPut, Some(Reply(500, None)))
  }

  lemma BrokenStep(n: nat)
    requires n < 4
    ensures Enabled(BrokenState(n), BROKEN_STEPS[n]) && Sends(BrokenState(n), BROKEN_STEPS[n], MADE_OF_ONE)
    ensures BrokenState(n + 1) == Next(BrokenState(n), BROKEN_STEPS[n])
  {
    if n == 0 {
      RangedBegin(INITIAL, Range(0, 0, 1), true);
    } else if n == 1 {
      assert [] + MADE_OF_ONE == MADE_OF_ONE;
    }
  }

  lemma BrokenRun() returns (states: seq<Server>)
    ensures Run(states, BROKEN_STEPS, MADE_OF_ONE) && states[4] == BrokenState(4)
  {
    states := seq(5, i requires 0 <= i < 5 => BrokenState(i));
    forall i | 0 <= i < 4
      ensures Enabled(states[i], BROKEN_STEPS[i]) && Sends(states[i], BROKEN_STEPS[i], MADE_OF_ONE)
      ensures states[i + 1] == Next(states[i], BROKEN_STEPS[i])
    {
      BrokenStep(i);
    }
  }

  /** The whole archive can be left staged: extraction fails for a reason that is neither the
      archive's nor the disk's, and no ranged request is accepted afterwards. */
  lemma BrokenExtractionBlocksResume() returns (states: seq<Server>)
    ensures Run(states, BROKEN_STEPS, MADE_OF_ONE)
    ensures states[4].status.Awaiting? && states[4].put.NoPut? && states[4].file == Some(MADE_OF_ONE)
    ensures !Resumable(states[4], MADE_OF_ONE)
  {
    states := BrokenRun();
    ResumableIff(states, BROKEN_STEPS, MADE_OF_ONE, 4);
  }

  /** A queued job's dataset came from the archive, whole if the upload was ranged with the true total. */
  lemma QueuedMeansExtracted(states: seq<Server>, steps: seq<Step>, archive: Bytes, n: nat)
    requires Run(states, steps, archive) && n < |steps|
    requires !states[n].status.Queued? && states[n + 1].status.Queued?
    ensures states[n].status.Awaiting? && states[n].put.Extracting? && steps[n] == ExtractEnds(Good)
    ensures states[n + 1].dir == Whole(Staged(states[n])) && states[n + 1].file.None?
    ensures states[n].put.range.Some? && states[n].put.range.value.total == |archive| ==>
              states[n + 1].dir == Whole(archive)
  {
    RunInv(states, steps, archive, n);
    assert Enabled(states[n], steps[n]);
    assert archive[..|archive|] == archive;
    assert Staged(states[n]) == archive[..Offset(states[n])];
  }

  // ------------------------------------------------------------------- what requests leave

  /** A refused request leaves what is staged alone, except that lack of room discards it; an
      accepted one goes on from there, unless it declares no range and so starts over. */
  lemma RequestOutcome(s: Server, header: string, zip: bool, room: bool)
    ensures var t := Begin(s, header, zip, room);
            var refused := !s.status.Awaiting? || !zip
                           || (header != "" && (Parse(header).Bad? || Parse(header).range.start != |Staged(s)|));
            && t.status == s.status
            && (t.put.Receiving? <==> !refused && room)
            && (t.put.Receiving? ==> Staged(t) == if header == "" then [] else Staged(s))
            && (refused ==> Staged(t) == Staged(s) && t.dir == s.dir && t.reply.Some? && t.reply.value.code != 202)
            && (!refused && !room ==>
                  Staged(t) == [] && t.dir.Absent? && t.reply == Some(Reply(507, None)))
  {
  }

  /** In every run, a good extraction queues a job that still awaits its dataset and leaves nothing
      on disk for one that has ended; a bad archive or a full disk leaves nothing to resume; any
      other failure keeps every staged byte. Each is answered with its own code. */
  lemma ExtractionOutcome(states: seq<Server>, steps: seq<Step>, archive: Bytes, n: nat, verdict: Verdict)
    requires Run(states, steps, archive) && n < |steps| && steps[n] == ExtractEnds(verdict)
    ensures states[n].put.Extracting? && states[n + 1].put.NoPut? && states[n + 1].reply.Some?
    ensures var s, t := states[n], states[n + 1];
            var code := t.reply.value.code;
            match verdict
            case Good =>
              && code == 202
              && (s.put.range.Some? ==> t.reply.value.offset == Some(s.put.range.value.total))
              && if s.status.Awaiting? then t.status.Queued? && t.dir == Whole(Staged(s)) && t.file.None?
                 else t.status == s.status && t.dir.Absent? && t.file.None?
            case Invalid => code == 400 && t.status == s.status && t.dir.Absent? && t.file.None?
            case NoSpace => code == 507 && t.status == s.status && t.dir.Absent? && t.file.None?
            case Broken => code == 500 && t.status == s.status && t.file == s.file
  {
    RunInv(states, steps, archive, n);
    assert Enabled(states[n], steps[n]) && states[n + 1] == Next(states[n], steps[n]);
  }

  /** In every run, a job leaves the awaiting state by a good extraction, a cancel or a restart, and
      the queued state only by a cancel. */
  lemma UploadLife(states: seq<Server>, steps: seq<Step>, archive: Bytes, n: nat)
    requires Run(states, steps, archive) && n < |steps|
    ensures states[n + 1].status ==
            match states[n].status
            case Awaiting =>
              if steps[n] == ExtractEnds(Good) then Queued else if steps[n] == Cancel then Canceled
              else if steps[n] == Restart then Failed else Awaiting
            case Queued => if steps[n] == Cancel then Canceled else Queued
            case _ => states[n].status
  {
    assert Enabled(states[n], steps[n]) && states[n + 1] == Next(states[n], steps[n]);
  }
}
