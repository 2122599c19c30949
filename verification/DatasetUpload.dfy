/**
 The upload endpoint of one job as an object: a request served without interference, tied to
 the steps of `Upload`.
 */
module DatasetUpload {
  import opened Common
  import opened ContentRange
  import opened TrainerQueue
  import opened Upload

  function Flatten(chunks: seq<Bytes>): Bytes {
    if chunks == [] then [] else Flatten(chunks[..|chunks| - 1]) + chunks[|chunks| - 1]
  }

  function Writes(s: Server, chunks: seq<Bytes>): (t: Server)
    requires s.put.Receiving?
    ensures t.put.Receiving?
  {
    if chunks == [] then s else Write(Writes(s, chunks[..|chunks| - 1]), chunks[|chunks| - 1])
  }

  lemma {:induction false} WritesAppend(s: Server, chunks: seq<Bytes>)
    requires s.put.Receiving? && s.file.Some?
    ensures Writes(s, chunks) == s.(file := Some(s.file.value + Flatten(chunks)),
                                    put := Receiving(s.put.range, s.put.written + |Flatten(chunks)|))
  {
    if chunks != [] {
      WritesAppend(s, chunks[..|chunks| - 1]);
      var before, last := Flatten(chunks[..|chunks| - 1]), chunks[|chunks| - 1];
      assert s.file.value + before + last == s.file.value + (before + last);
    } else {
      assert s.file.value + [] == s.file.value;
    }
  }

  /** A body's end, and the extraction it may lead to. */
  function Ended(s: Server, verdict: Verdict): Server
    requires s.put.Receiving?
  {
    var ended := EndBody(s);
    if ended.put.Extracting? then EndExtract(ended, verdict) else ended
  }

  /** The steps of one request with no other step in between. */
  function Serve(s: Server, header: string, zip: bool, room: bool, chunks: seq<Bytes>, lost: bool, verdict: Verdict)
    : Server
  {
    var begun := Upload.Begin(s, header, zip, room);
    if !begun.put.Receiving? then begun
    else
      var received := Writes(begun, chunks);
      if lost then received.(put := NoPut, reply := None) else Ended(received, verdict)
  }

  class DatasetUpload {
    var status: Status
    var file: Option<Bytes>
    var dir: Directory

    ghost function State(reply: Option<Reply>): Server
      reads this
    {
      Server(status, file, dir, NoPut, reply)
    }

    constructor ()
      ensures State(None) == INITIAL
    {
      status, file, dir := Awaiting, None, Absent;
    }

    /** `_stream_body_to_disk` */
    method StreamBody(chunks: seq<Bytes>, append: bool) returns (written: nat)
      modifies this`file
      ensures written == |Flatten(chunks)|
      ensures file == Some((if append && old(file).Some? then old(file).value else []) + Flatten(chunks))
    {
      var out := if append && file.Some? then file.value else [];
      ghost var start := out;
      written := 0;
      for i := 0 to |chunks|
        invariant written == |Flatten(chunks[..i])| && out == start + Flatten(chunks[..i])
      {
        assert chunks[..i + 1][..i] == chunks[..i];
        out := out + chunks[i];
        written := written + |chunks[i]|;
      }
      assert chunks[..|chunks|] == chunks;
      file := Some(out);
    }

    method CleanUp()
      modifies this`file, this`dir
      ensures file.None? && dir.Absent?
    {
      file, dir := None, Absent;
    }

    method MarkDatasetReady()
      modifies this`status
      ensures status == if old(status).Awaiting? then Queued else old(status)
    {
      if status.Awaiting? {
        status := Queued;
      }
    }

    /** `_parse_upload_range`: the declared range, or the reply that refuses the request. */
    method ParseUploadRange(header: string) returns (range: Option<Range>, refusal: Option<Reply>)
      ensures refusal == if header == "" then None else RangeRefusal(State(None), header)
      ensures refusal.None? ==> range == if header == "" then None else Declared(header)
    {
      if header == "" {
        return None, None;
      }
      match Parse(header)
      case Bad(_) =>
        return None, Some(Reply(400, None));
      case Ok(r) =>
        var offset := if file.Some? then |file.value| else 0;
        return Some(r), if r.start != offset then Some(Reply(409, Some(offset))) else None;
    }

    /** The end of a complete body: extraction, then the new status. */
    method Extract(range: Option<Range>, verdict: Verdict) returns (reply: Option<Reply>)
      requires file.Some?
      modifies this
      ensures State(reply) == EndExtract(old(State(None)).(put := Extracting(range)), verdict)
    {
      match verdict
      case Good =>
        dir := Whole(file.value);
        file := None;
        MarkDatasetReady();
        if !status.Queued? {
          CleanUp();
        }
        return Some(Reply(202, if range.Some? then Some(range.value.end + 1) else None));
      case Invalid =>
        CleanUp();
        return Some(Reply(400, None));
      case NoSpace =>
        CleanUp();
        return Some(Reply(507, None));
      case Broken =>
        dir := Partial;
        return Some(Reply(500, None));
    }

    /** What follows the body. */
    method FinishBody(range: Option<Range>, written: nat, verdict: Verdict) returns (reply: Option<Reply>)
      requires file.Some?
      modifies this
      ensures State(reply) == Ended(old(State(None)).(put := Receiving(range, written)), verdict)
    {
      if range.Some? {
        if written != range.value.end - range.value.start + 1 {
          return Some(Reply(400, None));
        }
        if range.value.end + 1 < range.value.total {
          return Some(Reply(202, Some(range.value.end + 1)));
        }
      }
      reply := Extract(range, verdict);
    }

    /** `upload_dataset`; `lost` says that the connection fails after these chunks. */
    method UploadDataset(header: string, zip: bool, room: bool, chunks: seq<Bytes>, lost: bool, verdict: Verdict)
      returns (reply: Option<Reply>)
      modifies this
      ensures State(reply) == Serve(old(State(None)), header, zip, room, chunks, lost, verdict)
    {
      ghost var begun := Upload.Begin(State(None), header, zip, room);
      if !status.Awaiting? {
        return Some(Reply(409, None));
      }
      if !zip {
        return Some(Reply(415, None));
      }
      var range, refusal := ParseUploadRange(header);
      if refusal.Some? {
        return refusal;
      }
      if !room {
        CleanUp();
        return Some(Reply(507, None));
      }
      assert begun == Open(State(None), range);
      WritesAppend(begun, chunks);
      var written := StreamBody(chunks, range.Some? && range.value.start > 0);
      if lost {
        return None;
      }
      reply := FinishBody(range, written, verdict);
    }
  }
}
