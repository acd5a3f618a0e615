/**
 * `uploadFile` of CreateCourse.js: the file goes out in 1 MiB chunks, one
 * request at a time and in order; the server's data is returned only when
 * the reply to the last chunk says the file was assembled.
 *
 * The server is an oracle `reply`: `reply(k)` is what the request for chunk k
 * yields, either a thrown error or a JSON body.
 */
module ChunkedUpload {
  import opened JsValues
  import opened Chunking

  /** A file as the upload sees it: its declared name and its byte length. */
  datatype FileRef = FileRef(name: string, size: nat)

  /** The JSON body of a reply to `POST upload`. */
  datatype ServerData = ServerData(message: string, fileName: string)

  /** A request that throws (transport failure or an error status), or one that answers. */
  datatype Reply = Thrown | Answered(data: ServerData)

  /** The multipart fields of one chunk request; the `file` field is the byte range [start, end). */
  datatype ChunkRequest = ChunkRequest(
    start: nat,
    end: nat,
    chunkNumber: nat,
    totalChunks: nat,
    filename: string,
    courseTitle: Option<string>,
    uploadType: Option<string>)

  /** What one call of `uploadFile` did: the value it returned, the chunk requests it sent, and whether it alerted. */
  datatype UploadRun = UploadRun(result: Option<ServerData>, sent: seq<ChunkRequest>, alerted: bool)

  const AssembledMessage: string := "File assembled successfully."

  /** The request built for chunk k; `course_title` and `upload_type` are attached only when truthy. */
  function RequestFor(file: FileRef, courseTitle: Option<string>, uploadType: Option<string>, k: nat): ChunkRequest {
    ChunkRequest(ChunkStart(k), ChunkEnd(file.size, k), k, TotalChunks(file.size), file.name,
                 KeepTruthy(courseTitle), KeepTruthy(uploadType))
  }

  /** The requests for chunks 0..n-1, in order. */
  function RequestsUpTo(file: FileRef, courseTitle: Option<string>, uploadType: Option<string>, n: nat): (rs: seq<ChunkRequest>)
    ensures |rs| == n
    ensures forall k :: 0 <= k < n ==> rs[k] == RequestFor(file, courseTitle, uploadType, k)
  {
    seq(n, k requires 0 <= k => RequestFor(file, courseTitle, uploadType, k))
  }

  /** The upload loop from chunk k on, with `sent` already sent. */
  function UploadFrom(file: FileRef, courseTitle: Option<string>, uploadType: Option<string>,
                      reply: nat -> Reply, k: nat, sent: seq<ChunkRequest>): UploadRun
    decreases TotalChunks(file.size) - k
  {
    if k >= TotalChunks(file.size) then UploadRun(None, sent, false)
    else
      var sent' := sent + [RequestFor(file, courseTitle, uploadType, k)];
      match reply(k)
      case Thrown => UploadRun(None, sent', true)
      case Answered(data) =>
        if data.message == AssembledMessage && k == TotalChunks(file.size) - 1 then UploadRun(Some(data), sent', false)
        else UploadFrom(file, courseTitle, uploadType, reply, k + 1, sent')
  }

  /** The whole upload of one file. */
  function Upload(file: FileRef, courseTitle: Option<string>, uploadType: Option<string>, reply: nat -> Reply): UploadRun {
    UploadFrom(file, courseTitle, uploadType, reply, 0, [])
  }

  /** Chunks 0..n-1 were all answered without throwing. */
  ghost predicate AnsweredUpTo(reply: nat -> Reply, n: nat) {
    forall j :: 0 <= j < n ==> reply(j).Answered?
  }

  /** Chunk i is the first whose request throws. */
  ghost predicate FirstThrowAt(reply: nat -> Reply, i: nat) {
    AnsweredUpTo(reply, i) && reply(i).Thrown?
  }

  /**
   * `uploadFile(file, courseTitle, uploadType)`. The result is the server's data
   * exactly as `Upload` describes; see the lemmas below for what that means.
   */
  method UploadFile(file: FileRef, courseTitle: Option<string>, uploadType: Option<string>, reply: nat -> Reply)
    returns (result: Option<ServerData>, sent: seq<ChunkRequest>, alerted: bool)
    ensures UploadRun(result, sent, alerted) == Upload(file, courseTitle, uploadType, reply)
  {
    var chunkSize := 1024 * 1024;
    var totalChunks := (file.size + chunkSize - 1) / chunkSize;
    var fileName := file.name;
    sent := [];
    var chunkNumber := 0;
    while chunkNumber < totalChunks
      invariant totalChunks == TotalChunks(file.size)
      invariant 0 <= chunkNumber <= totalChunks
      invariant UploadFrom(file, courseTitle, uploadType, reply, chunkNumber, sent) == Upload(file, courseTitle, uploadType, reply)
    {
      var start := chunkNumber * chunkSize;
      var end := if file.size < start + chunkSize then file.size else start + chunkSize;
      var title := if Truthy(courseTitle) then courseTitle else None;
      var tag := if Truthy(uploadType) then uploadType else None;
      sent := sent + [ChunkRequest(start, end, chunkNumber, totalChunks, fileName, title, tag)];
      match reply(chunkNumber)
      case Thrown =>
        return None, sent, true;
      case Answered(data) =>
        if data.message == AssembledMessage {
          if chunkNumber == totalChunks - 1 {
            return Some(data), sent, false;
          }
        }
      chunkNumber := chunkNumber + 1;
    }
    return None, sent, false;
  }

  /**
   * The shape of every run from chunk k on: the requests sent are those for
   * chunks 0, 1, 2, ... in order and never more than the chunk count; a result
   * is returned exactly when every chunk was answered and the last answer was
   * the assembly confirmation, and then it is that answer's data.
   */
  lemma {:induction false} UploadFromShape(file: FileRef, courseTitle: Option<string>, uploadType: Option<string>,
                                           reply: nat -> Reply, k: nat)
    requires k <= TotalChunks(file.size)
    requires AnsweredUpTo(reply, k)
    requires 0 < k == TotalChunks(file.size) ==> reply(k - 1).data.message != AssembledMessage
    ensures var run := UploadFrom(file, courseTitle, uploadType, reply, k, RequestsUpTo(file, courseTitle, uploadType, k));
      && k <= |run.sent| <= TotalChunks(file.size)
      && run.sent == RequestsUpTo(file, courseTitle, uploadType, |run.sent|)
      && (run.result.Some? <==>
            0 < TotalChunks(file.size) && AnsweredUpTo(reply, TotalChunks(file.size))
            && reply(TotalChunks(file.size) - 1).data.message == AssembledMessage)
      && (run.result.Some? ==> run.result == Some(reply(TotalChunks(file.size) - 1).data))
      && (run.result.Some? ==> |run.sent| == TotalChunks(file.size) && !run.alerted)
      && (run.alerted <==> exists i: nat :: k <= i < TotalChunks(file.size) && FirstThrowAt(reply, i))
    decreases TotalChunks(file.size) - k
  {
    var n := TotalChunks(file.size);
    var rs := RequestsUpTo(file, courseTitle, uploadType, k);
    if k < n {
      var rs' := RequestsUpTo(file, courseTitle, uploadType, k + 1);
      assert rs + [RequestFor(file, courseTitle, uploadType, k)] == rs';
      match reply(k)
      case Thrown =>
        assert FirstThrowAt(reply, k);
      case Answered(data) =>
        assert AnsweredUpTo(reply, k + 1);
        assert forall i: nat :: k <= i < n && FirstThrowAt(reply, i) ==> k + 1 <= i;
        if data.message == AssembledMessage && k == n - 1 {
        } else {
          UploadFromShape(file, courseTitle, uploadType, reply, k + 1);
          if k == n - 1 {
            var run := UploadFrom(file, courseTitle, uploadType, reply, k + 1, rs');
            assert run.result.None?;
          }
        }
    }
  }

  /**
   * The promises of `uploadFile` for every server behaviour:
   * chunk requests go out numbered 0, 1, 2, ... with the same total and file name,
   * never more than `TotalChunks`; the server data is returned if and only if every
   * chunk was answered and the answer to the LAST chunk is the assembly
   * confirmation (a confirmation on an earlier chunk does not end the loop), and
   * then it is that answer's data, every chunk was sent and nothing alerted; the
   * upload alerts exactly when some chunk's request throws.
   */
  lemma UploadContract(file: FileRef, courseTitle: Option<string>, uploadType: Option<string>, reply: nat -> Reply)
    ensures var run := Upload(file, courseTitle, uploadType, reply);
      && |run.sent| <= TotalChunks(file.size)
      && (forall k :: 0 <= k < |run.sent| ==> run.sent[k] == RequestFor(file, courseTitle, uploadType, k))
      && (run.result.Some? <==>
            0 < TotalChunks(file.size) && AnsweredUpTo(reply, TotalChunks(file.size))
            && reply(TotalChunks(file.size) - 1).data.message == AssembledMessage)
      && (run.result.Some? ==> run.result == Some(reply(TotalChunks(file.size) - 1).data))
      && (run.result.Some? ==> run.sent == RequestsUpTo(file, courseTitle, uploadType, TotalChunks(file.size)) && !run.alerted)
      && (run.alerted <==> exists i: nat :: i < TotalChunks(file.size) && FirstThrowAt(reply, i))
  {
    assert RequestsUpTo(file, courseTitle, uploadType, 0) == [];
    UploadFromShape(file, courseTitle, uploadType, reply, 0);
  }

  /**
   * If the request for chunk i throws (all earlier ones answered), the upload
   * alerts, returns nothing, and no chunk numbered above i is ever sent.
   */
  lemma UploadStopsAtThrow(file: FileRef, courseTitle: Option<string>, uploadType: Option<string>,
                           reply: nat -> Reply, i: nat)
    requires i < TotalChunks(file.size)
    requires AnsweredUpTo(reply, i) && reply(i).Thrown?
    ensures Upload(file, courseTitle, uploadType, reply)
         == UploadRun(None, RequestsUpTo(file, courseTitle, uploadType, i + 1), true)
  {
    assert RequestsUpTo(file, courseTitle, uploadType, 0) == [];
    ThrowFrom(file, courseTitle, uploadType, reply, i, 0);
  }

  lemma {:induction false} ThrowFrom(file: FileRef, courseTitle: Option<string>, uploadType: Option<string>,
                                     reply: nat -> Reply, i: nat, k: nat)
    requires k <= i < TotalChunks(file.size)
    requires AnsweredUpTo(reply, i) && reply(i).Thrown?
    ensures UploadFrom(file, courseTitle, uploadType, reply, k, RequestsUpTo(file, courseTitle, uploadType, k))
         == UploadRun(None, RequestsUpTo(file, courseTitle, uploadType, i + 1), true)
    decreases i - k
  {
    var rs' := RequestsUpTo(file, courseTitle, uploadType, k + 1);
    assert RequestsUpTo(file, courseTitle, uploadType, k) + [RequestFor(file, courseTitle, uploadType, k)] == rs';
    if k < i {
      assert reply(k).Answered?;
      ThrowFrom(file, courseTitle, uploadType, reply, i, k + 1);
    }
  }

  /**
   * A run in which every chunk is answered but the last answer is not the
   * assembly confirmation sends every chunk, raises no alert and returns nothing.
   */
  lemma UploadUnconfirmed(file: FileRef, courseTitle: Option<string>, uploadType: Option<string>, reply: nat -> Reply)
    requires AnsweredUpTo(reply, TotalChunks(file.size))
    requires TotalChunks(file.size) > 0 ==> reply(TotalChunks(file.size) - 1).data.message != AssembledMessage
    ensures Upload(file, courseTitle, uploadType, reply)
         == UploadRun(None, RequestsUpTo(file, courseTitle, uploadType, TotalChunks(file.size)), false)
  {
    assert RequestsUpTo(file, courseTitle, uploadType, 0) == [];
    UnconfirmedFrom(file, courseTitle, uploadType, reply, 0);
  }

  lemma {:induction false} UnconfirmedFrom(file: FileRef, courseTitle: Option<string>, uploadType: Option<string>,
                                           reply: nat -> Reply, k: nat)
    requires k <= TotalChunks(file.size)
    requires AnsweredUpTo(reply, TotalChunks(file.size))
    requires TotalChunks(file.size) > 0 ==> reply(TotalChunks(file.size) - 1).data.message != AssembledMessage
    ensures UploadFrom(file, courseTitle, uploadType, reply, k, RequestsUpTo(file, courseTitle, uploadType, k))
         == UploadRun(None, RequestsUpTo(file, courseTitle, uploadType, TotalChunks(file.size)), false)
    decreases TotalChunks(file.size) - k
  {
    if k < TotalChunks(file.size) {
      assert RequestsUpTo(file, courseTitle, uploadType, k) + [RequestFor(file, courseTitle, uploadType, k)]
          == RequestsUpTo(file, courseTitle, uploadType, k + 1);
      assert reply(k).Answered?;
      UnconfirmedFrom(file, courseTitle, uploadType, reply, k + 1);
    }
  }

  /** A zero-length file has no chunks: nothing is sent, nothing alerts, and the result is "none". */
  lemma EmptyFileYieldsNothing(file: FileRef, courseTitle: Option<string>, uploadType: Option<string>, reply: nat -> Reply)
    requires file.size == 0
    ensures Upload(file, courseTitle, uploadType, reply) == UploadRun(None, [], false)
  {
  }

  /** The byte ranges of the requests sent tile a prefix of the file: consecutive, non-empty, starting at 0. */
  lemma SentRangesTile(file: FileRef, courseTitle: Option<string>, uploadType: Option<string>, reply: nat -> Reply)
    ensures var sent := Upload(file, courseTitle, uploadType, reply).sent;
      && (|sent| > 0 ==> sent[0].start == 0)
      && (forall k :: 0 <= k < |sent| ==> sent[k].start < sent[k].end <= file.size)
      && (forall k :: 0 <= k < |sent| - 1 ==> sent[k].end == sent[k + 1].start)
      && (|sent| == TotalChunks(file.size) && |sent| > 0 ==> sent[|sent| - 1].end == file.size)
  {
    UploadContract(file, courseTitle, uploadType, reply);
    var sent := Upload(file, courseTitle, uploadType, reply).sent;
    forall k | 0 <= k < |sent|
      ensures sent[k].start < sent[k].end <= file.size
    {
      ChunkNonEmpty(file.size, k);
    }
    forall k | 0 <= k < |sent| - 1
      ensures sent[k].end == sent[k + 1].start
    {
      ChunksAdjacent(file.size, k);
    }
    if |sent| == TotalChunks(file.size) && |sent| > 0 {
      ChunksSpanFile(file.size);
    }
  }
}
