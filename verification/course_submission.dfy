/**
 * `handleSubmit` and its inner `handleFileUpload` of CreateCourse.js: upload
 * the image, then the course videos, quiz videos and live-session videos one
 * file at a time, collect the returned names into the multipart payload, add
 * the scalar fields and post once; on 201 clear the form.
 *
 * The server is an oracle: `server(u)(k)` is the reply to chunk k of the u-th
 * upload of this submission (uploads are numbered in the order they start).
 */
module CourseSubmission {
  import opened JsValues
  import opened ChunkedUpload

  /** The three collections `handleFileUpload` is called on, with their `type` argument. */
  datatype VideoKind = Course | Quiz | LiveSession

  /** The `type` string passed to `uploadFile` as `upload_type`. */
  function TypeTag(kind: VideoKind): string {
    match kind
    case Course => "course"
    case Quiz => "quiz"
    case LiveSession => "live_session"
  }

  /** The multipart key each returned name is appended under. */
  function NamesKey(kind: VideoKind): string {
    match kind
    case Course => "course_video_names[]"
    case Quiz => "quiz_video_names[]"
    case LiveSession => "live_session_video_names[]"
  }

  /** One multipart entry, `formData.append(key, value)`. */
  type Field = (string, string)

  type Server = nat -> nat -> Reply

  /** `new File([file], `${title}_${file.name}`)`: the same bytes under the name "title_name". */
  function Renamed(title: string, file: FileRef): (r: FileRef)
    ensures r.size == file.size
    ensures |r.name| == |title| + 1 + |file.name|
    ensures r.name[..|title|] == title && r.name[|title|] == '_' && r.name[|title| + 1..] == file.name
  {
    FileRef(title + "_" + file.name, file.size)
  }

  /** One `uploadFile` call of the submission, and the key its returned `fileName` goes under. */
  datatype UploadCall = UploadCall(file: FileRef, courseTitle: Option<string>, uploadType: Option<string>, key: string)

  /** The form's state fields that the submission reads and resets. */
  datatype FormState = FormState(
    title: string, price: string, usd: string, description: string, author: string,
    category: string, courseType: string, image: Option<FileRef>,
    videos: seq<FileRef>, quizzes: seq<FileRef>, liveSessions: seq<FileRef>)

  /** The state after a 201: everything but the author emptied. */
  function Cleared(f: FormState): FormState {
    f.(title := "", price := "", usd := "", description := "", category := "", courseType := "",
       image := None, videos := [], quizzes := [], liveSessions := [])
  }

  /** `uploadFile(image, title)`: tagged with the title only, no upload type. */
  function ImageCalls(f: FormState): seq<UploadCall> {
    if f.image.Some? then [UploadCall(f.image.value, Some(f.title), None, "image_name")] else []
  }

  /** The call `handleFileUpload` makes for one file: renamed, tagged with the title and the kind. */
  function VideoCall(title: string, file: FileRef, kind: VideoKind): UploadCall {
    UploadCall(Renamed(title, file), Some(title), Some(TypeTag(kind)), NamesKey(kind))
  }

  function BatchCalls(title: string, files: seq<FileRef>, kind: VideoKind): (r: seq<UploadCall>)
    ensures |r| == |files|
    ensures forall i :: 0 <= i < |files| ==> r[i] == VideoCall(title, files[i], kind)
  {
    seq(|files|, i requires 0 <= i < |files| => VideoCall(title, files[i], kind))
  }

  /** Every upload a submission of `f` would make, in the order it makes them. */
  function Plan(f: FormState): seq<UploadCall> {
    ImageCalls(f) + BatchCalls(f.title, f.videos, Course) + BatchCalls(f.title, f.quizzes, Quiz)
      + BatchCalls(f.title, f.liveSessions, LiveSession)
  }

  /** The scalar fields appended after the uploads, in the source's order. */
  function Scalars(f: FormState): seq<Field> {
    [("title", f.title), ("price", f.price), ("usd", f.usd), ("description", f.description),
     ("author", f.author), ("category", f.category), ("type", f.courseType)]
  }

  /**
   * Where the upload phase stands: the payload so far, the calls started, every
   * chunk request sent, and whether an upload came back empty (in the source,
   * reading `.fileName` of `undefined` then throws out of `handleSubmit`).
   */
  datatype Progress = Progress(fields: seq<Field>, calls: seq<UploadCall>, sent: seq<ChunkRequest>, aborted: bool)

  const Start: Progress := Progress([], [], [], false)

  function UploadOf(call: UploadCall, reply: nat -> Reply): UploadRun {
    Upload(call.file, call.courseTitle, call.uploadType, reply)
  }

  /** One upload of the plan; nothing happens once aborted. */
  function Step(p: Progress, call: UploadCall, server: Server): Progress {
    if p.aborted then p
    else
      var run := UploadOf(call, server(|p.calls|));
      match run.result
      case None => Progress(p.fields, p.calls + [call], p.sent + run.sent, true)
      case Some(data) => Progress(p.fields + [(call.key, data.fileName)], p.calls + [call], p.sent + run.sent, false)
  }

  function Fold(p: Progress, plan: seq<UploadCall>, server: Server): Progress
    decreases |plan|
  {
    if plan == [] then p else Step(Fold(p, plan[..|plan| - 1], server), plan[|plan| - 1], server)
  }

  /** How a create request ends: with a status, or by throwing. */
  datatype CreateReply = Status(code: int) | Rejected

  datatype Outcome = Aborted | Created | Failed

  /** `adminCustomFetch.post(`${category}/create`, formData)`. */
  datatype CreatePost = CreatePost(endpoint: string, fields: seq<Field>)

  /** What one submission did: its outcome, the uploads it started, the chunks it sent, the create request if any. */
  datatype Submission = Submission(outcome: Outcome, calls: seq<UploadCall>, sent: seq<ChunkRequest>, post: Option<CreatePost>)

  const AdminCoursesRoute: string := "/admin/courses"

  /** The specification of `handleSubmit` on a form `f`. */
  function Submit(f: FormState, server: Server, reply: CreateReply): Submission {
    var p := Fold(Start, Plan(f), server);
    if p.aborted then Submission(Aborted, p.calls, p.sent, None)
    else
      Submission(if reply == Status(201) then Created else Failed, p.calls, p.sent,
                 Some(CreatePost(f.category + "/create", p.fields + Scalars(f))))
  }

  // ---------------------------------------------------------------------------
  // Reference definitions: what a run of the plan yields, stated without Fold.

  predicate Succeeds(plan: seq<UploadCall>, server: Server, i: nat)
    requires i < |plan|
  {
    UploadOf(plan[i], server(i)).result.Some?
  }

  predicate AllSucceed(plan: seq<UploadCall>, server: Server, n: nat)
    requires n <= |plan|
  {
    forall i :: 0 <= i < n ==> Succeeds(plan, server, i)
  }

  /** The entry upload i contributes: its returned name under its call's key. */
  function NameOf(plan: seq<UploadCall>, server: Server, i: nat): Field
    requires i < |plan| && Succeeds(plan, server, i)
  {
    (plan[i].key, UploadOf(plan[i], server(i)).result.value.fileName)
  }

  /** The names of the first n uploads, each under its call's key, in upload order. */
  function Names(plan: seq<UploadCall>, server: Server, n: nat): (r: seq<Field>)
    requires n <= |plan| && AllSucceed(plan, server, n)
    ensures |r| == n
    ensures forall i :: 0 <= i < n ==> r[i] == NameOf(plan, server, i)
  {
    if n == 0 then [] else Names(plan, server, n - 1) + [NameOf(plan, server, n - 1)]
  }

  /** Every chunk request of the first n uploads, upload after upload. */
  function SentBy(plan: seq<UploadCall>, server: Server, n: nat): seq<ChunkRequest>
    requires n <= |plan|
  {
    if n == 0 then [] else SentBy(plan, server, n - 1) + UploadOf(plan[n - 1], server(n - 1)).sent
  }

  // ---------------------------------------------------------------------------
  // Lemmas about Fold.

  lemma {:induction false} FoldAppend(p: Progress, a: seq<UploadCall>, b: seq<UploadCall>, server: Server)
    ensures Fold(p, a + b, server) == Fold(Fold(p, a, server), b, server)
    decreases |b|
  {
    if b == [] {
      assert a + b == a;
    } else {
      var b' := b[..|b| - 1];
      assert (a + b)[..|a + b| - 1] == a + b';
      assert (a + b)[|a + b| - 1] == b[|b| - 1];
      FoldAppend(p, a, b', server);
    }
  }

  /** Once an upload has come back empty, no further upload starts and nothing changes. */
  lemma {:induction false} FoldAborted(p: Progress, plan: seq<UploadCall>, server: Server)
    requires p.aborted
    ensures Fold(p, plan, server) == p
    decreases |plan|
  {
    if plan != [] {
      FoldAborted(p, plan[..|plan| - 1], server);
    }
  }

  /** When the first n uploads all succeed, the run has started exactly those, with their names in order. */
  lemma {:induction false} FoldAllSucceed(plan: seq<UploadCall>, server: Server, n: nat)
    requires n <= |plan| && AllSucceed(plan, server, n)
    ensures Fold(Start, plan[..n], server) == Progress(Names(plan, server, n), plan[..n], SentBy(plan, server, n), false)
  {
    if n > 0 {
      FoldAllSucceed(plan, server, n - 1);
      var prev := Fold(Start, plan[..n - 1], server);
      var run := UploadOf(plan[n - 1], server(n - 1));
      assert plan[..n - 1] + [plan[n - 1]] == plan[..n];
      assert Succeeds(plan, server, n - 1);
      calc {
        Fold(Start, plan[..n], server);
        { FoldPrefixStep(Start, plan, n - 1, server); }
        Step(prev, plan[n - 1], server);
        Progress(prev.fields + [NameOf(plan, server, n - 1)], prev.calls + [plan[n - 1]], prev.sent + run.sent, false);
      }
    }
  }

  /** Running one more upload of a plan extends the run by one step. */
  lemma FoldPrefixStep(p: Progress, plan: seq<UploadCall>, i: nat, server: Server)
    requires i < |plan|
    ensures Fold(p, plan[..i + 1], server) == Step(Fold(p, plan[..i], server), plan[i], server)
  {
    assert plan[..i + 1][..i] == plan[..i];
  }

  /** A run that has aborted is not changed by any uploads planned after it. */
  lemma FoldAbortedPrefix(p: Progress, a: seq<UploadCall>, b: seq<UploadCall>, server: Server)
    requires Fold(p, a, server).aborted
    ensures Fold(p, a + b, server) == Fold(p, a, server)
  {
    FoldAppend(p, a, b, server);
    FoldAborted(Fold(p, a, server), b, server);
  }

  /** When uploads 0..j-1 succeed and upload j comes back empty, the run aborts right after starting it. */
  lemma FoldFailsAt(plan: seq<UploadCall>, server: Server, j: nat)
    requires j < |plan|
    requires AllSucceed(plan, server, j) && !Succeeds(plan, server, j)
    ensures Fold(Start, plan[..j + 1], server) == Progress(Names(plan, server, j), plan[..j + 1], SentBy(plan, server, j + 1), true)
  {
    FoldAllSucceed(plan, server, j);
    FoldPrefixStep(Start, plan, j, server);
    assert plan[..j] + [plan[j]] == plan[..j + 1];
  }

  /** When upload j is the first to come back empty, the run stops right after starting it. */
  lemma FoldFirstFailure(plan: seq<UploadCall>, server: Server, j: nat, n: nat)
    requires j < n <= |plan|
    requires AllSucceed(plan, server, j) && !Succeeds(plan, server, j)
    ensures Fold(Start, plan[..n], server) == Progress(Names(plan, server, j), plan[..j + 1], SentBy(plan, server, j + 1), true)
  {
    FoldFailsAt(plan, server, j);
    assert plan[..n] == plan[..j + 1] + plan[j + 1..n];
    FoldAbortedPrefix(Start, plan[..j + 1], plan[j + 1..n], server);
  }

  /** The plan runs as its four phases one after the other. */
  lemma PlanFold(f: FormState, server: Server)
    ensures Fold(Start, Plan(f), server)
         == Fold(Fold(Fold(Fold(Start, ImageCalls(f), server), BatchCalls(f.title, f.videos, Course), server),
                      BatchCalls(f.title, f.quizzes, Quiz), server),
                 BatchCalls(f.title, f.liveSessions, LiveSession), server)
  {
    var img := ImageCalls(f);
    var vs := BatchCalls(f.title, f.videos, Course);
    var qs := BatchCalls(f.title, f.quizzes, Quiz);
    FoldAppend(Start, img + vs + qs, BatchCalls(f.title, f.liveSessions, LiveSession), server);
    FoldAppend(Start, img + vs, qs, server);
    FoldAppend(Start, img, vs, server);
  }

  lemma AbortedSkipsRest(p: Progress, a: seq<UploadCall>, b: seq<UploadCall>, c: seq<UploadCall>, server: Server)
    requires p.aborted
    ensures Fold(Fold(Fold(p, a, server), b, server), c, server) == p
  {
    FoldAborted(p, a, server);
    FoldAborted(p, b, server);
    FoldAborted(p, c, server);
  }

  // ---------------------------------------------------------------------------
  // What a submission promises.

  /**
   * The uploads run in a fixed order: the image (title only, no type), then each
   * course video, quiz video and live-session video in input order, each renamed
   * "title_name" and tagged with its kind.
   */
  lemma PlanOrder(f: FormState)
    ensures var img := |ImageCalls(f)|;
      var plan := Plan(f);
      var q := img + |f.videos|;
      var l := q + |f.quizzes|;
      && |plan| == l + |f.liveSessions|
      && (f.image.Some? <==> img == 1)
      && (f.image.Some? ==> plan[0] == UploadCall(f.image.value, Some(f.title), None, "image_name"))
      && (forall i :: 0 <= i < |f.videos| ==> plan[img + i] == VideoCall(f.title, f.videos[i], Course))
      && (forall i :: 0 <= i < |f.quizzes| ==> plan[q + i] == VideoCall(f.title, f.quizzes[i], Quiz))
      && (forall i :: 0 <= i < |f.liveSessions| ==> plan[l + i] == VideoCall(f.title, f.liveSessions[i], LiveSession))
  {
  }

  /**
   * When every upload returns data, the create request is sent once, to
   * "category/create", carrying each returned name under its key in upload
   * order followed by the scalar fields; the outcome is Created exactly on 201.
   */
  lemma SubmitAllUploaded(f: FormState, server: Server, reply: CreateReply)
    requires AllSucceed(Plan(f), server, |Plan(f)|)
    ensures var s := Submit(f, server, reply);
      && s.outcome == (if reply == Status(201) then Created else Failed)
      && s.calls == Plan(f)
      && s.sent == SentBy(Plan(f), server, |Plan(f)|)
      && s.post == Some(CreatePost(f.category + "/create", Names(Plan(f), server, |Plan(f)|) + Scalars(f)))
  {
    var plan := Plan(f);
    FoldAllSucceed(plan, server, |plan|);
    assert plan[..|plan|] == plan;
  }

  /**
   * When upload j is the first to return nothing, the submission aborts: no
   * later upload starts, no chunk of a later upload is sent, and no create
   * request is sent.
   */
  lemma SubmitAbortsAtFirstFailure(f: FormState, server: Server, reply: CreateReply, j: nat)
    requires j < |Plan(f)|
    requires AllSucceed(Plan(f), server, j) && !Succeeds(Plan(f), server, j)
    ensures var s := Submit(f, server, reply);
      && s.outcome == Aborted
      && s.post == None
      && s.calls == Plan(f)[..j + 1]
      && s.sent == SentBy(Plan(f), server, j + 1)
  {
    var plan := Plan(f);
    FoldFirstFailure(plan, server, j, |plan|);
    assert plan[..|plan|] == plan;
  }

  /** A submission aborts exactly when some upload of its plan returns nothing. */
  lemma {:induction false} AbortedIffSomeUploadFails(f: FormState, server: Server, reply: CreateReply)
    ensures Submit(f, server, reply).outcome == Aborted <==> !AllSucceed(Plan(f), server, |Plan(f)|)
  {
    var plan := Plan(f);
    if AllSucceed(plan, server, |plan|) {
      SubmitAllUploaded(f, server, reply);
    } else {
      var j := FirstFailure(plan, server, |plan|);
      SubmitAbortsAtFirstFailure(f, server, reply, j);
    }
  }

  /** The first upload among the first n that returns nothing. */
  lemma {:induction false} FirstFailure(plan: seq<UploadCall>, server: Server, n: nat) returns (j: nat)
    requires n <= |plan| && !AllSucceed(plan, server, n)
    ensures j < n && AllSucceed(plan, server, j) && !Succeeds(plan, server, j)
  {
    if AllSucceed(plan, server, n - 1) {
      j := n - 1;
    } else {
      j := FirstFailure(plan, server, n - 1);
    }
  }

  /**
   * A zero-byte image has no chunks, so `uploadFile` returns nothing for it and
   * the whole submission aborts before any other upload and before the post.
   */
  lemma ZeroByteImageAborts(f: FormState, server: Server, reply: CreateReply)
    requires f.image.Some? && f.image.value.size == 0
    ensures Submit(f, server, reply) == Submission(Aborted, [Plan(f)[0]], [], None)
  {
    var plan := Plan(f);
    EmptyFileYieldsNothing(plan[0].file, plan[0].courseTitle, plan[0].uploadType, server(0));
    assert !Succeeds(plan, server, 0);
    SubmitAbortsAtFirstFailure(f, server, reply, 0);
    assert plan[..1] == [plan[0]];
  }

  // ---------------------------------------------------------------------------
  // The imperative part: the multipart buffer and the component's state.

  /** The `FormData` object: an ordered list of entries that only grows. */
  class FormData {
    var entries: seq<Field>

    constructor ()
      ensures entries == []
    {
      entries := [];
    }

    method Append(key: string, value: string)
      modifies this
      ensures entries == old(entries) + [(key, value)]
    {
      entries := entries + [(key, value)];
    }
  }

  /**
   * One `await uploadFile(...)` followed by `formData.append(key, result.fileName)`;
   * when the upload returns nothing the step records the abort instead.
   */
  method UploadAndRecord(call: UploadCall, fd: FormData, server: Server, p: Progress) returns (p': Progress)
    requires !p.aborted && fd.entries == p.fields
    modifies fd
    ensures p' == Step(p, call, server)
    ensures fd.entries == p'.fields
  {
    var uploadResult, sent, _ := UploadFile(call.file, call.courseTitle, call.uploadType, server(|p.calls|));
    if uploadResult.None? {
      return Progress(p.fields, p.calls + [call], p.sent + sent, true);
    }
    fd.Append(call.key, uploadResult.value.fileName);
    p' := Progress(fd.entries, p.calls + [call], p.sent + sent, false);
  }

  /** The `CreateCourse` component's state: the form's fields and the two flags. */
  class CourseCreator {
    var form: FormState
    var isLoading: bool
    var showSuccessModal: bool

    /** The initial `useState` values. */
    constructor ()
      ensures form == FormState("", "", "", "", "", "courses", "", None, [], [], [])
      ensures !isLoading && !showSuccessModal
    {
      form := FormState("", "", "", "", "", "courses", "", None, [], [], []);
      isLoading, showSuccessModal := false, false;
    }

    /** The effect that copies the signed-in admin's name into `author` when it is truthy. */
    method SyncAuthor(adminName: Option<string>)
      modifies this
      ensures form == old(form).(author := if Truthy(adminName) then adminName.value else old(form.author))
      ensures isLoading == old(isLoading) && showSuccessModal == old(showSuccessModal)
    {
      if Truthy(adminName) {
        form := form.(author := adminName.value);
      }
    }

    /**
     * `handleFileUpload(files, type)`: upload each file renamed "title_name", in
     * order, appending each returned name under the kind's key; the first upload
     * that returns nothing ends the loop (in the source, by throwing).
     */
    method HandleFileUpload(files: seq<FileRef>, kind: VideoKind, fd: FormData, server: Server, p: Progress)
      returns (p': Progress)
      requires !p.aborted && fd.entries == p.fields
      modifies fd
      ensures p' == Fold(p, BatchCalls(form.title, files, kind), server)
      ensures fd.entries == p'.fields
    {
      ghost var batch := BatchCalls(form.title, files, kind);
      p' := p;
      var i := 0;
      while i < |files|
        invariant 0 <= i <= |files|
        invariant p' == Fold(p, batch[..i], server)
        invariant !p'.aborted && fd.entries == p'.fields
      {
        var file := files[i];
        var renamedFile := FileRef(form.title + "_" + file.name, file.size);
        var call := UploadCall(renamedFile, Some(form.title), Some(TypeTag(kind)), NamesKey(kind));
        assert call == batch[i];
        FoldPrefixStep(p, batch, i, server);
        p' := UploadAndRecord(call, fd, server, p');
        if p'.aborted {
          assert batch == batch[..i + 1] + batch[i + 1..];
          FoldAbortedPrefix(p, batch[..i + 1], batch[i + 1..], server);
          return;
        }
        i := i + 1;
      }
      assert batch[..i] == batch;
    }

    /** `uploadFile(image, title)` when an image is chosen, appending its name as `image_name`. */
    method UploadImage(fd: FormData, server: Server) returns (p: Progress)
      requires fd.entries == []
      modifies fd
      ensures p == Fold(Start, ImageCalls(form), server)
      ensures fd.entries == p.fields
    {
      p := Start;
      if form.image.Some? {
        var call := UploadCall(form.image.value, Some(form.title), None, "image_name");
        assert ImageCalls(form) == [] + [call];
        p := UploadAndRecord(call, fd, server, p);
      }
    }

    /**
     * The upload phase of `handleSubmit`: the image, then the three collections,
     * each only when non-empty, stopping at the first upload that returns nothing.
     */
    method UploadAll(fd: FormData, server: Server) returns (p: Progress)
      requires fd.entries == []
      modifies fd
      ensures p == Fold(Start, Plan(form), server)
      ensures fd.entries == p.fields
    {
      ghost var vs := BatchCalls(form.title, form.videos, Course);
      ghost var qs := BatchCalls(form.title, form.quizzes, Quiz);
      ghost var ls := BatchCalls(form.title, form.liveSessions, LiveSession);
      PlanFold(form, server);
      p := UploadImage(fd, server);
      if p.aborted {
        AbortedSkipsRest(p, vs, qs, ls, server);
        return;
      }
      if |form.videos| > 0 {
        p := HandleFileUpload(form.videos, Course, fd, server, p);
        if p.aborted {
          AbortedSkipsRest(p, [], qs, ls, server);
          return;
        }
      }
      if |form.quizzes| > 0 {
        p := HandleFileUpload(form.quizzes, Quiz, fd, server, p);
        if p.aborted {
          AbortedSkipsRest(p, [], [], ls, server);
          return;
        }
      }
      if |form.liveSessions| > 0 {
        p := HandleFileUpload(form.liveSessions, LiveSession, fd, server, p);
      }
    }

    /** The seven `formData.append` calls for the scalar fields. */
    method AppendScalars(fd: FormData)
      modifies fd
      ensures fd.entries == old(fd.entries) + Scalars(form)
    {
      ghost var before := fd.entries;
      fd.Append("title", form.title);
      fd.Append("price", form.price);
      fd.Append("usd", form.usd);
      fd.Append("description", form.description);
      fd.Append("author", form.author);
      fd.Append("category", form.category);
      fd.Append("type", form.courseType);
      assert fd.entries == before + Scalars(form);
    }

    /** Append the scalar fields, post once, and on 201 clear the form. */
    method PostCreate(fd: FormData, reply: CreateReply) returns (outcome: Outcome, post: CreatePost, navigation: Option<string>)
      modifies this, fd
      ensures post == CreatePost(old(form.category) + "/create", old(fd.entries) + Scalars(old(form)))
      ensures fd.entries == post.fields
      ensures outcome == (if reply == Status(201) then Created else Failed)
      ensures !isLoading
      ensures outcome == Created ==> form == Cleared(old(form)) && showSuccessModal && navigation == Some(AdminCoursesRoute)
      ensures outcome == Failed ==> form == old(form) && showSuccessModal == old(showSuccessModal) && navigation == None
    {
      AppendScalars(fd);
      post := CreatePost(form.category + "/create", fd.entries);
      navigation := None;
      outcome := Failed;
      if reply == Status(201) {
        showSuccessModal := true;
        ResetForm();
        navigation := Some(AdminCoursesRoute);
        outcome := Created;
      }
      isLoading := false;
    }

    /** The ten setters called after a 201; `author` is kept. */
    method ResetForm()
      modifies this
      ensures form == Cleared(old(form))
      ensures isLoading == old(isLoading) && showSuccessModal == old(showSuccessModal)
    {
      form := form.(title := "", price := "", description := "", category := "",
                    videos := [], liveSessions := [], quizzes := [],
                    image := None, courseType := "", usd := "");
    }

    /**
     * `handleSubmit` as written. When an upload returns nothing, the source reads
     * `.fileName` of `undefined` outside its `try`, so the handler throws: no
     * create request is sent and `isLoading` stays true.
     */
    method HandleSubmit(server: Server, reply: CreateReply)
      returns (outcome: Outcome, calls: seq<UploadCall>, sent: seq<ChunkRequest>, post: Option<CreatePost>, navigation: Option<string>)
      modifies this
      ensures Submission(outcome, calls, sent, post) == Submit(old(form), server, reply)
      ensures outcome == Aborted ==> isLoading && form == old(form) && showSuccessModal == old(showSuccessModal) && navigation == None
      ensures outcome == Created ==> !isLoading && form == Cleared(old(form)) && showSuccessModal && navigation == Some(AdminCoursesRoute)
      ensures outcome == Failed ==> !isLoading && form == old(form) && showSuccessModal == old(showSuccessModal) && navigation == None
    {
      var fd := new FormData();
      isLoading := true;
      var p := UploadAll(fd, server);
      calls, sent := p.calls, p.sent;
      if p.aborted {
        return Aborted, calls, sent, None, None;
      }
      var created;
      outcome, created, navigation := PostCreate(fd, reply);
      post := Some(created);
    }

    /**
     * `handleSubmit` as evidently intended: an upload that returns nothing ends
     * the submission without a create request, and the loading overlay is
     * cleared on every path.
     */
    method HandleSubmitGuarded(server: Server, reply: CreateReply)
      returns (outcome: Outcome, calls: seq<UploadCall>, sent: seq<ChunkRequest>, post: Option<CreatePost>, navigation: Option<string>)
      modifies this
      ensures Submission(outcome, calls, sent, post) == Submit(old(form), server, reply)
      ensures !isLoading
      ensures outcome == Aborted ==> form == old(form) && showSuccessModal == old(showSuccessModal) && navigation == None
      ensures outcome == Created ==> form == Cleared(old(form)) && showSuccessModal && navigation == Some(AdminCoursesRoute)
      ensures outcome == Failed ==> form == old(form) && showSuccessModal == old(showSuccessModal) && navigation == None
    {
      var fd := new FormData();
      isLoading := true;
      var p := UploadAll(fd, server);
      calls, sent := p.calls, p.sent;
      if p.aborted {
        isLoading := false;
        return Aborted, calls, sent, None, None;
      }
      var created;
      outcome, created, navigation := PostCreate(fd, reply);
      post := Some(created);
    }
  }
}
