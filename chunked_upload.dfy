/**
 * Chunked upload of a course file: the file is cut into 20 MiB chunks sent in
 * order, each chunk is tried at most three times, the first chunk obtains the
 * server-side file name, and a final request asks the server to combine the
 * chunks. The server is an oracle: `respond(k)` is its answer to the k-th
 * request sent.
 */
module ChunkedUpload {
  import opened Wrappers
  import opened JsText

  const ChunkSize: nat := 1024 * 1024 * 20
  const MaxRetries: nat := 3

  const UploadCanceled := "Upload canceled"
  const FilenameNotReturned := "Filename not returned by server."
  const FilenameMissing := "Filename missing before continuing upload."
  const NoFilenameToFinalize := "Filename not available for finalization"
  const FinalizeFailed := "Failed to finalize chunked upload"
  /** The message of the error axios raises for a cancelled request. */
  const RequestCanceled := "canceled"

  datatype FileInfo = FileInfo(name: string, size: nat)

  /**
   * What the server does with one request: an HTTP answer with any status, an
   * error thrown before any answer, or a cancellation.
   */
  datatype Response =
    | Answer(status: int, filename: Option<string>)
    | Failure(message: string)
    | Cancel

  /** axios's default validateStatus: only a 2xx answer resolves the request. */
  predicate Is2xx(status: int) {
    200 <= status < 300
  }

  /** An answer the shared axios instance resolves with. */
  predicate Accepted(r: Response) {
    r.Answer? && Is2xx(r.status)
  }

  /** The message of the error axios rejects with for an answer outside 2xx. */
  function StatusError(status: int): string {
    "Request failed with status code " + IntToString(status)
  }

  /**
   * A chunk post names its chunk of `file`: the form's chunk count, byte range
   * and chunk file name are the functions of `file` and `chunkIndex` below.
   * `initial` picks the create-initial-chunk endpoint.
   */
  datatype Request =
    | ChunkPost(initial: bool, chunkIndex: nat, file: FileInfo, filenameField: string)
    | CombineChunks(filename: string, chunkCount: nat)

  /** Where a request stands in the upload: its chunk, or the chunk count for the final request. */
  function Stage(r: Request): nat {
    if r.ChunkPost? then r.chunkIndex else r.chunkCount
  }

  /** `if (!filename)`: undefined and the empty string are both falsy. */
  predicate Truthy(filename: Option<string>) {
    filename.Some? && filename.value != ""
  }

  /** Math.ceil(size / CHUNK_SIZE). */
  function TotalChunks(size: nat): (n: nat)
    ensures n * ChunkSize >= size
    ensures n > 0 ==> (n - 1) * ChunkSize < size
  {
    (size + ChunkSize - 1) / ChunkSize
  }

  function ChunkStart(i: nat): nat { i * ChunkSize }

  function ChunkEnd(i: nat, size: nat): nat {
    if i * ChunkSize + ChunkSize < size then i * ChunkSize + ChunkSize else size
  }

  /** The chunk's file name keeps the extension: the text after the last '.' of the name. */
  function ChunkName(name: string): (r: string)
    ensures |r| >= 6 && r[..6] == "chunk." && '.' !in r[6..]
    ensures '.' !in name ==> r == "chunk." + name
  {
    var pieces := Split(name, '.');
    "chunk." + pieces[|pieces| - 1]
  }

  /** The chunks are non-empty, contiguous, start at 0 and end at the file size. */
  lemma ChunkPlan(size: nat)
    ensures TotalChunks(size) == 0 <==> size == 0
    ensures forall i :: 0 <= i < TotalChunks(size) ==> ChunkStart(i) < ChunkEnd(i, size) <= size
    ensures forall i :: 0 <= i < TotalChunks(size) ==> ChunkEnd(i, size) - ChunkStart(i) <= ChunkSize
    ensures forall i :: 0 <= i < TotalChunks(size) - 1 ==> ChunkEnd(i, size) == ChunkStart(i + 1)
    ensures TotalChunks(size) > 0 ==> ChunkEnd(TotalChunks(size) - 1, size) == size
  {
    var n := TotalChunks(size);
    forall i | 0 <= i < n ensures ChunkStart(i) < size {
      assert i <= n - 1;
      assert i * ChunkSize <= (n - 1) * ChunkSize;
    }
    forall i | 0 <= i < n - 1 ensures ChunkEnd(i, size) == ChunkStart(i + 1) {
      assert i + 1 <= n - 1;
      assert (i + 1) * ChunkSize <= (n - 1) * ChunkSize;
    }
  }

  /** The post of chunk `i`; the `filename` form field is empty until the server gave a name. */
  function ChunkRequest(file: FileInfo, i: nat, filename: Option<string>): Request {
    ChunkPost(i == 0, i, file, if filename.Some? then filename.value else "")
  }

  /** The form fields of a chunk post: chunk count, byte range and chunk file name. */
  function PostForm(r: Request): (nat, nat, nat, string)
    requires r.ChunkPost?
  {
    (TotalChunks(r.file.size), ChunkStart(r.chunkIndex), ChunkEnd(r.chunkIndex, r.file.size), ChunkName(r.file.name))
  }

  /** The end of one try of one chunk. */
  datatype Attempt =
    | Succeeded(filename: Option<string>, sent: seq<Request>)
    | Canceled(sent: seq<Request>)
    | Threw(message: string, filename: Option<string>, sent: seq<Request>)

  /** One pass of the try block for chunk `i`. */
  function AttemptChunk(file: FileInfo, respond: nat -> Response, i: nat, filename: Option<string>,
                        sent: seq<Request>): (a: Attempt)
    ensures a.sent == sent || a.sent == sent + [ChunkRequest(file, i, filename)]
    ensures a.Succeeded? ==> a.sent == sent + [ChunkRequest(file, i, filename)] && Accepted(respond(|sent|))
    ensures (i > 0 ==> Truthy(filename)) ==>
              (a.Succeeded? <==> Accepted(respond(|sent|)) && (i == 0 ==> Truthy(respond(|sent|).filename)))
    ensures (i > 0 ==> Truthy(filename)) && respond(|sent|).Answer? && !Is2xx(respond(|sent|).status) ==>
              a == Threw(StatusError(respond(|sent|).status), filename, sent + [ChunkRequest(file, i, filename)])
    ensures a.Canceled? <==> a.sent == sent + [ChunkRequest(file, i, filename)] && respond(|sent|).Cancel?
    ensures a.Succeeded? ==> Truthy(a.filename)
    ensures i > 0 && !a.Canceled? ==> a.filename == filename
  {
    if i == 0 then
      var s := sent + [ChunkRequest(file, i, filename)];
      match respond(|sent|)
      case Cancel => Canceled(s)
      case Failure(m) => Threw(m, filename, s)
      case Answer(status, fn) =>
        if !Is2xx(status) then Threw(StatusError(status), filename, s)
        else if Truthy(fn) then Succeeded(fn, s) else Threw(FilenameNotReturned, fn, s)
    else if !Truthy(filename) then Threw(FilenameMissing, filename, sent)
    else
      var s := sent + [ChunkRequest(file, i, filename)];
      match respond(|sent|)
      case Cancel => Canceled(s)
      case Failure(m) => Threw(m, filename, s)
      case Answer(status, _) => if !Is2xx(status) then Threw(StatusError(status), filename, s) else Succeeded(filename, s)
  }

  /** The retry loop of one chunk. */
  datatype Step = Done(filename: Option<string>, sent: seq<Request>) | Stop(error: string, sent: seq<Request>)

  function TryChunk(file: FileInfo, respond: nat -> Response, i: nat, retry: nat, filename: Option<string>,
                    sent: seq<Request>): Step
    requires retry < MaxRetries
    decreases MaxRetries - retry
  {
    match AttemptChunk(file, respond, i, filename, sent)
    case Succeeded(fn, s) => Done(fn, s)
    case Canceled(s) => Stop(UploadCanceled, s)
    case Threw(m, fn, s) =>
      if retry + 1 >= MaxRetries then Stop(m, s) else TryChunk(file, respond, i, retry + 1, fn, s)
  }

  datatype Outcome = Outcome(result: Result<string>, sent: seq<Request>)

  /** The last step: combine the chunks under the file name the first chunk obtained. */
  function Finalize(file: FileInfo, respond: nat -> Response, filename: Option<string>, sent: seq<Request>): Outcome {
    if !Truthy(filename) then Outcome(Err(NoFilenameToFinalize), sent)
    else
      var s := sent + [CombineChunks(filename.value, TotalChunks(file.size))];
      match respond(|sent|)
      case Cancel => Outcome(Err(RequestCanceled), s)
      case Failure(m) => Outcome(Err(m), s)
      case Answer(status, _) =>
        if !Is2xx(status) then Outcome(Err(StatusError(status)), s)
        else if status != 200 then Outcome(Err(FinalizeFailed), s)
        else Outcome(Ok(filename.value), s)
  }

  /** Chunks `i` onwards, then the final request. */
  function Chunks(file: FileInfo, respond: nat -> Response, i: nat, filename: Option<string>,
                  sent: seq<Request>): Outcome
    requires i <= TotalChunks(file.size)
    decreases TotalChunks(file.size) - i
  {
    if i == TotalChunks(file.size) then Finalize(file, respond, filename, sent)
    else AfterChunk(file, respond, i, TryChunk(file, respond, i, 0, filename, sent))
  }

  function AfterChunk(file: FileInfo, respond: nat -> Response, i: nat, step: Step): Outcome
    requires i < TotalChunks(file.size)
    decreases TotalChunks(file.size) - i, 0
  {
    match step
    case Stop(m, s) => Outcome(Err(m), s)
    case Done(fn, s) => Chunks(file, respond, i + 1, fn, s)
  }

  /** The rest of the upload from a try of chunk `i`. */
  function Pending(file: FileInfo, respond: nat -> Response, i: nat, retry: nat, filename: Option<string>,
                   sent: seq<Request>): Outcome
    requires i < TotalChunks(file.size) && retry < MaxRetries
  {
    AfterChunk(file, respond, i, TryChunk(file, respond, i, retry, filename, sent))
  }

  /** uploadFileInChunks as a whole: the result and every request sent, in order. */
  function Upload(file: FileInfo, respond: nat -> Response): Outcome {
    Chunks(file, respond, 0, None, [])
  }

  /** uploadFileInChunks. */
  method UploadFileInChunks(file: FileInfo, respond: nat -> Response) returns (result: Result<string>, sent: seq<Request>)
    ensures Outcome(result, sent) == Upload(file, respond)
  {
    var totalChunks := TotalChunks(file.size);
    var filename: Option<string> := None;
    sent := [];
    var chunkIndex := 0;
    while chunkIndex < totalChunks
      invariant chunkIndex <= totalChunks
      invariant Chunks(file, respond, chunkIndex, filename, sent) == Upload(file, respond)
    {
      var uploadSuccess := false;
      var retryCount := 0;
      while !uploadSuccess && retryCount < MaxRetries
        invariant retryCount <= MaxRetries
        invariant !uploadSuccess ==> retryCount < MaxRetries
        invariant !uploadSuccess ==> Pending(file, respond, chunkIndex, retryCount, filename, sent) == Upload(file, respond)
        invariant uploadSuccess ==> Chunks(file, respond, chunkIndex + 1, filename, sent) == Upload(file, respond)
        decreases MaxRetries - retryCount, if uploadSuccess then 0 else 1
      {
        var a := AttemptChunk(file, respond, chunkIndex, filename, sent);
        match a
        case Succeeded(fn, s) =>
          filename := fn;
          sent := s;
          uploadSuccess := true;
        case Canceled(s) =>
          sent := s;
          result := Err(UploadCanceled);
          return;
        case Threw(m, fn, s) =>
          filename := fn;
          sent := s;
          retryCount := retryCount + 1;
          if retryCount >= MaxRetries {
            result := Err(m);
            return;
          }
      }
      chunkIndex := chunkIndex + 1;
    }
    if !Truthy(filename) {
      result := Err(NoFilenameToFinalize);
      return;
    }
    var answer := respond(|sent|);
    sent := sent + [CombineChunks(filename.value, totalChunks)];
    match answer
    case Cancel =>
      result := Err(RequestCanceled);
    case Failure(m) =>
      result := Err(m);
    case Answer(status, _) =>
      if !Is2xx(status) {
        result := Err(StatusError(status));
      } else if status != 200 {
        result := Err(FinalizeFailed);
      } else {
        result := Ok(filename.value);
      }
  }

  /** Requests go out chunk by chunk, the final request last. */
  predicate Ordered(log: seq<Request>) {
    forall a, b :: 0 <= a < b < |log| ==> Stage(log[a]) <= Stage(log[b])
  }

  /** In an ordered log: no stage is tried more than three times. */
  predicate WithinBudget(log: seq<Request>) {
    forall a :: 0 <= a && a + MaxRetries < |log| ==> Stage(log[a]) < Stage(log[a + MaxRetries])
  }

  predicate Before(log: seq<Request>, i: nat) {
    forall k :: 0 <= k < |log| ==> Stage(log[k]) < i
  }

  /** The requests of one retry loop: at most `MaxRetries - retry` posts of chunk `i`, appended. */
  lemma {:induction false} TryChunkSegment(file: FileInfo, respond: nat -> Response, i: nat, retry: nat,
                                          filename: Option<string>, sent: seq<Request>)
    requires retry < MaxRetries
    ensures var st := TryChunk(file, respond, i, retry, filename, sent);
            |sent| <= |st.sent| <= |sent| + MaxRetries - retry && st.sent[..|sent|] == sent
    ensures var st := TryChunk(file, respond, i, retry, filename, sent);
            forall k :: |sent| <= k < |st.sent| ==>
              st.sent[k].ChunkPost? && st.sent[k].chunkIndex == i && st.sent[k].initial == (i == 0)
  {
    TryChunkPrefix(file, respond, i, retry, filename, sent);
    TryChunkPosts(file, respond, i, retry, filename, sent);
  }

  /** A retry loop keeps the log it was given and appends at most one post per remaining try. */
  lemma {:induction false} TryChunkPrefix(file: FileInfo, respond: nat -> Response, i: nat, retry: nat,
                                         filename: Option<string>, sent: seq<Request>)
    requires retry < MaxRetries
    ensures var st := TryChunk(file, respond, i, retry, filename, sent);
            |sent| <= |st.sent| <= |sent| + MaxRetries - retry && st.sent[..|sent|] == sent
    decreases MaxRetries - retry
  {
    match AttemptChunk(file, respond, i, filename, sent)
    case Succeeded(_, s) =>
    case Canceled(s) =>
    case Threw(m, fn, s) =>
      if retry + 1 < MaxRetries {
        TryChunkPrefix(file, respond, i, retry + 1, fn, s);
        var st := TryChunk(file, respond, i, retry + 1, fn, s);
        assert st.sent[..|sent|] == st.sent[..|s|][..|sent|];
      }
  }

  /** Every request a retry loop appends is a post of its own chunk. */
  lemma {:induction false} TryChunkPosts(file: FileInfo, respond: nat -> Response, i: nat, retry: nat,
                                        filename: Option<string>, sent: seq<Request>)
    requires retry < MaxRetries
    ensures var st := TryChunk(file, respond, i, retry, filename, sent);
            forall k :: |sent| <= k < |st.sent| ==>
              st.sent[k].ChunkPost? && st.sent[k].chunkIndex == i && st.sent[k].initial == (i == 0)
    decreases MaxRetries - retry
  {
    match AttemptChunk(file, respond, i, filename, sent)
    case Succeeded(_, s) =>
    case Canceled(s) =>
    case Threw(m, fn, s) =>
      if retry + 1 < MaxRetries {
        TryChunkPosts(file, respond, i, retry + 1, fn, s);
        TryChunkPrefix(file, respond, i, retry + 1, fn, s);
      }
  }

  lemma AppendSegment(sent: seq<Request>, s: seq<Request>, i: nat)
    requires Ordered(sent) && WithinBudget(sent) && Before(sent, i)
    requires |sent| <= |s| <= |sent| + MaxRetries && s[..|sent|] == sent
    requires forall k :: |sent| <= k < |s| ==> Stage(s[k]) == i
    ensures Ordered(s) && WithinBudget(s) && Before(s, i + 1)
  {
    assert forall k :: 0 <= k < |sent| ==> s[k] == sent[k];
  }

  /** Chunks are sent in order and each is tried at most three times; the final request comes last. */
  lemma {:induction false} ChunksOrdered(file: FileInfo, respond: nat -> Response, i: nat, filename: Option<string>,
                                         sent: seq<Request>)
    requires i <= TotalChunks(file.size)
    requires Ordered(sent) && WithinBudget(sent) && Before(sent, i)
    ensures Ordered(Chunks(file, respond, i, filename, sent).sent)
    ensures WithinBudget(Chunks(file, respond, i, filename, sent).sent)
    decreases TotalChunks(file.size) - i
  {
    if i == TotalChunks(file.size) {
      var out := Finalize(file, respond, filename, sent);
      if Truthy(filename) {
        AppendSegment(sent, out.sent, i);
      }
    } else {
      var st := TryChunk(file, respond, i, 0, filename, sent);
      TryChunkSegment(file, respond, i, 0, filename, sent);
      AppendSegment(sent, st.sent, i);
      if st.Done? {
        ChunksOrdered(file, respond, i + 1, st.filename, st.sent);
      }
    }
  }

  /** The whole upload: requests in chunk order, at most three tries per chunk, the combine request last. */
  lemma UploadOrdered(file: FileInfo, respond: nat -> Response)
    ensures Ordered(Upload(file, respond).sent)
    ensures WithinBudget(Upload(file, respond).sent)
  {
    ChunksOrdered(file, respond, 0, None, []);
  }

  /** A zero-byte file sends nothing and fails for want of a file name. */
  lemma EmptyFileFails(name: string, respond: nat -> Response)
    ensures Upload(FileInfo(name, 0), respond) == Outcome(Err(NoFilenameToFinalize), [])
  {
  }

  /** A cancelled request ends the retry loop at once: no request follows it. */
  lemma {:induction false} TryChunkCancel(file: FileInfo, respond: nat -> Response, i: nat, retry: nat,
                                         filename: Option<string>, sent: seq<Request>)
    requires retry < MaxRetries
    ensures var st := TryChunk(file, respond, i, retry, filename, sent);
            forall k :: |sent| <= k < |st.sent| - 1 ==> !respond(k).Cancel?
    ensures var st := TryChunk(file, respond, i, retry, filename, sent);
            st.Done? ==> |st.sent| > |sent| && !respond(|st.sent| - 1).Cancel?
    ensures var st := TryChunk(file, respond, i, retry, filename, sent);
            |st.sent| > |sent| && respond(|st.sent| - 1).Cancel? ==> st == Stop(UploadCanceled, st.sent)
    decreases MaxRetries - retry
  {
    match AttemptChunk(file, respond, i, filename, sent)
    case Succeeded(_, s) =>
    case Canceled(s) =>
    case Threw(m, fn, s) =>
      assert |s| > |sent| ==> !respond(|s| - 1).Cancel?;
      if retry + 1 < MaxRetries {
        TryChunkCancel(file, respond, i, retry + 1, fn, s);
        TryChunkPrefix(file, respond, i, retry + 1, fn, s);
      }
  }

  /** A retry loop whose last post was cancelled stops with "Upload canceled". */
  lemma TryChunkCanceledPost(file: FileInfo, respond: nat -> Response, i: nat, retry: nat,
                             filename: Option<string>, sent: seq<Request>)
    requires retry < MaxRetries
    ensures var st := TryChunk(file, respond, i, retry, filename, sent);
            |st.sent| > |sent| && respond(|st.sent| - 1).Cancel? ==>
              st == Stop(UploadCanceled, st.sent) && st.sent[|st.sent| - 1].ChunkPost?
  {
    TryChunkCancel(file, respond, i, retry, filename, sent);
    TryChunkPosts(file, respond, i, retry, filename, sent);
  }

  lemma ChunksCancel(file: FileInfo, respond: nat -> Response, i: nat, filename: Option<string>,
                     sent: seq<Request>)
    requires i <= TotalChunks(file.size)
    requires forall k :: 0 <= k < |sent| ==> !respond(k).Cancel?
    ensures var out := Chunks(file, respond, i, filename, sent);
            forall k :: 0 <= k < |out.sent| - 1 ==> !respond(k).Cancel?
    ensures var out := Chunks(file, respond, i, filename, sent);
            |out.sent| > 0 && respond(|out.sent| - 1).Cancel? ==>
              out.result == Err(if out.sent[|out.sent| - 1].ChunkPost? then UploadCanceled else RequestCanceled)
  {
    ChunksNoEarlyCancel(file, respond, i, filename, sent);
    ChunksCancelError(file, respond, i, filename, sent);
  }

  /** Only the last request of the remaining upload may be cancelled. */
  lemma {:induction false} ChunksNoEarlyCancel(file: FileInfo, respond: nat -> Response, i: nat,
                                               filename: Option<string>, sent: seq<Request>)
    requires i <= TotalChunks(file.size)
    requires forall k :: 0 <= k < |sent| ==> !respond(k).Cancel?
    ensures var out := Chunks(file, respond, i, filename, sent);
            forall k :: 0 <= k < |out.sent| - 1 ==> !respond(k).Cancel?
    decreases TotalChunks(file.size) - i
  {
    if i < TotalChunks(file.size) {
      var st := TryChunk(file, respond, i, 0, filename, sent);
      TryChunkCancel(file, respond, i, 0, filename, sent);
      TryChunkPrefix(file, respond, i, 0, filename, sent);
      if st.Done? {
        ChunksNoEarlyCancel(file, respond, i + 1, st.filename, st.sent);
      }
    }
  }

  /** A cancelled last request ends the upload with the cancellation error of its step. */
  lemma {:induction false} ChunksCancelError(file: FileInfo, respond: nat -> Response, i: nat,
                                             filename: Option<string>, sent: seq<Request>)
    requires i <= TotalChunks(file.size)
    requires forall k :: 0 <= k < |sent| ==> !respond(k).Cancel?
    ensures var out := Chunks(file, respond, i, filename, sent);
            |out.sent| > 0 && respond(|out.sent| - 1).Cancel? ==>
              out.result == Err(if out.sent[|out.sent| - 1].ChunkPost? then UploadCanceled else RequestCanceled)
    decreases TotalChunks(file.size) - i
  {
    if i == TotalChunks(file.size) {
      FinalizeCanceled(file, respond, filename, sent);
    } else {
      var st := TryChunk(file, respond, i, 0, filename, sent);
      if st.Done? {
        DoneKeepsUncanceled(file, respond, i, filename, sent);
        ChunksCancelError(file, respond, i + 1, st.filename, st.sent);
      } else {
        StoppedCanceled(file, respond, i, filename, sent);
      }
    }
  }

  /** A successful retry loop adds no cancelled request. */
  lemma DoneKeepsUncanceled(file: FileInfo, respond: nat -> Response, i: nat, filename: Option<string>,
                            sent: seq<Request>)
    requires forall k :: 0 <= k < |sent| ==> !respond(k).Cancel?
    ensures var st := TryChunk(file, respond, i, 0, filename, sent);
            st.Done? ==> forall k :: 0 <= k < |st.sent| ==> !respond(k).Cancel?
  {
    TryChunkPrefix(file, respond, i, 0, filename, sent);
    TryChunkCancel(file, respond, i, 0, filename, sent);
  }

  /** An upload stopped in the retry loop of a chunk by a cancelled post fails with "Upload canceled". */
  lemma StoppedCanceled(file: FileInfo, respond: nat -> Response, i: nat, filename: Option<string>,
                        sent: seq<Request>)
    requires i < TotalChunks(file.size)
    requires forall k :: 0 <= k < |sent| ==> !respond(k).Cancel?
    requires TryChunk(file, respond, i, 0, filename, sent).Stop?
    ensures var out := Chunks(file, respond, i, filename, sent);
            |out.sent| > 0 && respond(|out.sent| - 1).Cancel? ==>
              out.result == Err(UploadCanceled) && out.sent[|out.sent| - 1].ChunkPost?
  {
    TryChunkPrefix(file, respond, i, 0, filename, sent);
    TryChunkCanceledPost(file, respond, i, 0, filename, sent);
  }

  /** A cancelled combine request fails the upload with the request's cancellation error. */
  lemma FinalizeCanceled(file: FileInfo, respond: nat -> Response, filename: Option<string>, sent: seq<Request>)
    requires forall k :: 0 <= k < |sent| ==> !respond(k).Cancel?
    ensures var out := Finalize(file, respond, filename, sent);
            |out.sent| > 0 && respond(|out.sent| - 1).Cancel? ==>
              out.result == Err(RequestCanceled) && out.sent[|out.sent| - 1].CombineChunks?
  {
  }

  /**
   * No request is sent after a cancelled one, and a cancelled upload fails with
   * "Upload canceled" (or with the request's own cancellation error for the combine step).
   */
  lemma CancelStopsUpload(file: FileInfo, respond: nat -> Response)
    ensures var out := Upload(file, respond);
            forall k :: 0 <= k < |out.sent| - 1 ==> !respond(k).Cancel?
    ensures var out := Upload(file, respond);
            |out.sent| > 0 && respond(|out.sent| - 1).Cancel? ==>
              out.result == Err(if out.sent[|out.sent| - 1].ChunkPost? then UploadCanceled else RequestCanceled)
  {
    ChunksCancel(file, respond, 0, None, []);
  }

  /** Chunk `j` was posted and the server answered. */
  predicate Answered(log: seq<Request>, respond: nat -> Response, j: nat) {
    exists k :: 0 <= k < |log| && log[k].ChunkPost? && log[k].chunkIndex == j && Accepted(respond(k))
  }

  /** The server answered the first chunk with this file name. */
  predicate NameFromServer(log: seq<Request>, respond: nat -> Response, name: Option<string>) {
    exists k :: 0 <= k < |log| && log[k].ChunkPost? && log[k].initial && Accepted(respond(k)) && respond(k).filename == name
  }

  /** Every post after the first chunk carries this file name. */
  predicate LaterPostsCarry(log: seq<Request>, name: string) {
    forall k :: 0 <= k < |log| && log[k].ChunkPost? && !log[k].initial ==> log[k].filenameField == name
  }

  /** A successful retry loop ends with an answered post of its chunk, and keeps the name after chunk 0. */
  lemma TryChunkDone(file: FileInfo, respond: nat -> Response, i: nat, retry: nat,
                                       filename: Option<string>, sent: seq<Request>)
    requires retry < MaxRetries
    ensures var st := TryChunk(file, respond, i, retry, filename, sent);
            st.Done? ==> Truthy(st.filename) && |st.sent| > |sent| && st.sent[|st.sent| - 1].ChunkPost? &&
                         st.sent[|st.sent| - 1].chunkIndex == i && Accepted(respond(|st.sent| - 1))
    ensures var st := TryChunk(file, respond, i, retry, filename, sent);
            st.Done? && i == 0 ==> st.sent[|st.sent| - 1].initial && respond(|st.sent| - 1).filename == st.filename
    ensures var st := TryChunk(file, respond, i, retry, filename, sent);
            i > 0 && st.Done? ==> st.filename == filename
    ensures var st := TryChunk(file, respond, i, retry, filename, sent);
            i > 0 && Truthy(filename) ==>
              forall k :: |sent| <= k < |st.sent| ==> st.sent[k] == ChunkRequest(file, i, filename)
  {
    TryChunkAnswered(file, respond, i, retry, filename, sent);
    TryChunkFirstName(file, respond, i, retry, filename, sent);
    TryChunkKeepsName(file, respond, i, retry, filename, sent);
    TryChunkSameRequest(file, respond, i, retry, filename, sent);
  }

  /** A successful retry loop ends with a post of its chunk that the server answered. */
  lemma {:induction false} TryChunkAnswered(file: FileInfo, respond: nat -> Response, i: nat, retry: nat,
                                       filename: Option<string>, sent: seq<Request>)
    requires retry < MaxRetries
    ensures var st := TryChunk(file, respond, i, retry, filename, sent);
            st.Done? ==> Truthy(st.filename) && |st.sent| > |sent| && st.sent[|st.sent| - 1].ChunkPost? &&
                         st.sent[|st.sent| - 1].chunkIndex == i && Accepted(respond(|st.sent| - 1))
    decreases MaxRetries - retry
  {
    match AttemptChunk(file, respond, i, filename, sent)
    case Succeeded(_, s) =>
    case Canceled(s) =>
    case Threw(m, fn, s) =>
      if retry + 1 < MaxRetries {
        TryChunkAnswered(file, respond, i, retry + 1, fn, s);
      }
  }

  /** A successful loop on chunk 0 takes its name from the answer to the last post. */
  lemma {:induction false} TryChunkFirstName(file: FileInfo, respond: nat -> Response, i: nat, retry: nat,
                                       filename: Option<string>, sent: seq<Request>)
    requires retry < MaxRetries
    ensures var st := TryChunk(file, respond, i, retry, filename, sent);
            st.Done? && i == 0 ==> |st.sent| > 0 && st.sent[|st.sent| - 1].ChunkPost? && st.sent[|st.sent| - 1].initial &&
                                   Accepted(respond(|st.sent| - 1)) && respond(|st.sent| - 1).filename == st.filename
    decreases MaxRetries - retry
  {
    match AttemptChunk(file, respond, i, filename, sent)
    case Succeeded(_, s) =>
    case Canceled(s) =>
    case Threw(m, fn, s) =>
      if retry + 1 < MaxRetries {
        TryChunkFirstName(file, respond, i, retry + 1, fn, s);
      }
  }

  /** After chunk 0 a successful retry loop keeps the name it was given. */
  lemma {:induction false} TryChunkKeepsName(file: FileInfo, respond: nat -> Response, i: nat, retry: nat,
                                       filename: Option<string>, sent: seq<Request>)
    requires retry < MaxRetries
    ensures var st := TryChunk(file, respond, i, retry, filename, sent);
            i > 0 && st.Done? ==> st.filename == filename
    decreases MaxRetries - retry
  {
    match AttemptChunk(file, respond, i, filename, sent)
    case Succeeded(_, s) =>
    case Canceled(s) =>
    case Threw(m, fn, s) =>
      if retry + 1 < MaxRetries {
        TryChunkKeepsName(file, respond, i, retry + 1, fn, s);
      }
  }

  /** After chunk 0, with a name known, every retry posts the same request. */
  lemma {:induction false} TryChunkSameRequest(file: FileInfo, respond: nat -> Response, i: nat, retry: nat,
                                       filename: Option<string>, sent: seq<Request>)
    requires retry < MaxRetries
    ensures var st := TryChunk(file, respond, i, retry, filename, sent);
            i > 0 && Truthy(filename) ==>
              forall k :: |sent| <= k < |st.sent| ==> st.sent[k] == ChunkRequest(file, i, filename)
    decreases MaxRetries - retry
  {
    match AttemptChunk(file, respond, i, filename, sent)
    case Succeeded(_, s) =>
    case Canceled(s) =>
    case Threw(m, fn, s) =>
      if retry + 1 < MaxRetries {
        TryChunkSameRequest(file, respond, i, retry + 1, fn, s);
        TryChunkPrefix(file, respond, i, retry + 1, fn, s);
      }
  }

  predicate SuccessInv(file: FileInfo, respond: nat -> Response, i: nat, filename: Option<string>, sent: seq<Request>) {
    (i == 0 ==> filename == None && sent == []) &&
    (i > 0 ==> Truthy(filename) && NameFromServer(sent, respond, filename) && LaterPostsCarry(sent, filename.value)) &&
    (forall j :: 0 <= j < i ==> Answered(sent, respond, j))
  }

  /** The combine step keeps what the chunks established and adds the final answered request. */
  lemma FinalizeSucceeds(file: FileInfo, respond: nat -> Response, filename: Option<string>, sent: seq<Request>)
    requires SuccessInv(file, respond, TotalChunks(file.size), filename, sent)
    ensures var out := Finalize(file, respond, filename, sent);
            out.result.Ok? ==> (TotalChunks(file.size) >= 1 && |out.sent| >= 1 &&
              out.sent[|out.sent| - 1] == CombineChunks(out.result.value, TotalChunks(file.size)) &&
              respond(|out.sent| - 1).Answer? && respond(|out.sent| - 1).status == 200)
    ensures var out := Finalize(file, respond, filename, sent);
            out.result.Ok? ==> forall j :: 0 <= j < TotalChunks(file.size) ==> Answered(out.sent, respond, j)
    ensures var out := Finalize(file, respond, filename, sent);
            out.result.Ok? ==> NameFromServer(out.sent, respond, Some(out.result.value)) &&
                               LaterPostsCarry(out.sent, out.result.value)
  {
    var out := Finalize(file, respond, filename, sent);
    if out.result.Ok? {
      assert out.sent == sent + [out.sent[|out.sent| - 1]];
      assert forall k :: 0 <= k < |sent| ==> out.sent[k] == sent[k];
      forall j | 0 <= j < TotalChunks(file.size) ensures Answered(out.sent, respond, j) {
        assert Answered(sent, respond, j);
        var k :| 0 <= k < |sent| && sent[k].ChunkPost? && sent[k].chunkIndex == j && Accepted(respond(k));
        assert out.sent[k] == sent[k];
      }
      var k :| 0 <= k < |sent| && sent[k].ChunkPost? && sent[k].initial && Accepted(respond(k)) && respond(k).filename == filename;
      assert out.sent[k] == sent[k];
    }
  }

  lemma StepAnswered(file: FileInfo, respond: nat -> Response, i: nat, filename: Option<string>, sent: seq<Request>)
    requires forall j :: 0 <= j < i ==> Answered(sent, respond, j)
    ensures var st := TryChunk(file, respond, i, 0, filename, sent);
            st.Done? ==> forall j :: 0 <= j < i + 1 ==> Answered(st.sent, respond, j)
  {
    var st := TryChunk(file, respond, i, 0, filename, sent);
    TryChunkDone(file, respond, i, 0, filename, sent);
    TryChunkSegment(file, respond, i, 0, filename, sent);
    if st.Done? {
      forall j | 0 <= j < i + 1 ensures Answered(st.sent, respond, j) {
        if j < i {
          assert Answered(sent, respond, j);
          var k :| 0 <= k < |sent| && sent[k].ChunkPost? && sent[k].chunkIndex == j && Accepted(respond(k));
          assert st.sent[k] == st.sent[..|sent|][k];
        } else {
          assert st.sent[|st.sent| - 1].chunkIndex == j;
        }
      }
    }
  }

  lemma StepName(file: FileInfo, respond: nat -> Response, i: nat, filename: Option<string>, sent: seq<Request>)
    requires i > 0 ==> NameFromServer(sent, respond, filename)
    ensures var st := TryChunk(file, respond, i, 0, filename, sent);
            st.Done? ==> NameFromServer(st.sent, respond, st.filename)
  {
    var st := TryChunk(file, respond, i, 0, filename, sent);
    TryChunkDone(file, respond, i, 0, filename, sent);
    TryChunkSegment(file, respond, i, 0, filename, sent);
    if st.Done? {
      if i == 0 {
        assert respond(|st.sent| - 1).filename == st.filename;
      } else {
        var k :| 0 <= k < |sent| && sent[k].ChunkPost? && sent[k].initial && Accepted(respond(k)) && respond(k).filename == filename;
        assert st.sent[k] == st.sent[..|sent|][k];
      }
    }
  }

  lemma StepCarry(file: FileInfo, respond: nat -> Response, i: nat, filename: Option<string>, sent: seq<Request>)
    requires i == 0 ==> sent == []
    requires i > 0 ==> Truthy(filename) && LaterPostsCarry(sent, filename.value)
    ensures var st := TryChunk(file, respond, i, 0, filename, sent);
            st.Done? ==> Truthy(st.filename) && LaterPostsCarry(st.sent, st.filename.value)
  {
    var st := TryChunk(file, respond, i, 0, filename, sent);
    TryChunkDone(file, respond, i, 0, filename, sent);
    TryChunkSegment(file, respond, i, 0, filename, sent);
    if st.Done? && i > 0 {
      forall k | 0 <= k < |st.sent| && st.sent[k].ChunkPost? && !st.sent[k].initial
        ensures st.sent[k].filenameField == st.filename.value
      {
        if k < |sent| {
          assert st.sent[k] == st.sent[..|sent|][k];
        } else {
          assert st.sent[k] == ChunkRequest(file, i, filename);
        }
      }
    }
  }

  /** One successful retry loop moves the invariant from chunk `i` to chunk `i + 1`. */
  lemma ChunkStepKeepsInv(file: FileInfo, respond: nat -> Response, i: nat, filename: Option<string>, sent: seq<Request>)
    requires i < TotalChunks(file.size)
    requires SuccessInv(file, respond, i, filename, sent)
    ensures var st := TryChunk(file, respond, i, 0, filename, sent);
            st.Done? ==> SuccessInv(file, respond, i + 1, st.filename, st.sent)
  {
    StepAnswered(file, respond, i, filename, sent);
    StepName(file, respond, i, filename, sent);
    StepCarry(file, respond, i, filename, sent);
  }

  lemma {:induction false} ChunksSucceed(file: FileInfo, respond: nat -> Response, i: nat, filename: Option<string>,
                                         sent: seq<Request>)
    requires i <= TotalChunks(file.size)
    requires SuccessInv(file, respond, i, filename, sent)
    ensures var out := Chunks(file, respond, i, filename, sent);
            out.result.Ok? ==> (TotalChunks(file.size) >= 1 && |out.sent| >= 1 &&
              out.sent[|out.sent| - 1] == CombineChunks(out.result.value, TotalChunks(file.size)) &&
              respond(|out.sent| - 1).Answer? && respond(|out.sent| - 1).status == 200)
    ensures var out := Chunks(file, respond, i, filename, sent);
            out.result.Ok? ==> forall j :: 0 <= j < TotalChunks(file.size) ==> Answered(out.sent, respond, j)
    ensures var out := Chunks(file, respond, i, filename, sent);
            out.result.Ok? ==> NameFromServer(out.sent, respond, Some(out.result.value)) &&
                               LaterPostsCarry(out.sent, out.result.value)
    decreases TotalChunks(file.size) - i
  {
    if i == TotalChunks(file.size) {
      FinalizeSucceeds(file, respond, filename, sent);
    } else {
      var st := TryChunk(file, respond, i, 0, filename, sent);
      ChunkStepKeepsInv(file, respond, i, filename, sent);
      if st.Done? {
        ChunksSucceed(file, respond, i + 1, st.filename, st.sent);
      }
    }
  }

  /**
   * A successful upload combined every chunk: every chunk was answered, the
   * combine request came last with the full chunk count and got status 200,
   * and the returned name is the one the server gave for the first chunk and
   * the one every later chunk carried.
   */
  lemma UploadSucceeds(file: FileInfo, respond: nat -> Response)
    ensures var out := Upload(file, respond);
            out.result.Ok? ==> (TotalChunks(file.size) >= 1 && |out.sent| >= 1 &&
              out.sent[|out.sent| - 1] == CombineChunks(out.result.value, TotalChunks(file.size)) &&
              respond(|out.sent| - 1).Answer? && respond(|out.sent| - 1).status == 200)
    ensures var out := Upload(file, respond);
            out.result.Ok? ==> forall j :: 0 <= j < TotalChunks(file.size) ==> Answered(out.sent, respond, j)
    ensures var out := Upload(file, respond);
            out.result.Ok? ==> out.result.value != "" && NameFromServer(out.sent, respond, Some(out.result.value)) &&
                               LaterPostsCarry(out.sent, out.result.value)
  {
    ChunksSucceed(file, respond, 0, None, []);
    ChunksNameNonEmpty(file, respond, 0, None, []);
  }

  /**
   * A server that answers the first chunk's posts outside 2xx makes axios
   * reject each of them: the chunk is posted three times, with no name yet, and
   * the third rejection aborts the upload with axios's error.
   */
  lemma ServerErrorsAbortUpload(file: FileInfo, respond: nat -> Response)
    requires file.size > 0
    requires forall k :: 0 <= k < MaxRetries ==> respond(k).Answer? && !Is2xx(respond(k).status)
    ensures var post := ChunkRequest(file, 0, None);
            Upload(file, respond) == Outcome(Err(StatusError(respond(2).status)), [post, post, post])
  {
    var post := ChunkRequest(file, 0, None);
    var last := Stop(StatusError(respond(2).status), [post, post, post]);
    RejectedTry(file, respond, 2, [post, post]);
    assert TryChunk(file, respond, 0, 2, None, [post, post]) == last;
    RejectedTry(file, respond, 1, [post]);
    assert TryChunk(file, respond, 0, 1, None, [post]) == last;
    RejectedTry(file, respond, 0, []);
    assert TryChunk(file, respond, 0, 0, None, []) == last;
    assert TotalChunks(file.size) > 0;
    assert Chunks(file, respond, 0, None, []) == AfterChunk(file, respond, 0, last);
  }

  /** A try of chunk 0 with no name yet, answered outside 2xx, fails with axios's error and keeps no name. */
  lemma RejectedTry(file: FileInfo, respond: nat -> Response, k: nat, sent: seq<Request>)
    requires |sent| == k && respond(k).Answer? && !Is2xx(respond(k).status)
    ensures AttemptChunk(file, respond, 0, None, sent) ==
            Threw(StatusError(respond(k).status), None, sent + [ChunkRequest(file, 0, None)])
  {
  }

  lemma {:induction false} ChunksNameNonEmpty(file: FileInfo, respond: nat -> Response, i: nat, filename: Option<string>,
                                              sent: seq<Request>)
    requires i <= TotalChunks(file.size)
    ensures var out := Chunks(file, respond, i, filename, sent);
            out.result.Ok? ==> out.result.value != ""
    decreases TotalChunks(file.size) - i
  {
    if i < TotalChunks(file.size) {
      var st := TryChunk(file, respond, i, 0, filename, sent);
      if st.Done? {
        ChunksNameNonEmpty(file, respond, i + 1, st.filename, st.sent);
      }
    }
  }

  datatype StudyMaterial = StudyMaterial(fileName: string, displayName: string)

  /** After a successful upload: the chapter's materials (none when unset) plus one entry for the file. */
  function WithUploaded(current: Option<seq<StudyMaterial>>, filename: string, file: FileInfo): (r: seq<StudyMaterial>)
    ensures current.Some? ==> |r| == |current.value| + 1 && r[..|current.value|] == current.value
    ensures current.None? ==> |r| == 1
    ensures r[|r| - 1] == StudyMaterial(filename, file.name)
  {
    (if current.Some? then current.value else []) + [StudyMaterial(filename, file.name)]
  }
}
