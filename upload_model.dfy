/**
 * The values the upload coordinator works with, the requests it issues to the
 * filesystem and the storage client, and the reference semantics of one run
 * as a pure function from the request and the collaborators' answers to the
 * calls issued and the outcome handed to the completion callback.
 */
module UploadModel {
  import opened PartMath

  type Error = string
  /** The storage backend's answer object, opaque to the coordinator. */
  type Response = string
  type UploadId = string
  type ETag = string

  datatype Option<T> = None | Some(value: T)

  datatype Result<T> = Ok(value: T) | Err(error: Error)

  /** What the completion callback `done` receives: `done(null, data)` or `done(err)`. */
  datatype Outcome = Succeeded(data: Response) | Failed(error: Error)

  /** A finished backend call passed straight on to `done`. */
  function Reported(r: Result<Response>): Outcome
  {
    match r
    case Ok(data) => Succeeded(data)
    case Err(e) => Failed(e)
  }

  /** The caller's options. Absent optional strings are `None`. */
  datatype Options = Options(
    bucket: string,
    key: string,
    file: string,
    acl: Option<string>,
    cacheControl: Option<string>,
    contentDisposition: Option<string>,
    contentType: Option<string>,
    partSize: PartSizeRequest)

  /** The metadata sent with a single put or with session creation. */
  datatype ObjectParams = ObjectParams(
    bucket: string,
    key: string,
    acl: Option<string>,
    cacheControl: Option<string>,
    contentDisposition: Option<string>,
    contentType: string)

  /** `options.ContentType || lookup(file)`: a missing or empty content type falls through to the lookup. */
  predicate HasExplicitContentType(o: Options)
  {
    o.contentType.Some? && o.contentType.value != ""
  }

  /** The metadata built from the options, with `mimeType` the lookup's answer for the file. */
  function ParamsFor(o: Options, mimeType: string): ObjectParams
  {
    ObjectParams(o.bucket, o.key, o.acl, o.cacheControl, o.contentDisposition,
      if HasExplicitContentType(o) then o.contentType.value else mimeType)
  }

  /** A request the coordinator issues to one of its collaborators. */
  datatype Call =
    | FsStat(path: string)
    | MimeLookup(path: string)
    | FsReadFile(path: string)
    | FsReadRange(path: string, start: int, end: int)
    | S3PutObject(params: ObjectParams)
    | S3CreateMultipartUpload(params: ObjectParams)
    | S3UploadPart(bucket: string, key: string, uploadId: UploadId, partNumber: int)
    | S3CompleteMultipartUpload(bucket: string, key: string, uploadId: UploadId)
    | S3AbortMultipartUpload(bucket: string, key: string, uploadId: UploadId)
  {
    function Kind(): CallKind
    {
      match this
      case FsStat(_) => StatKind
      case MimeLookup(_) => LookupKind
      case FsReadFile(_) => ReadFileKind
      case FsReadRange(_, _, _) => ReadRangeKind
      case S3PutObject(_) => PutKind
      case S3CreateMultipartUpload(_) => CreateKind
      case S3UploadPart(_, _, _, _) => UploadPartKind
      case S3CompleteMultipartUpload(_, _, _) => CompleteKind
      case S3AbortMultipartUpload(_, _, _) => AbortKind
    }
  }

  datatype CallKind =
    StatKind | LookupKind | ReadFileKind | ReadRangeKind | PutKind
    | CreateKind | UploadPartKind | CompleteKind | AbortKind

  /** What became of one part: its range read failed, its upload failed, or it was acknowledged. */
  datatype PartOutcome = ReadFailed(error: Error) | UploadFailed(error: Error) | Acked(etag: ETag)

  /**
   * The collaborators' answers for one run: the file's size, the content type
   * the lookup gives, the whole-file read, the single put, session creation,
   * each part by its number, completion, and the abort (whose answer the
   * coordinator ignores).
   */
  datatype Env = Env(
    stat: Result<nat>,
    mimeType: string,
    readFile: Option<Error>,
    put: Result<Response>,
    create: Result<UploadId>,
    part: nat -> PartOutcome,
    complete: Result<Response>,
    abort: Option<Error>)

  /** One entry of the parts table: `{ETag, PartNumber}`. */
  datatype Ack = Ack(etag: ETag, partNumber: int)

  /** The fixed data of a multipart session, as the descriptor holds it. */
  datatype Session = Session(
    bucket: string,
    key: string,
    file: string,
    uploadId: UploadId,
    count: nat,
    partSize: nat)

  /** The calls issued, in order, and the value the completion callback receives. */
  datatype Run = Run(calls: seq<Call>, outcome: Outcome)

  function Prepend(calls: seq<Call>, r: Run): Run
  {
    Run(calls + r.calls, r.outcome)
  }

  /** Abort of the session: one abort call, then the triggering error goes to `done`. */
  function AbortRun(s: Session, e: Error): Run
  {
    Run([S3AbortMultipartUpload(s.bucket, s.key, s.uploadId)], Failed(e))
  }

  /** Completion of the session: one completion call, whose answer goes to `done`. */
  function CompleteRun(s: Session, env: Env): Run
  {
    Run([S3CompleteMultipartUpload(s.bucket, s.key, s.uploadId)], Reported(env.complete))
  }

  /** The read call for part `n` over its nominal range. */
  function ReadCall(s: Session, n: int): Call
  {
    var range := PartRange(n, s.partSize);
    FsReadRange(s.file, range.start, range.end)
  }

  function UploadCall(s: Session, n: int): Call
  {
    S3UploadPart(s.bucket, s.key, s.uploadId, n)
  }

  /**
   * The run from the moment part `n` is about to be uploaded: read its range,
   * upload it, and on acknowledgment go on with the next part; a read or
   * upload error aborts the session.
   */
  function PartPhase(s: Session, env: Env, n: nat): Run
    requires 1 <= n <= s.count
    decreases s.count - n, 1
  {
    match env.part(n)
    case ReadFailed(e) => Prepend([ReadCall(s, n)], AbortRun(s, e))
    case UploadFailed(e) => Prepend([ReadCall(s, n), UploadCall(s, n)], AbortRun(s, e))
    case Acked(_) => Prepend([ReadCall(s, n), UploadCall(s, n)], AfterPart(s, env, n))
  }

  /** After part `n` is acknowledged the cursor moves on; past the last part the session is completed. */
  function AfterPart(s: Session, env: Env, n: nat): Run
    requires 1 <= n <= s.count
    decreases s.count - n, 0
  {
    if n + 1 > s.count then CompleteRun(s, env) else PartPhase(s, env, n + 1)
  }

  /** The session created for a file of `size` bytes under upload id `id`. */
  function SessionFor(o: Options, size: nat, id: UploadId): (s: Session)
    ensures s.partSize == EffectivePartSize(o.partSize)
    ensures s.bucket == o.bucket && s.key == o.key && s.file == o.file && s.uploadId == id
    ensures size > 0 ==> s.count >= 1 && (s.count - 1) * s.partSize < size <= s.count * s.partSize
  {
    var p := EffectivePartSize(o.partSize);
    Session(o.bucket, o.key, o.file, id, PartCount(size, p), p)
  }

  /** The calls made once the file's size is known, before the strategy is chosen. */
  function StatAndLookup(o: Options): seq<Call>
  {
    [FsStat(o.file)] + if HasExplicitContentType(o) then [] else [MimeLookup(o.file)]
  }

  /** The single-put path: read the whole file, then put it. */
  function SinglePut(o: Options, params: ObjectParams, env: Env): Run
  {
    match env.readFile
    case Some(e) => Run([FsReadFile(o.file)], Failed(e))
    case None => Run([FsReadFile(o.file), S3PutObject(params)], Reported(env.put))
  }

  /** One call of the coordinator, from the stat of the file to the value `done` receives. */
  function Upload(o: Options, env: Env): Run
  {
    match env.stat
    case Err(e) => Run([FsStat(o.file)], Failed(e))
    case Ok(size) =>
      var params := ParamsFor(o, env.mimeType);
      if IsSinglePut(size) then
        Prepend(StatAndLookup(o), SinglePut(o, params, env))
      else
        Prepend(StatAndLookup(o) + [S3CreateMultipartUpload(params)],
          match env.create
          case Err(e) => Run([], Failed(e))
          case Ok(id) => PartPhase(SessionFor(o, size, id), env, 1))
  }

  /**
   * The first part from `n` on that was not acknowledged, or `count + 1` when
   * all of them were.
   */
  function FirstUnacked(part: nat -> PartOutcome, n: nat, count: nat): (k: nat)
    requires 1 <= n <= count + 1
    ensures n <= k <= count + 1
    ensures forall j :: n <= j < k ==> part(j).Acked?
    ensures k <= count ==> !part(k).Acked?
    decreases count + 1 - n
  {
    if n > count then n
    else if part(n).Acked? then FirstUnacked(part, n + 1, count)
    else n
  }

  /**
   * JavaScript's `parts[i] = v` on an array: it overwrites entry `i`, or, past
   * the end, grows the array with holes up to `i`.
   */
  function Store(parts: seq<Option<Ack>>, i: nat, v: Ack): (r: seq<Option<Ack>>)
    ensures |r| == if i < |parts| then |parts| else i + 1
    ensures r[i] == Some(v)
    ensures forall j :: 0 <= j < |parts| && j != i ==> r[j] == parts[j]
    ensures forall j :: |parts| <= j < i ==> r[j] == None
  {
    if i < |parts| then parts[i := Some(v)]
    else parts + seq(i - |parts|, _ => None) + [Some(v)]
  }

  /** The calls of one kind, in the order they were issued. */
  function Select(calls: seq<Call>, kind: CallKind): (r: seq<Call>)
    ensures |r| <= |calls|
    ensures forall i :: 0 <= i < |r| ==> r[i].Kind() == kind
  {
    if calls == [] then []
    else (if calls[0].Kind() == kind then [calls[0]] else []) + Select(calls[1..], kind)
  }
}
