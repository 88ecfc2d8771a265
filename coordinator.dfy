/**
 * The upload coordinator: `MultipartUpload` chooses the strategy and, for a
 * large file, builds a `Descriptor` whose methods drive the part-upload state
 * machine one callback at a time. The collaborators' answers are read from an
 * `Env`; the requests issued are appended to `calls`, and each invocation of
 * the completion callback to `reports`.
 */
module Coordinator {
  import opened PartMath
  import opened UploadModel

  /**
   * The descriptor of one multipart session: the part count and size, the
   * range options of the current read, the cursor `partNumber`, the parts
   * table, and the requests and reports issued so far.
   */
  class Descriptor {
    const count: nat
    const partSize: nat
    const file: string
    const bucket: string
    const key: string
    const uploadId: UploadId
    /** The storage client and filesystem the descriptor talks to. */
    const backend: Env

    var start: int
    var end: int
    var partNumber: int
    var parts: seq<Option<Ack>>
    var calls: seq<Call>
    var reports: seq<Outcome>

    function AsSession(): Session
    {
      Session(bucket, key, file, uploadId, count, partSize)
    }

    /** The parts table holds exactly the first `m` parts, each with its number and the tag it was acknowledged with. */
    ghost predicate AckedThrough(m: int)
      reads this
    {
      && |parts| == m
      && forall i :: 0 <= i < |parts| ==>
           parts[i].Some? && parts[i].value.partNumber == i + 1
           && backend.part(i + 1) == Acked(parts[i].value.etag)
    }

    /** The cursor never passes `count + 1`, and every part before it has been acknowledged. */
    ghost predicate Valid()
      reads this
    {
      && count >= 1
      && partSize >= MinPartSize
      && 1 <= partNumber <= count + 1
      && AckedThrough(partNumber - 1)
    }

    constructor (count: nat, partSize: nat, file: string, bucket: string, key: string,
                 uploadId: UploadId, backend: Env)
      requires count >= 1 && partSize >= MinPartSize
      ensures Valid()
      ensures this.count == count && this.partSize == partSize && this.file == file
      ensures this.bucket == bucket && this.key == key && this.uploadId == uploadId
      ensures this.backend == backend
      ensures start == 0 && end == 0 && partNumber == 1
      ensures parts == [] && calls == [] && reports == []
    {
      this.count := count;
      this.partSize := partSize;
      this.file := file;
      this.bucket := bucket;
      this.key := key;
      this.uploadId := uploadId;
      this.backend := backend;
      start, end := 0, 0;
      partNumber := 1;
      parts := [];
      calls, reports := [], [];
    }

    /**
     * Read the range of the part under the cursor and upload it. The session
     * then runs to its end: `calls` gains the requests of `PartPhase` from
     * this part on and `done` is called once with its outcome; the cursor
     * stops at the first part that was not acknowledged, or one past the last.
     */
    method UploadPart()
      requires Valid() && partNumber <= count && reports == []
      modifies this
      ensures Valid()
      ensures partNumber == FirstUnacked(backend.part, old(partNumber), count)
      ensures ByteRange(start, end) == PartRange(if partNumber > count then count else partNumber, partSize)
      ensures calls == old(calls) + PartPhase(AsSession(), backend, old(partNumber)).calls
      ensures reports == [PartPhase(AsSession(), backend, old(partNumber)).outcome]
      decreases count - partNumber, 2
    {
      end := partNumber * partSize;
      start := end - partSize;
      calls := calls + [FsReadRange(file, start, end)];
      match backend.part(partNumber)
      case ReadFailed(e) =>
        UploadNextPart(Some(e));
      case _ =>
        SendPart();
    }

    /**
     * The range of the part under the cursor has been read: upload it, store
     * its acknowledgment in the parts table at index `partNumber - 1`, and
     * continue; an upload error goes on to the abort instead.
     */
    method SendPart()
      requires Valid() && partNumber <= count && reports == []
      requires !backend.part(partNumber).ReadFailed?
      requires ByteRange(start, end) == PartRange(partNumber, partSize)
      modifies this
      ensures Valid()
      ensures partNumber == FirstUnacked(backend.part, old(partNumber), count)
      ensures ByteRange(start, end) == PartRange(if partNumber > count then count else partNumber, partSize)
      ensures calls == old(calls) + [UploadCall(AsSession(), old(partNumber))]
                       + (if backend.part(old(partNumber)).Acked?
                          then AfterPart(AsSession(), backend, old(partNumber))
                          else AbortRun(AsSession(), backend.part(old(partNumber)).error)).calls
      ensures reports == [(if backend.part(old(partNumber)).Acked?
                           then AfterPart(AsSession(), backend, old(partNumber))
                           else AbortRun(AsSession(), backend.part(old(partNumber)).error)).outcome]
      decreases count - partNumber, 1
    {
      calls := calls + [S3UploadPart(bucket, key, uploadId, partNumber)];
      match backend.part(partNumber)
      case UploadFailed(e) =>
        UploadNextPart(Some(e));
      case Acked(etag) =>
        parts := Store(parts, partNumber - 1, Ack(etag, partNumber));
        UploadNextPart(None);
    }

    /**
     * Continue after the part under the cursor: on an error abort the
     * session; otherwise advance the cursor and either complete the session,
     * once the cursor has passed `count`, or upload the next part.
     */
    method UploadNextPart(error: Option<Error>)
      requires count >= 1 && partSize >= MinPartSize && 1 <= partNumber <= count
      requires AckedThrough(if error.None? then partNumber else partNumber - 1)
      requires ByteRange(start, end) == PartRange(partNumber, partSize)
      requires reports == []
      modifies this
      ensures Valid()
      ensures error.Some? ==> partNumber == old(partNumber)
      ensures error.None? ==> partNumber == FirstUnacked(backend.part, old(partNumber) + 1, count)
      ensures ByteRange(start, end) == PartRange(if partNumber > count then count else partNumber, partSize)
      ensures var r := if error.Some? then AbortRun(AsSession(), error.value)
                       else AfterPart(AsSession(), backend, old(partNumber));
        calls == old(calls) + r.calls && reports == [r.outcome]
      decreases count - partNumber, 0
    {
      if error.Some? {
        AbortUpload(error.value);
        return;
      }
      partNumber := partNumber + 1;
      if partNumber > count {
        CompleteUpload();
      } else {
        UploadPart();
      }
    }

    /** Ask the backend to complete the session and pass its answer to `done`. */
    method CompleteUpload()
      requires reports == []
      modifies this`calls, this`reports
      ensures calls == old(calls) + [S3CompleteMultipartUpload(bucket, key, uploadId)]
      ensures reports == [Reported(backend.complete)]
    {
      calls := calls + [S3CompleteMultipartUpload(bucket, key, uploadId)];
      reports := reports + [Reported(backend.complete)];
    }

    /** Ask the backend to abort the session; whatever it answers, `done` receives `error`. */
    method AbortUpload(error: Error)
      requires reports == []
      modifies this`calls, this`reports
      ensures calls == old(calls) + [S3AbortMultipartUpload(bucket, key, uploadId)]
      ensures reports == [Failed(error)]
    {
      calls := calls + [S3AbortMultipartUpload(bucket, key, uploadId)];
      reports := reports + [Failed(error)];
    }
  }

  /**
   * Build the descriptor of a created session and upload its first part; the
   * part phase then runs to its end. The parts table it leaves holds every
   * part before the first one that was not acknowledged.
   */
  method StartSession(session: Session, env: Env)
    returns (calls: seq<Call>, reports: seq<Outcome>, parts: seq<Option<Ack>>)
    requires session.count >= 1 && session.partSize >= MinPartSize
    ensures calls == PartPhase(session, env, 1).calls
    ensures reports == [PartPhase(session, env, 1).outcome]
    ensures |parts| + 1 == FirstUnacked(env.part, 1, session.count)
    ensures forall i :: 0 <= i < |parts| ==>
      parts[i].Some? && parts[i].value.partNumber == i + 1 && env.part(i + 1) == Acked(parts[i].value.etag)
  {
    var descriptor := new Descriptor(session.count, session.partSize, session.file,
                                     session.bucket, session.key, session.uploadId, env);
    descriptor.UploadPart();
    calls, reports, parts := descriptor.calls, descriptor.reports, descriptor.parts;
  }

  /**
   * One call of the coordinator: clamp the part size, stat the file, build
   * the metadata, then either put the file in one request or create a
   * session and upload it part by part. The requests it issues and the
   * values passed to `done` are those of `Upload`: `done` is called exactly
   * once. `parts` is the session's parts table at the end: entry `i` holds
   * part `i + 1` with the tag it was acknowledged with, and the table runs
   * up to the first part that was not acknowledged, so it lists all `count`
   * parts when the session completes.
   */
  method MultipartUpload(options: Options, env: Env)
    returns (calls: seq<Call>, reports: seq<Outcome>, parts: seq<Option<Ack>>)
    ensures calls == Upload(options, env).calls
    ensures reports == [Upload(options, env).outcome]
    ensures forall i :: 0 <= i < |parts| ==>
      parts[i].Some? && parts[i].value.partNumber == i + 1 && env.part(i + 1) == Acked(parts[i].value.etag)
    ensures if env.stat.Ok? && !IsSinglePut(env.stat.value) && env.create.Ok?
      then |parts| + 1 == FirstUnacked(env.part, 1, SessionFor(options, env.stat.value, env.create.value).count)
      else parts == []
  {
    parts := [];
    var opts := options;
    if BelowMinimum(opts.partSize) || IsNaN(opts.partSize) {
      opts := opts.(partSize := Given(MinPartSize));
    }
    calls := [FsStat(opts.file)];
    match env.stat
    case Err(e) =>
      reports := [Failed(e)];
    case Ok(size) =>
      if !HasExplicitContentType(opts) {
        calls := calls + [MimeLookup(opts.file)];
      }
      assert calls == StatAndLookup(options);
      var params := ParamsFor(opts, env.mimeType);
      assert params == ParamsFor(options, env.mimeType);
      if size <= MinPartSize {
        calls := calls + [FsReadFile(opts.file)];
        match env.readFile
        case Some(e) =>
          reports := [Failed(e)];
        case None =>
          calls := calls + [S3PutObject(params)];
          reports := [Reported(env.put)];
      } else {
        calls := calls + [S3CreateMultipartUpload(params)];
        match env.create
        case Err(e) =>
          reports := [Failed(e)];
        case Ok(id) =>
          var partSize := opts.partSize.bytes;
          var session := Session(opts.bucket, opts.key, opts.file, id, PartCount(size, partSize), partSize);
          assert session == SessionFor(options, size, id);
          var sessionCalls;
          sessionCalls, reports, parts := StartSession(session, env);
          calls := calls + sessionCalls;
      }
  }
}
