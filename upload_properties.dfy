/**
 * What one run of the coordinator does, proved about the reference semantics
 * `Upload` and its part phase: the strategy threshold, the order of the part
 * reads and uploads, the single completion or abort that ends a session, and
 * the value the completion callback receives.
 */
module UploadProperties {
  import opened PartMath
  import opened UploadModel

  /** The upload calls of parts `lo..hi-1`, in that order. */
  function UploadCalls(s: Session, lo: int, hi: int): seq<Call>
    requires lo <= hi
  {
    seq(hi - lo, i => S3UploadPart(s.bucket, s.key, s.uploadId, lo + i))
  }

  /** The reads of the nominal ranges of parts `lo..hi-1`, in that order. */
  function ReadCalls(s: Session, lo: int, hi: int): seq<Call>
    requires lo <= hi
  {
    seq(hi - lo, i => FsReadRange(s.file, PartRange(lo + i, s.partSize).start, PartRange(lo + i, s.partSize).end))
  }

  /**
   * The last part whose upload is requested in a phase starting at part `n`:
   * the last part if all were acknowledged, the failing part if its upload
   * failed, the one before it if its read failed.
   */
  function LastUploaded(s: Session, env: Env, n: nat): int
    requires 1 <= n <= s.count
  {
    var k := FirstUnacked(env.part, n, s.count);
    if k > s.count then s.count else if env.part(k).ReadFailed? then k - 1 else k
  }

  /** The last part whose range is read in a phase starting at part `n`. */
  function LastRead(s: Session, env: Env, n: nat): int
    requires 1 <= n <= s.count
  {
    var k := FirstUnacked(env.part, n, s.count);
    if k > s.count then s.count else k
  }

  lemma SelectCons(c: Call, rest: seq<Call>, kind: CallKind)
    ensures Select([c] + rest, kind) == (if c.Kind() == kind then [c] else []) + Select(rest, kind)
  {
    assert ([c] + rest)[1..] == rest;
  }

  /** Selecting calls of one kind distributes over concatenation. */
  lemma {:induction false} SelectAppend(a: seq<Call>, b: seq<Call>, kind: CallKind)
    ensures Select(a + b, kind) == Select(a, kind) + Select(b, kind)
    decreases |a|
  {
    if a == [] {
      assert a + b == b;
    } else {
      assert (a + b)[0] == a[0];
      assert (a + b)[1..] == a[1..] + b;
      SelectAppend(a[1..], b, kind);
    }
  }

  /** A sequence with no call of a kind selects nothing of it. */
  lemma {:induction false} SelectNone(calls: seq<Call>, kind: CallKind)
    requires forall i :: 0 <= i < |calls| ==> calls[i].Kind() != kind
    ensures Select(calls, kind) == []
    decreases |calls|
  {
    if calls != [] {
      assert calls == [calls[0]] + calls[1..];
      SelectCons(calls[0], calls[1..], kind);
      SelectNone(calls[1..], kind);
    }
  }

  lemma UploadCallsCons(s: Session, lo: int, hi: int)
    requires lo < hi
    ensures UploadCalls(s, lo, hi) == [UploadCall(s, lo)] + UploadCalls(s, lo + 1, hi)
  {
    var r := [UploadCall(s, lo)] + UploadCalls(s, lo + 1, hi);
    assert forall i :: 0 <= i < hi - lo ==> UploadCalls(s, lo, hi)[i] == r[i];
  }

  lemma ReadCallsCons(s: Session, lo: int, hi: int)
    requires lo < hi
    ensures ReadCalls(s, lo, hi) == [ReadCall(s, lo)] + ReadCalls(s, lo + 1, hi)
  {
    var r := [ReadCall(s, lo)] + ReadCalls(s, lo + 1, hi);
    assert forall i :: 0 <= i < hi - lo ==> ReadCalls(s, lo, hi)[i] == r[i];
  }

  /** The request that closes a session when its part phase stops at part `n`. */
  function Closing(s: Session, env: Env, n: nat): Call
  {
    if env.part(n).Acked? then S3CompleteMultipartUpload(s.bucket, s.key, s.uploadId)
    else S3AbortMultipartUpload(s.bucket, s.key, s.uploadId)
  }

  /** The upload request of part `n`, unless its read failed. */
  function UploadIfRead(s: Session, env: Env, n: nat): seq<Call>
  {
    if env.part(n).ReadFailed? then [] else [UploadCall(s, n)]
  }

  /**
   * One step of the part phase: read part `n`, upload it unless the read
   * failed, then either go on with part `n + 1` or close the session.
   */
  lemma PhaseStep(s: Session, env: Env, n: nat)
    requires 1 <= n <= s.count
    ensures var r := PartPhase(s, env, n);
      if env.part(n).Acked? && n + 1 <= s.count then
        && r.calls == [ReadCall(s, n)] + UploadIfRead(s, env, n) + PartPhase(s, env, n + 1).calls
        && r.outcome == PartPhase(s, env, n + 1).outcome
      else
        && r.calls == [ReadCall(s, n)] + UploadIfRead(s, env, n) + [Closing(s, env, n)]
        && r.outcome == (if env.part(n).Acked? then Reported(env.complete) else Failed(env.part(n).error))
  {
  }

  /** Selecting one kind from a step: the read, the upload if any, then the rest. */
  lemma SelectStep(s: Session, env: Env, n: nat, rest: seq<Call>, kind: CallKind)
    ensures Select([ReadCall(s, n)] + UploadIfRead(s, env, n) + rest, kind)
      == (if kind == ReadRangeKind then [ReadCall(s, n)] else [])
         + (if kind == UploadPartKind then UploadIfRead(s, env, n) else [])
         + Select(rest, kind)
  {
    var mid := UploadIfRead(s, env, n);
    SelectAppend([ReadCall(s, n)] + mid, rest, kind);
    SelectAppend([ReadCall(s, n)], mid, kind);
    SelectCons(ReadCall(s, n), [], kind);
    if mid != [] {
      SelectCons(UploadCall(s, n), [], kind);
    }
  }

  /** How the last uploaded and last read parts move from one acknowledged part to the next. */
  lemma LastStep(s: Session, env: Env, n: nat)
    requires 1 <= n <= s.count
    ensures env.part(n).Acked? && n + 1 <= s.count ==>
      LastUploaded(s, env, n) == LastUploaded(s, env, n + 1) && LastRead(s, env, n) == LastRead(s, env, n + 1)
    ensures !(env.part(n).Acked? && n + 1 <= s.count) ==>
      LastUploaded(s, env, n) == (if env.part(n).ReadFailed? then n - 1 else n) && LastRead(s, env, n) == n
  {
    assert env.part(n).Acked? ==> FirstUnacked(env.part, n, s.count) == FirstUnacked(env.part, n + 1, s.count);
  }

  /** An acknowledged part `n` puts its upload call in front of those of the phase from `n + 1`. */
  lemma UploadsAckedStep(s: Session, env: Env, n: nat, last: int)
    requires 1 <= n < s.count && env.part(n).Acked? && n <= last
    requires Select(PartPhase(s, env, n + 1).calls, UploadPartKind) == UploadCalls(s, n + 1, last + 1)
    ensures Select(PartPhase(s, env, n).calls, UploadPartKind) == UploadCalls(s, n, last + 1)
  {
    var rest := PartPhase(s, env, n + 1).calls;
    PhaseStep(s, env, n);
    SelectStep(s, env, n, rest, UploadPartKind);
    UploadCallsCons(s, n, last + 1);
  }

  /** A phase that stops at part `n` uploads part `n` unless its read failed. */
  lemma UploadsLastStep(s: Session, env: Env, n: nat)
    requires 1 <= n <= s.count && !(env.part(n).Acked? && n + 1 <= s.count)
    ensures Select(PartPhase(s, env, n).calls, UploadPartKind)
      == UploadCalls(s, n, (if env.part(n).ReadFailed? then n - 1 else n) + 1)
  {
    PhaseStep(s, env, n);
    SelectStep(s, env, n, [Closing(s, env, n)], UploadPartKind);
    SelectCons(Closing(s, env, n), [], UploadPartKind);
    if !env.part(n).ReadFailed? {
      UploadCallsCons(s, n, n + 1);
    }
  }

  /**
   * Part numbers issued to the upload call from part `n` on are exactly
   * `n, n+1, ..., LastUploaded`: increasing, with no gap and no repeat, all
   * under the session's upload id.
   */
  lemma {:induction false} PhaseUploadsInOrder(s: Session, env: Env, n: nat)
    requires 1 <= n <= s.count
    ensures n - 1 <= LastUploaded(s, env, n) <= s.count
    ensures Select(PartPhase(s, env, n).calls, UploadPartKind) == UploadCalls(s, n, LastUploaded(s, env, n) + 1)
    decreases s.count - n
  {
    LastStep(s, env, n);
    if env.part(n).Acked? && n + 1 <= s.count {
      PhaseUploadsInOrder(s, env, n + 1);
      UploadsAckedStep(s, env, n, LastUploaded(s, env, n));
    } else {
      UploadsLastStep(s, env, n);
    }
  }

  /** An acknowledged part `n` puts its range read in front of those of the phase from `n + 1`. */
  lemma ReadsAckedStep(s: Session, env: Env, n: nat, last: int)
    requires 1 <= n < s.count && env.part(n).Acked? && n <= last
    requires Select(PartPhase(s, env, n + 1).calls, ReadRangeKind) == ReadCalls(s, n + 1, last + 1)
    ensures Select(PartPhase(s, env, n).calls, ReadRangeKind) == ReadCalls(s, n, last + 1)
  {
    var rest := PartPhase(s, env, n + 1).calls;
    PhaseStep(s, env, n);
    SelectStep(s, env, n, rest, ReadRangeKind);
    ReadCallsCons(s, n, last + 1);
  }

  /** A phase that stops at part `n` reads part `n` and no other. */
  lemma ReadsLastStep(s: Session, env: Env, n: nat)
    requires 1 <= n <= s.count && !(env.part(n).Acked? && n + 1 <= s.count)
    ensures Select(PartPhase(s, env, n).calls, ReadRangeKind) == ReadCalls(s, n, n + 1)
  {
    PhaseStep(s, env, n);
    SelectStep(s, env, n, [Closing(s, env, n)], ReadRangeKind);
    SelectCons(Closing(s, env, n), [], ReadRangeKind);
    ReadCallsCons(s, n, n + 1);
  }

  /**
   * The range reads from part `n` on are those of parts `n..LastRead`, each
   * over its nominal range `[(m-1)*P, m*P)`, in increasing order.
   */
  lemma {:induction false} PhaseReadsNominalRanges(s: Session, env: Env, n: nat)
    requires 1 <= n <= s.count
    ensures n <= LastRead(s, env, n) <= s.count
    ensures Select(PartPhase(s, env, n).calls, ReadRangeKind) == ReadCalls(s, n, LastRead(s, env, n) + 1)
    decreases s.count - n
  {
    LastStep(s, env, n);
    if env.part(n).Acked? && n + 1 <= s.count {
      PhaseReadsNominalRanges(s, env, n + 1);
      ReadsAckedStep(s, env, n, LastRead(s, env, n));
    } else {
      ReadsLastStep(s, env, n);
    }
  }

  /** The request that closes the session for a phase starting at part `n`: abort if some part fails, completion otherwise. */
  function FinalCall(s: Session, env: Env, n: nat): Call
    requires 1 <= n <= s.count
  {
    if FirstUnacked(env.part, n, s.count) <= s.count then S3AbortMultipartUpload(s.bucket, s.key, s.uploadId)
    else S3CompleteMultipartUpload(s.bucket, s.key, s.uploadId)
  }

  /** What `done` receives for a phase starting at part `n`: the first failing part's error, or the completion's answer. */
  function FinalOutcome(s: Session, env: Env, n: nat): Outcome
    requires 1 <= n <= s.count
  {
    var k := FirstUnacked(env.part, n, s.count);
    if k <= s.count then Failed(env.part(k).error) else Reported(env.complete)
  }

  /** The final call and outcome do not change from one acknowledged part to the next. */
  lemma FinalStep(s: Session, env: Env, n: nat)
    requires 1 <= n <= s.count
    ensures env.part(n).Acked? && n + 1 <= s.count ==>
      FinalCall(s, env, n) == FinalCall(s, env, n + 1) && FinalOutcome(s, env, n) == FinalOutcome(s, env, n + 1)
    ensures !(env.part(n).Acked? && n + 1 <= s.count) ==>
      FinalCall(s, env, n) == Closing(s, env, n)
      && FinalOutcome(s, env, n) == (if env.part(n).Acked? then Reported(env.complete) else Failed(env.part(n).error))
  {
    assert env.part(n).Acked? ==> FirstUnacked(env.part, n, s.count) == FirstUnacked(env.part, n + 1, s.count);
  }

  /**
   * A phase ends with the request that closes the session, as its last
   * call, and `done` receives the first failing part's own error, or, when
   * every part from `n` to `count` was acknowledged, the completion's answer.
   */
  lemma {:induction false} PhaseOutcome(s: Session, env: Env, n: nat)
    requires 1 <= n <= s.count
    ensures var r := PartPhase(s, env, n);
      && |r.calls| >= 2
      && r.calls[|r.calls| - 1] == FinalCall(s, env, n)
      && r.outcome == FinalOutcome(s, env, n)
    decreases s.count - n
  {
    PhaseStep(s, env, n);
    FinalStep(s, env, n);
    if env.part(n).Acked? && n + 1 <= s.count {
      PhaseOutcome(s, env, n + 1);
    }
  }

  /**
   * A phase issues exactly one request that closes the session: one abort
   * and no completion when a part fails, one completion and no abort when
   * every part is acknowledged.
   */
  lemma {:induction false} PhaseClosesOnce(s: Session, env: Env, n: nat, kind: CallKind)
    requires 1 <= n <= s.count
    requires kind == AbortKind || kind == CompleteKind
    ensures Select(PartPhase(s, env, n).calls, kind)
      == if FinalCall(s, env, n).Kind() == kind then [FinalCall(s, env, n)] else []
    decreases s.count - n
  {
    FinalStep(s, env, n);
    if env.part(n).Acked? && n + 1 <= s.count {
      PhaseClosesOnce(s, env, n + 1, kind);
      ClosesAckedStep(s, env, n, kind);
    } else {
      ClosesLastStep(s, env, n, kind);
    }
  }

  /** An acknowledged part `n` adds no completion or abort in front of the phase from `n + 1`. */
  lemma ClosesAckedStep(s: Session, env: Env, n: nat, kind: CallKind)
    requires 1 <= n < s.count && env.part(n).Acked?
    requires kind == AbortKind || kind == CompleteKind
    ensures Select(PartPhase(s, env, n).calls, kind) == Select(PartPhase(s, env, n + 1).calls, kind)
  {
    PhaseStep(s, env, n);
    SelectStep(s, env, n, PartPhase(s, env, n + 1).calls, kind);
  }

  /** A phase that stops at part `n` holds one closing request, the one `Closing` names. */
  lemma ClosesLastStep(s: Session, env: Env, n: nat, kind: CallKind)
    requires 1 <= n <= s.count && !(env.part(n).Acked? && n + 1 <= s.count)
    requires kind == AbortKind || kind == CompleteKind
    ensures Select(PartPhase(s, env, n).calls, kind)
      == if Closing(s, env, n).Kind() == kind then [Closing(s, env, n)] else []
  {
    PhaseStep(s, env, n);
    SelectStep(s, env, n, [Closing(s, env, n)], kind);
    SelectCons(Closing(s, env, n), [], kind);
  }

  /** The kinds of call a multipart session issues after its creation. */
  predicate SessionKind(kind: CallKind)
  {
    kind == ReadRangeKind || kind == UploadPartKind || kind == CompleteKind || kind == AbortKind
  }

  /** A phase issues range reads, part uploads and one completion or abort, and nothing else. */
  lemma {:induction false} PhaseCallKinds(s: Session, env: Env, n: nat)
    requires 1 <= n <= s.count
    ensures var calls := PartPhase(s, env, n).calls;
      forall i :: 0 <= i < |calls| ==> SessionKind(calls[i].Kind())
    decreases s.count - n
  {
    PhaseStep(s, env, n);
    var calls := PartPhase(s, env, n).calls;
    var head := [ReadCall(s, n)] + UploadIfRead(s, env, n);
    assert forall i :: 0 <= i < |head| ==> SessionKind(head[i].Kind());
    var rest := if env.part(n).Acked? && n + 1 <= s.count then PartPhase(s, env, n + 1).calls
                else [Closing(s, env, n)];
    if env.part(n).Acked? && n + 1 <= s.count {
      PhaseCallKinds(s, env, n + 1);
    }
    assert calls == head + rest;
    forall i | 0 <= i < |calls| ensures SessionKind(calls[i].Kind()) {
      if i >= |head| {
        assert calls[i] == rest[i - |head|];
      } else {
        assert calls[i] == head[i];
      }
    }
  }

  /** The call at position `j` of a whole session is a session request. */
  lemma PhaseKindAt(s: Session, env: Env, j: int)
    requires 1 <= s.count && 0 <= j < |PartPhase(s, env, 1).calls|
    ensures SessionKind(PartPhase(s, env, 1).calls[j].Kind())
  {
    PhaseCallKinds(s, env, 1);
  }

  /** The abort's own answer never changes what a phase issues or reports. */
  lemma {:induction false} PhaseIgnoresAbortOutcome(s: Session, env: Env, n: nat, answer: Option<Error>)
    requires 1 <= n <= s.count
    ensures PartPhase(s, env.(abort := answer), n) == PartPhase(s, env, n)
    decreases s.count - n
  {
    if env.part(n).Acked? && n + 1 <= s.count {
      PhaseIgnoresAbortOutcome(s, env, n + 1, answer);
    }
  }

  /** On the multipart path with a created session, a run is the stat, lookup and creation followed by the part phase from part 1. */
  lemma MultipartRun(o: Options, env: Env)
    requires env.stat.Ok? && !IsSinglePut(env.stat.value) && env.create.Ok?
    ensures var s := SessionFor(o, env.stat.value, env.create.value);
      var prefix := StatAndLookup(o) + [S3CreateMultipartUpload(ParamsFor(o, env.mimeType))];
      && 1 <= s.count
      && Upload(o, env) == Prepend(prefix, PartPhase(s, env, 1))
      && (forall i :: 0 <= i < |prefix| ==> !SessionKind(prefix[i].Kind()) && prefix[i].Kind() != PutKind && prefix[i].Kind() != ReadFileKind)
  {
  }

  /**
   * The single-put path, taken when the file is no larger than the minimum
   * part size: after the stat (and the lookup) the file is read whole and put
   * in one request, whose answer goes to `done`. No session is created and
   * no part, completion or abort request is issued.
   */
  lemma SinglePutPath(o: Options, env: Env)
    requires env.stat.Ok? && IsSinglePut(env.stat.value)
    ensures var r := Upload(o, env);
      && r.calls == StatAndLookup(o) + [FsReadFile(o.file)]
                    + (if env.readFile.None? then [S3PutObject(ParamsFor(o, env.mimeType))] else [])
      && r.outcome == (if env.readFile.None? then Reported(env.put) else Failed(env.readFile.value))
      && forall i :: 0 <= i < |r.calls| ==> !SessionKind(r.calls[i].Kind()) && r.calls[i].Kind() != CreateKind
  {
    var calls := Upload(o, env).calls;
    var tail: seq<Call> := if env.readFile.None? then [S3PutObject(ParamsFor(o, env.mimeType))] else [];
    assert calls == StatAndLookup(o) + [FsReadFile(o.file)] + tail;
    forall i | 0 <= i < |calls|
      ensures !SessionKind(calls[i].Kind()) && calls[i].Kind() != CreateKind
    {
      if i < |StatAndLookup(o)| {
        assert calls[i] == StatAndLookup(o)[i];
      } else if i == |StatAndLookup(o)| {
        assert calls[i] == FsReadFile(o.file);
      } else {
        assert calls[i] == tail[i - |StatAndLookup(o)| - 1];
      }
    }
  }

  /**
   * The multipart path, taken when the file is larger than the minimum part
   * size whatever part size is in force: after the stat (and the lookup) one
   * session is created; no whole-file read or put follows, only session
   * requests (range reads, part uploads, one completion or abort).
   */
  lemma MultipartPath(o: Options, env: Env)
    requires env.stat.Ok? && !IsSinglePut(env.stat.value)
    ensures var calls := Upload(o, env).calls;
      var n := |StatAndLookup(o)|;
      && |calls| > n
      && calls[..n + 1] == StatAndLookup(o) + [S3CreateMultipartUpload(ParamsFor(o, env.mimeType))]
      && forall i :: n < i < |calls| ==> SessionKind(calls[i].Kind())
  {
    var calls := Upload(o, env).calls;
    var n := |StatAndLookup(o)|;
    var prefix := StatAndLookup(o) + [S3CreateMultipartUpload(ParamsFor(o, env.mimeType))];
    if env.create.Ok? {
      var sess := SessionFor(o, env.stat.value, env.create.value);
      var phase := PartPhase(sess, env, 1).calls;
      assert calls == prefix + phase;
      forall i | n < i < |calls| ensures SessionKind(calls[i].Kind()) {
        assert calls[i] == phase[i - n - 1];
        PhaseKindAt(sess, env, i - n - 1);
      }
    } else {
      assert calls == prefix;
    }
    assert calls[..n + 1] == prefix;
  }

  /** On the single-put path the requested part size plays no part at all. */
  lemma SinglePutIgnoresPartSize(o: Options, env: Env, req: PartSizeRequest)
    requires env.stat.Ok? && IsSinglePut(env.stat.value)
    ensures Upload(o.(partSize := req), env) == Upload(o, env)
  {
  }

  /**
   * The content-type lookup is made at most once, right after a successful
   * stat, and exactly when the caller gave no (or an empty) content type.
   */
  lemma ContentTypeLookup(o: Options, env: Env)
    ensures var calls := Upload(o, env).calls;
      forall i :: 0 <= i < |calls| ==>
        (calls[i] == MimeLookup(o.file) <==> i == 1 && env.stat.Ok? && !HasExplicitContentType(o))
        && (calls[i].Kind() == LookupKind ==> calls[i] == MimeLookup(o.file))
    ensures env.stat.Ok? && !HasExplicitContentType(o) ==>
      |Upload(o, env).calls| > 1 && Upload(o, env).calls[1] == MimeLookup(o.file)
  {
    var calls := Upload(o, env).calls;
    if env.stat.Ok? {
      var n := |StatAndLookup(o)|;
      assert calls[..n] == StatAndLookup(o);
      if IsSinglePut(env.stat.value) {
        SinglePutPath(o, env);
        forall i | n <= i < |calls| ensures calls[i].Kind() != LookupKind {
          assert calls[i] == ([FsReadFile(o.file)] + (if env.readFile.None? then [S3PutObject(ParamsFor(o, env.mimeType))] else []))[i - n];
        }
      } else {
        MultipartPath(o, env);
        assert calls[..n + 1][n] == calls[n];
      }
      assert |calls| >= n;
      forall i | 0 <= i < n ensures calls[i] == StatAndLookup(o)[i] {
        assert calls[..n][i] == calls[i];
      }
    }
  }

  /**
   * Errors before a session exists reach `done` directly: a stat error with
   * no other call, a session-creation error with no part, completion or
   * abort request.
   */
  lemma EarlyErrors(o: Options, env: Env)
    ensures env.stat.Err? ==> Upload(o, env) == Run([FsStat(o.file)], Failed(env.stat.error))
    ensures env.stat.Ok? && !IsSinglePut(env.stat.value) && env.create.Err? ==>
      && Upload(o, env).outcome == Failed(env.create.error)
      && Upload(o, env).calls == StatAndLookup(o) + [S3CreateMultipartUpload(ParamsFor(o, env.mimeType))]
  {
  }

  /** The metadata of a put or creation request: the caller's fields, and the content type in force. */
  predicate CarriesOptions(p: ObjectParams, o: Options, mimeType: string)
  {
    && p.bucket == o.bucket && p.key == o.key
    && p.acl == o.acl && p.cacheControl == o.cacheControl
    && p.contentDisposition == o.contentDisposition
    && p.contentType == (if HasExplicitContentType(o) then o.contentType.value else mimeType)
  }

  /**
   * After a successful stat, every put or creation request of a run carries
   * the caller's bucket, key, ACL, cache control and content disposition,
   * and the caller's content type when one was given (non-empty), the
   * lookup's answer otherwise. Such a request is issued right after the
   * stat and lookup on the multipart path, and right after the whole-file
   * read when that read succeeds.
   */
  lemma RequestMetadata(o: Options, env: Env)
    requires env.stat.Ok?
    ensures var calls := Upload(o, env).calls;
      forall i :: 0 <= i < |calls| && (calls[i].S3PutObject? || calls[i].S3CreateMultipartUpload?) ==>
        CarriesOptions(calls[i].params, o, env.mimeType)
    ensures var calls := Upload(o, env).calls;
      var k := |StatAndLookup(o)| + (if IsSinglePut(env.stat.value) then 1 else 0);
      !IsSinglePut(env.stat.value) || env.readFile.None? ==>
        && |calls| > k
        && (if IsSinglePut(env.stat.value) then calls[k].S3PutObject? else calls[k].S3CreateMultipartUpload?)
        && CarriesOptions(calls[k].params, o, env.mimeType)
  {
    var calls := Upload(o, env).calls;
    var n := |StatAndLookup(o)|;
    var params := ParamsFor(o, env.mimeType);
    assert CarriesOptions(params, o, env.mimeType);
    forall i | 0 <= i < n ensures calls[i].Kind() == StatKind || calls[i].Kind() == LookupKind {
      ContentTypeLookup(o, env);
    }
    if IsSinglePut(env.stat.value) {
      SinglePutPath(o, env);
      var tail: seq<Call> := if env.readFile.None? then [S3PutObject(params)] else [];
      forall i | n <= i < |calls| ensures calls[i] == ([FsReadFile(o.file)] + tail)[i - n] {
      }
    } else {
      MultipartPath(o, env);
      assert calls[n] == calls[..n + 1][n];
    }
  }

  /**
   * On the multipart path, part numbers `1..LastUploaded` go to the upload
   * call in order, and the reads cover the nominal ranges of parts
   * `1..LastRead` in order; when every part is acknowledged, both run up to
   * `count = ceil(size / P)`.
   */
  lemma MultipartPartsInOrder(o: Options, env: Env)
    requires env.stat.Ok? && !IsSinglePut(env.stat.value) && env.create.Ok?
    ensures var s := SessionFor(o, env.stat.value, env.create.value);
      var calls := Upload(o, env).calls;
      && Select(calls, UploadPartKind) == UploadCalls(s, 1, LastUploaded(s, env, 1) + 1)
      && Select(calls, ReadRangeKind) == ReadCalls(s, 1, LastRead(s, env, 1) + 1)
      && (FirstUnacked(env.part, 1, s.count) > s.count ==>
            LastUploaded(s, env, 1) == s.count == LastRead(s, env, 1))
  {
    var s := SessionFor(o, env.stat.value, env.create.value);
    var prefix := StatAndLookup(o) + [S3CreateMultipartUpload(ParamsFor(o, env.mimeType))];
    MultipartRun(o, env);
    SelectAppend(prefix, PartPhase(s, env, 1).calls, UploadPartKind);
    SelectAppend(prefix, PartPhase(s, env, 1).calls, ReadRangeKind);
    SelectNone(prefix, UploadPartKind);
    SelectNone(prefix, ReadRangeKind);
    PhaseUploadsInOrder(s, env, 1);
    PhaseReadsNominalRanges(s, env, 1);
  }

  /**
   * A whole part phase ends with exactly one completion or abort, as its
   * last call, and reports the first failing part's error or the
   * completion's answer.
   */
  lemma PhaseEnds(s: Session, env: Env)
    requires 1 <= s.count
    ensures var r := PartPhase(s, env, 1);
      var k := FirstUnacked(env.part, 1, s.count);
      var abort := S3AbortMultipartUpload(s.bucket, s.key, s.uploadId);
      var complete := S3CompleteMultipartUpload(s.bucket, s.key, s.uploadId);
      && |r.calls| >= 2
      && r.calls[|r.calls| - 1] == (if k <= s.count then abort else complete)
      && Select(r.calls, AbortKind) == (if k <= s.count then [abort] else [])
      && Select(r.calls, CompleteKind) == (if k <= s.count then [] else [complete])
      && r.outcome == (if k <= s.count then Failed(env.part(k).error) else Reported(env.complete))
  {
    PhaseOutcome(s, env, 1);
    PhaseClosesOnce(s, env, 1, AbortKind);
    PhaseClosesOnce(s, env, 1, CompleteKind);
  }

  /**
   * A created session ends with exactly one request, completion or abort,
   * and it is the last call. It is completed exactly when every part was
   * acknowledged, and `done` then receives the completion's answer, an error
   * as well, with no abort. Otherwise the first failing part, read or upload,
   * causes one abort under the session's upload id, and `done` receives that
   * part's own error.
   */
  lemma MultipartEndsOnce(o: Options, env: Env)
    requires env.stat.Ok? && !IsSinglePut(env.stat.value) && env.create.Ok?
    ensures var s := SessionFor(o, env.stat.value, env.create.value);
      var r := Upload(o, env);
      var k := FirstUnacked(env.part, 1, s.count);
      var abort := S3AbortMultipartUpload(o.bucket, o.key, env.create.value);
      var complete := S3CompleteMultipartUpload(o.bucket, o.key, env.create.value);
      && r.calls[|r.calls| - 1] == (if k <= s.count then abort else complete)
      && Select(r.calls, AbortKind) == (if k <= s.count then [abort] else [])
      && Select(r.calls, CompleteKind) == (if k <= s.count then [] else [complete])
      && r.outcome == (if k <= s.count then Failed(env.part(k).error) else Reported(env.complete))
  {
    var s := SessionFor(o, env.stat.value, env.create.value);
    MultipartTail(o, env);
    PhaseEnds(s, env);
  }

  /**
   * A run with a created session ends as its part phase from part 1 does:
   * same last call, same session requests of each kind, same outcome.
   */
  lemma MultipartTail(o: Options, env: Env)
    requires env.stat.Ok? && !IsSinglePut(env.stat.value) && env.create.Ok?
    ensures var s := SessionFor(o, env.stat.value, env.create.value);
      var phase := PartPhase(s, env, 1);
      var r := Upload(o, env);
      && 1 <= s.count
      && |phase.calls| > 0
      && r.calls[|r.calls| - 1] == phase.calls[|phase.calls| - 1]
      && r.outcome == phase.outcome
      && forall kind :: SessionKind(kind) ==> Select(r.calls, kind) == Select(phase.calls, kind)
  {
    var s := SessionFor(o, env.stat.value, env.create.value);
    var prefix := StatAndLookup(o) + [S3CreateMultipartUpload(ParamsFor(o, env.mimeType))];
    var phase := PartPhase(s, env, 1);
    MultipartRun(o, env);
    assert Upload(o, env).calls == prefix + phase.calls;
    forall kind | SessionKind(kind) ensures Select(Upload(o, env).calls, kind) == Select(phase.calls, kind) {
      SelectAppend(prefix, phase.calls, kind);
      SelectNone(prefix, kind);
    }
  }

  /** Whatever the abort request answers, a run issues the same calls and reports the same outcome. */
  lemma AbortOutcomeIgnored(o: Options, env: Env, answer: Option<Error>)
    ensures Upload(o, env.(abort := answer)) == Upload(o, env)
  {
    if env.stat.Ok? && !IsSinglePut(env.stat.value) && env.create.Ok? {
      PhaseIgnoresAbortOutcome(SessionFor(o, env.stat.value, env.create.value), env, 1, answer);
    }
  }
}
