# Multipart upload coordinator, modelled in Dafny

This project models the coordinator behind `s3.multipartUpload(options, done)`. The coordinator uploads one local file to an object-storage bucket.

- A file of at most 5,242,880 bytes (the minimum part size) is read whole and sent in one put.
- A larger file gets a multipart session, and its parts are uploaded one after another:
  - a descriptor holds the part count, the part size, the range of the current read, the cursor `PartNumber` and the table of acknowledged parts;
  - once every part is acknowledged the session is completed;
  - the first read or upload error aborts the session;
  - either way, `done` is called once, provided every collaborator answers each request once.

The model has four modules, one file each:

- `part_math.dfy` (`PartMath`): the part-size arithmetic. It covers the clamp of the requested part size, the single-put threshold, the part count `ceil(size / partSize)` and the nominal byte range of part `n`.
- `upload_model.dfy` (`UploadModel`): the values of the core, and the requests the coordinator issues to the filesystem, the MIME lookup and the storage client, as a `Call` datatype.
  - The collaborators' answers for one run are an `Env` value: the stat result, the lookup answer, the outcome of each part by number, the completion's answer, and so on.
  - `Upload` and `PartPhase` are the reference semantics of a run. They are pure functions from the options and the `Env` to a `Run`: the calls issued, in order, and the value `done` receives.
- `coordinator.dfy` (`Coordinator`): the code in its own imperative form.
  - `Descriptor` is a class with the descriptor's mutable fields: `start`, `end`, `partNumber` and the parts table.
  - Its methods `UploadPart`, `SendPart` (the read stream's `end` handler), `UploadNextPart`, `CompleteUpload` and `AbortUpload` call one another as the JavaScript callbacks do. `UploadPart`, `SendPart` and `UploadNextPart` are proved to append the calls of `PartPhase` and to keep the descriptor invariant `Valid`: the cursor stays within `1..count+1` and the table holds every part before the cursor. `CompleteUpload` and `AbortUpload` append the single completion or abort request and change only `calls` and `reports`.
  - `MultipartUpload` is the entry point. It is proved to issue exactly the calls of `Upload` and to call `done` once with its outcome, given one answer per request. It also returns the final parts table.
- `upload_properties.dfy` (`UploadProperties`): what a run of `Upload` guarantees, proved over all inputs:
  - the strategy threshold;
  - part numbers `1..count` uploaded in order with no gap or repeat;
  - reads over the nominal ranges;
  - exactly one completion or abort;
  - the outcome reported to `done`;
  - the abort's answer being ignored.

The filesystem, the MIME lookup and the storage client are not modelled as code. Each appears only as the request recorded in the trace and as the answer drawn from the `Env`.

## Model

| member | source | states |
|---|---|---|
| `PartMath.EffectivePartSize` | index.js:3-10 | The part size in force is at least 5,242,880. It equals the request when the request is a number of at least that size, and is the minimum otherwise, including for a missing value or NaN. |
| `PartMath.PartCount` | index.js:42 | `count = ceil(size / P)`: `size <= count*P`. For a non-empty file, `count >= 1` and `(count-1)*P < size`. An empty file has no parts. |
| `PartMath.PartRange` | index.js:66-67 | Part `n` has `end = n*P` and `start = end - P`, so `start = (n-1)*P`, and every range is exactly `P` long. |
| `PartMath.PartRangesAdjacent` | index.js:66-67 | Part `n+1` starts exactly where part `n` ends: no gap, no overlap. |
| `PartMath.PartRangesCoverFile` | index.js:42-67 | The first range starts at byte 0. The range of the last part starts inside the file and reaches at least its end. |
| `PartMath.InnerPartInsideFile` | index.js:42-67 | Every part before the last one ends strictly inside the file. |
| `UploadModel.SessionFor` | index.js:41-52 | A session uses the clamped part size and the created upload id. Its count is the least number of parts covering the file. |
| `UploadModel.FirstUnacked` | index.js:91-102 | The cursor's stopping point: every part from `n` up to it was acknowledged, and it is either a part that was not acknowledged or `count + 1`. |
| `UploadModel.Store` | index.js:82-85 | Array assignment `Parts[i] = v`: entry `i` becomes `v` and no other existing entry changes. Past the end, the array grows with holes. |
| `UploadProperties.PhaseUploadsInOrder` | index.js:78-102 | From part `n` on, the upload calls carry part numbers `n, n+1, …, LastUploaded`, in order with no gap or repeat, all under the session's upload id. |
| `UploadProperties.PhaseReadsNominalRanges` | index.js:63-75 | The range reads from part `n` on are those of parts `n..LastRead`, in order, each over `[(m-1)*P, m*P)`. |
| `UploadProperties.PhaseOutcome` | index.js:91-126 | A part phase ends with the completion or abort as its last call. `done` receives the first failing part's own error, or the completion's answer when every part was acknowledged. |
| `UploadProperties.PhaseClosesOnce` | index.js:91-126 | A part phase issues exactly one abort and no completion when some part fails, and exactly one completion and no abort otherwise. |
| `UploadProperties.PhaseEnds` | index.js:91-126 | A whole session's part phase: its last call, its single completion or abort, and its outcome, all in terms of the first part that was not acknowledged. |
| `UploadProperties.PhaseCallKinds` | index.js:63-127 | A part phase issues only range reads, part uploads, completions and aborts. |
| `UploadProperties.PhaseIgnoresAbortOutcome` | index.js:118-127 | Whatever the abort call answers, a part phase issues the same calls and reports the same outcome. |
| `UploadProperties.MultipartRun` | index.js:37-130 | A run with a created session is the stat, the lookup, the creation and then the part phase from part 1. None of those leading calls is a session request, a put or a whole-file read. |
| `UploadProperties.SinglePutPath` | index.js:25-36 | A file of at most the minimum part size is read whole and put in one request, whose answer or read error goes to `done`. No creation, part, completion or abort call is made. |
| `UploadProperties.MultipartPath` | index.js:37-39 | A larger file, whatever the part size in force, gets exactly one creation call after the stat (and the lookup). Every later call is a session request. |
| `UploadProperties.SinglePutIgnoresPartSize` | index.js:8-36 | On the single-put path the requested part size changes nothing in the run. |
| `UploadProperties.ContentTypeLookup` | index.js:21 | The content-type lookup is made exactly when the stat succeeded and the caller gave no (or an empty) content type, and then it is call number 2 and no other. |
| `UploadProperties.RequestMetadata` | index.js:15-38 | After a successful stat, every put or creation request in the run carries the caller's bucket, key, ACL, cache control and content disposition. Its content type is the caller's when one is given and non-empty, and the lookup's answer otherwise. On the multipart path that request comes right after the stat and lookup; on the single-put path it comes right after a successful whole-file read. |
| `UploadProperties.EarlyErrors` | index.js:12-39 | A stat error reaches `done` with no other call. A creation error reaches `done` after the creation call, with no part, completion or abort call. |
| `UploadProperties.MultipartPartsInOrder` | index.js:42-102 | On the multipart path the upload calls are parts `1..LastUploaded` in order and the reads are parts `1..LastRead` over their nominal ranges. When every part is acknowledged, both run to `count = ceil(size / P)`. |
| `UploadProperties.MultipartEndsOnce` | index.js:91-126 | A created session is completed exactly when every part was acknowledged, with no abort, and `done` gets the completion's answer, including its error. Otherwise the first failing part, read or upload, causes exactly one abort under the session's upload id, which is the last call, and `done` gets that part's own error. |
| `UploadProperties.AbortOutcomeIgnored` | index.js:118-127 | A whole run, calls and outcome, does not depend on the abort call's answer. |
| `Coordinator.Descriptor.constructor` | index.js:41-61 | A fresh descriptor has the cursor at part 1, the range `{start: 0, end: 0}`, an empty parts table, and satisfies `Valid`. |
| `Coordinator.Descriptor.UploadPart` | index.js:63-89 | Sets the range of the part under the cursor and reads it. From then on it issues exactly the calls of `PartPhase` from that part and calls `done` once with its outcome. It keeps `Valid` and leaves the cursor at the first part that was not acknowledged. |
| `Coordinator.Descriptor.SendPart` | index.js:76-88 | Uploads the part just read. On acknowledgment it stores `{ETag, PartNumber}` at index `PartNumber - 1` and continues; an upload error goes to the abort. |
| `Coordinator.Descriptor.UploadNextPart` | index.js:91-103 | With an error, aborts and leaves the cursor in place. Otherwise advances the cursor, then completes the session once the cursor passes `count`, or uploads the next part. |
| `Coordinator.Descriptor.CompleteUpload` | index.js:105-116 | Issues one completion request for the session, and `done` receives its answer. |
| `Coordinator.Descriptor.AbortUpload` | index.js:118-127 | Issues one abort request for the session, and `done` receives the triggering error whatever the abort answers. |
| `Coordinator.StartSession` | index.js:41-130 | Builds the descriptor and uploads the first part. The calls and outcome are those of `PartPhase` from part 1, and the parts table ends with parts `1..k-1`, where `k` is the first part not acknowledged. |
| `Coordinator.MultipartUpload` | index.js:5-136 | One call of the coordinator issues exactly the calls of `Upload`, and `done` is called exactly once, with `Upload`'s outcome. The final parts table holds entry `i` as `{ETag, PartNumber: i+1}` for every part before the first failure: all `count` parts when the session completes, and none when no session was created. |

## Left out

- File and network I/O: `fs.stat`, `fs.readFile`, `fs.createReadStream` and its `data`/`end`/`error` events, the MIME lookup, and the storage client's five calls. Each is a request recorded in the trace plus an answer taken from `Env`. No bytes are read or sent.
- Byte contents: `Buffer.concat` and the bodies of puts and part uploads are not modelled. The byte-length claims built on them (a single put's body is `S` bytes long; the last part holds the remaining `S - (count-1)*P` bytes) are therefore not stated.
- Inclusive stream ranges: Node's range read treats `end` as inclusive, so the bytes it delivers differ from the computed `[start, end)`. Only the computed `start`/`end` options are modelled.
- Asynchrony: the coordinator is a chain of callbacks. The model runs it as sequential, mutually recursive method calls in the same order. Interleaving with other work is not modelled.
- Part-size values: JavaScript's `partSize` may be any value. The model distinguishes a missing value, a value that is not a number, and an integer. Fractional sizes, `Infinity`, and numeric strings (which `<` and `isNaN` coerce) are not modelled. Nor is the floating-point division inside `Math.ceil`, whose result is taken as the exact integer ceiling.
- Options mutation: the clamp writes the new part size back into the caller's `options` object. The model clamps a local copy; the write being visible to the caller is left out.
- Uninitialised fields: `descriptor.data` and `descriptor.s3` are never set, and the part body is stored under `params.data` instead of `Body`. The model has the descriptor use the storage client and filesystem the coordinator was given. The crash these defects would cause in the source is not modelled.
- Completion payload: S3's CompleteMultipartUpload expects the ordered `MultipartUpload.Parts` list, and this code never passes it: the completion request carries only bucket, key and upload id. The model follows the code. The parts table is still proved to hold parts `1..count` in order once every part is acknowledged (`Coordinator.MultipartUpload`), but the completion call is not claimed to receive it.
- Completion failure: a failed completion is reported to `done` with no compensating abort, as in the code. Whether it should be followed by an abort is an open question; the model keeps the code's behaviour.
- Collaborators that never answer: every filesystem, lookup and storage request is taken to call back exactly once, with the answer in `Env`. The code sets no timeout, so a request that never calls back leaves `done` uncalled. "`done` is called exactly once" holds under this assumption only.
- Module wiring: `module.exports`, which installs `multipartUpload` on an S3 client object, is not modelled.
