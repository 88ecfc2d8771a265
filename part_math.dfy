/**
 * Part-size arithmetic of the upload coordinator: the clamp of the requested
 * part size, the single-put threshold, the part count and the nominal byte
 * range of each part.
 */
module PartMath {

  /** The smallest part the storage backend accepts (5 MiB), except for a session's last part. */
  const MinPartSize: nat := 5242880

  /**
   * What the caller left in `options.partSize`. JavaScript lets it hold any
   * value; the clamp only distinguishes a missing value, a value that is not
   * a number, and a number.
   */
  datatype PartSizeRequest = Absent | NotANumber | Given(bytes: int)

  /** JavaScript's `partSize < minPartSize`: false for undefined and NaN operands. */
  predicate BelowMinimum(req: PartSizeRequest)
  {
    req.Given? && req.bytes < MinPartSize
  }

  /** JavaScript's `isNaN(partSize)`: true for undefined and for anything that is not numeric. */
  predicate IsNaN(req: PartSizeRequest)
  {
    !req.Given?
  }

  /**
   * The part size in force after the clamp: the requested size when it is a
   * number of at least the minimum, the minimum otherwise. The contract says
   * it is the larger of the request and the minimum.
   */
  function EffectivePartSize(req: PartSizeRequest): (p: nat)
    ensures p >= MinPartSize
    ensures req.Given? ==> p >= req.bytes
    ensures p == MinPartSize || (req.Given? && p == req.bytes)
  {
    if BelowMinimum(req) || IsNaN(req) then MinPartSize else req.bytes
  }

  /**
   * The strategy test: a file no larger than the minimum part size goes up in
   * one put. The threshold is the minimum, not the effective part size.
   */
  predicate IsSinglePut(size: nat)
  {
    size <= MinPartSize
  }

  /** `Math.ceil(size / partSize)`: the least count of parts that covers `size` bytes. */
  function PartCount(size: nat, partSize: nat): (count: nat)
    requires partSize > 0
    ensures size <= count * partSize
    ensures size > 0 ==> count >= 1 && (count - 1) * partSize < size
    ensures size == 0 ==> count == 0
  {
    var q := size / partSize;
    if size % partSize == 0 then q else q + 1
  }

  /** The `start`/`end` options handed to the range read of one part. */
  datatype ByteRange = ByteRange(start: int, end: int)

  /**
   * The range computed for part `n`: `end` is `n` part sizes and `start` is
   * one part size before it, so part `n` begins after `n - 1` whole parts.
   */
  function PartRange(n: int, partSize: nat): (r: ByteRange)
    ensures r.start == (n - 1) * partSize
    ensures r.end - r.start == partSize
  {
    var end := n * partSize;
    ByteRange(end - partSize, end)
  }

  /** Part `n + 1` starts exactly where part `n` ends: the ranges leave no gap and do not overlap. */
  lemma PartRangesAdjacent(n: int, partSize: nat)
    ensures PartRange(n + 1, partSize).start == PartRange(n, partSize).end
  {
  }

  /**
   * The ranges of parts `1..PartCount(size, partSize)` cover the file: the
   * first starts at byte 0 and the last starts inside the file and reaches
   * at least its end.
   */
  lemma PartRangesCoverFile(size: nat, partSize: nat)
    requires partSize > 0 && size > 0
    ensures PartRange(1, partSize).start == 0
    ensures var last := PartRange(PartCount(size, partSize), partSize);
      last.start < size <= last.end
  {
  }

  /** Every part before the last one lies wholly inside the file. */
  lemma InnerPartInsideFile(size: nat, partSize: nat, n: int)
    requires partSize > 0
    requires 1 <= n < PartCount(size, partSize)
    ensures PartRange(n, partSize).end < size
  {
    var count := PartCount(size, partSize);
    MultiplyMonotone(n, count - 1, partSize);
  }

  /** Multiplying by a non-negative factor keeps the order. */
  lemma MultiplyMonotone(a: int, b: int, c: nat)
    requires a <= b
    ensures a * c <= b * c
  {
    assert b * c - a * c == (b - a) * c;
  }
}
