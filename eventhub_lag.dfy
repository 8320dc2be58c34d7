/**
 * The Azure Event Hub lag calculator: how many events of one partition
 * have not been processed yet, from the partition's runtime information
 * and the checkpoint the consumer last wrote to blob storage, and the cap
 * meant to stop scaling beyond the partition count: for a non-negative
 * total and a positive threshold the capped result stays below
 * (partitionCount + 1) * threshold, though it can still exceed
 * partitionCount * threshold. All arithmetic is Go's wrapping int64 arithmetic.
 */
module EventHubLag {
  import opened Int64
  import opened Wrappers

  /** Runtime information of one partition, as the Event Hub management API reports it. */
  datatype PartitionInfo = PartitionInfo(
    partitionID: string,
    beginningSequenceNumber: Int64,
    lastSequenceNumber: Int64,
    lastEnqueuedOffset: string)

  /** A checkpoint read from blob storage; `EmptyCheckpoint` is Go's zero value `azure.Checkpoint{}`. */
  datatype Checkpoint = Checkpoint(offset: string, sequenceNumber: Int64)

  const EmptyCheckpoint := Checkpoint("", 0)

  /** The offset the service reports for a partition that has never received an event. */
  const EmptyPartitionOffset := "-1"

  /**
   * The outcome of reading a partition's checkpoint from blob storage: a
   * checkpoint, one of the two storage errors that mean "no checkpoint
   * yet", or any other failure.
   */
  datatype CheckpointLookup =
    | Found(checkpoint: Checkpoint)
    | BlobNotFound
    | ContainerNotFound
    | LookupFailed(cause: string)

  datatype LagError = CheckpointUnavailable(cause: string)

  /** The three results of `GetUnprocessedEventCountInPartition`. */
  datatype PartitionCount = PartitionCount(count: Int64, checkpoint: Checkpoint, err: Option<LagError>)

  /** Sequence numbers the service hands out: never negative. */
  predicate ValidSequenceNumber(n: Int64) { n >= 0 }

  /**
   * The estimate used when no checkpoint exists: the whole retained window
   * `last - beginning + 1`, except that a window whose two ends are equal
   * and non-zero counts as empty.
   */
  function UnprocessedWithoutCheckpoint(p: PartitionInfo): (r: Int64)
    ensures var b, l := p.beginningSequenceNumber, p.lastSequenceNumber;
      (b == l && l != 0 ==> r == 0)
      && (b != l || l == 0 ==> (l - b + 1 - r) % Modulus == 0)
  {
    var b, l := p.beginningSequenceNumber, p.lastSequenceNumber;
    if (b == 0 && l == 0) || b != l then
      var d := Sub(l, b);
      var r := Add(d, 1);
      assert (l - b + 1 - r) == (l - b - d) + (d + 1 - r);
      ModulusSum(l - b - d, d + 1 - r);
      r
    else 0
  }

  /**
   * Go's `GetUnprocessedEventCountInPartition` for a partition `p` whose
   * checkpoint lookup would give `lookup`.
   */
  function CountInPartition(p: PartitionInfo, lookup: CheckpointLookup): (r: PartitionCount)
    ensures r.err.Some? <==> p.lastEnqueuedOffset != EmptyPartitionOffset && lookup.LookupFailed?
    ensures r.err.Some? ==> r.count == -1 && r.checkpoint == EmptyCheckpoint
    ensures r.checkpoint == EmptyCheckpoint || lookup == Found(r.checkpoint)
  {
    if p.lastEnqueuedOffset == EmptyPartitionOffset then
      PartitionCount(0, EmptyCheckpoint, None)
    else
      match lookup
      case BlobNotFound => PartitionCount(UnprocessedWithoutCheckpoint(p), EmptyCheckpoint, None)
      case ContainerNotFound => PartitionCount(UnprocessedWithoutCheckpoint(p), EmptyCheckpoint, None)
      case LookupFailed(cause) => PartitionCount(-1, EmptyCheckpoint, Some(CheckpointUnavailable(cause)))
      case Found(cp) => PartitionCount(CountFromCheckpoint(p.lastSequenceNumber, cp), cp, None)
  }

  /**
   * The count behind a checkpoint that was found: everything when nothing
   * has been committed yet (empty offset), the distance to the last
   * sequence number when the checkpoint is behind it, and otherwise the
   * circular-buffer formula, clamped at zero.
   */
  function CountFromCheckpoint(last: Int64, cp: Checkpoint): (r: Int64)
    ensures cp.offset == "" ==> (last + 1 - r) % Modulus == 0
    ensures cp.offset != "" ==> r >= 0 || last - cp.sequenceNumber > MaxInt64
    ensures cp.offset != "" && last >= cp.sequenceNumber ==> (last - cp.sequenceNumber - r) % Modulus == 0
    ensures cp.offset != "" && last < cp.sequenceNumber ==> r >= 0
  {
    if cp.offset == "" then Add(last, 1)
    else if last >= cp.sequenceNumber then Sub(last, cp.sequenceNumber)
    else CircularCount(last, cp.sequenceNumber)
  }

  /** `(MaxInt64 - last) + checkpointSeq` in wrapping int64 arithmetic, and 0 when that is negative. */
  function CircularCount(last: Int64, checkpointSeq: Int64): (r: Int64)
    ensures r >= 0
    ensures var exact := MaxInt64 - last + checkpointSeq;
      (InRange(exact) && exact >= 0 ==> r == exact)
    ensures last < checkpointSeq ==>
      r == (if checkpointSeq - last <= MaxInt64 + 2 then 0 else checkpointSeq - last - MaxInt64 - 2)
  {
    var w := Add(Sub(MaxInt64, last), checkpointSeq);
    // the wrapped difference is congruent to the exact one, so the sum is the wrapped exact sum
    AddWrap(MaxInt64 - last, checkpointSeq);
    if w < 0 then 0 else w
  }

  /**
   * Go's `getTotalLagRelatedToPartitionAmount`: the total, unless its
   * truncated quotient by the threshold exceeds the partition count, in
   * which case partition count times threshold. Go panics on a zero
   * threshold, hence the precondition.
   */
  function LagRelatedToPartitionAmount(total: Int64, partitionCount: Int64, threshold: Int64): (r: Int64)
    requires threshold != 0
    ensures Quo(total, threshold) <= partitionCount ==> r == total
    ensures Quo(total, threshold) > partitionCount ==> (r - partitionCount * threshold) % Modulus == 0
  {
    if Quo(total, threshold) > partitionCount then
      var r := Mul(partitionCount, threshold);
      ModulusNegate(partitionCount * threshold - r);
      r
    else total
  }

  // Properties of the per-partition count

  /** An empty partition counts 0, with the empty checkpoint and no error, whatever its checkpoint lookup would give: the lookup is never consulted. */
  lemma EmptyPartitionIgnoresCheckpoint(p: PartitionInfo, lookup: CheckpointLookup, other: CheckpointLookup)
    requires p.lastEnqueuedOffset == EmptyPartitionOffset
    ensures CountInPartition(p, lookup) == PartitionCount(0, EmptyCheckpoint, None)
    ensures CountInPartition(p, lookup) == CountInPartition(p, other)
  {
  }

  /** A missing blob or container is no error: the no-checkpoint estimate is used. Any other lookup failure is an error with count -1. */
  lemma LookupFailureHandling(p: PartitionInfo, lookup: CheckpointLookup)
    requires p.lastEnqueuedOffset != EmptyPartitionOffset && !lookup.Found?
    ensures lookup.BlobNotFound? || lookup.ContainerNotFound?
            ==> CountInPartition(p, lookup) == PartitionCount(UnprocessedWithoutCheckpoint(p), EmptyCheckpoint, None)
    ensures lookup.LookupFailed?
            ==> CountInPartition(p, lookup) == PartitionCount(-1, EmptyCheckpoint, Some(CheckpointUnavailable(lookup.cause)))
  {
  }

  /**
   * Without a checkpoint, for valid sequence numbers: a window with distinct
   * ends, or the very first event (both ends 0), counts `last - beginning + 1`
   * (unless that overflows, which only `0` and `MaxInt64` can cause), which is
   * negative when the beginning lies more than one past the last; equal
   * non-zero ends count 0.
   */
  lemma WithoutCheckpointWindow(p: PartitionInfo)
    requires ValidSequenceNumber(p.beginningSequenceNumber) && ValidSequenceNumber(p.lastSequenceNumber)
    requires !(p.beginningSequenceNumber == 0 && p.lastSequenceNumber == MaxInt64)
    ensures var b, l, r := p.beginningSequenceNumber, p.lastSequenceNumber, UnprocessedWithoutCheckpoint(p);
      (b != l || l == 0 ==> r == l - b + 1)
      && (b == l && l != 0 ==> r == 0)
      && (b > l + 1 ==> r < 0)
  {
    var b, l, r := p.beginningSequenceNumber, p.lastSequenceNumber, UnprocessedWithoutCheckpoint(p);
    if b != l || l == 0 {
      CongruentEqual(l - b + 1, r);
    }
  }

  /**
   * A found checkpoint with an empty offset means nothing was processed:
   * all `last + 1` events are counted (sequence numbers start at 0). Only
   * `last == MaxInt64` overflows, to MinInt64.
   */
  lemma EmptyOffsetCountsEverything(p: PartitionInfo, cp: Checkpoint)
    requires p.lastEnqueuedOffset != EmptyPartitionOffset && cp.offset == ""
    ensures var r := CountInPartition(p, Found(cp));
      r.err == None && r.checkpoint == cp
      && (p.lastSequenceNumber < MaxInt64 ==> r.count == p.lastSequenceNumber + 1)
      && (p.lastSequenceNumber == MaxInt64 ==> r.count == MinInt64)
  {
    var l := p.lastSequenceNumber;
    var r := CountInPartition(p, Found(cp));
    if l < MaxInt64 {
      CongruentEqual(l + 1, r.count);
    }
  }

  /** A checkpoint at or behind the last sequence number counts exactly the events after it. */
  lemma ForwardProgressCountsExactly(p: PartitionInfo, cp: Checkpoint)
    requires p.lastEnqueuedOffset != EmptyPartitionOffset && cp.offset != ""
    requires ValidSequenceNumber(cp.sequenceNumber) && p.lastSequenceNumber >= cp.sequenceNumber
    ensures var r := CountInPartition(p, Found(cp));
      r == PartitionCount(p.lastSequenceNumber - cp.sequenceNumber, cp, None) && r.count >= 0
  {
  }

  /**
   * A checkpoint ahead of the partition's last sequence number (a stale
   * snapshot of the partition): with valid sequence numbers the circular
   * formula always overflows to a negative value, so the count is 0.
   */
  lemma {:induction false} StaleSnapshotCountsZero(p: PartitionInfo, cp: Checkpoint)
    requires p.lastEnqueuedOffset != EmptyPartitionOffset && cp.offset != ""
    requires ValidSequenceNumber(p.lastSequenceNumber) && p.lastSequenceNumber < cp.sequenceNumber
    ensures Add(Sub(MaxInt64, p.lastSequenceNumber), cp.sequenceNumber) < 0
    ensures CountInPartition(p, Found(cp)) == PartitionCount(0, cp, None)
  {
    var l, s := p.lastSequenceNumber, cp.sequenceNumber;
    assert Sub(MaxInt64, l) == MaxInt64 - l;
    assert MaxInt64 - l + s > MaxInt64;
  }

  /** The example in the Go comment on the circular-buffer branch: (MaxInt64 - 10) + 11 wraps to MinInt64, and the count is 0. */
  lemma CircularCountCommentExample()
    ensures Add(Sub(MaxInt64, 10), 11) == MinInt64
    ensures CircularCount(10, 11) == 0
  {
  }

  /** With valid sequence numbers and a checkpoint that holds an offset, the count is never negative. */
  lemma CheckpointCountNonNegative(p: PartitionInfo, cp: Checkpoint)
    requires cp.offset != ""
    requires ValidSequenceNumber(p.lastSequenceNumber) && ValidSequenceNumber(cp.sequenceNumber)
    ensures CountInPartition(p, Found(cp)).count >= 0
  {
  }

  // Properties of the cap

  /** `x <= y` and a non-negative factor keep their order under multiplication. */
  lemma {:induction false} MulMonotone(x: int, y: int, t: nat)
    requires x <= y
    ensures x * t <= y * t
  {
    if t > 0 {
      MulMonotone(x, y, t - 1);
      assert x * t == x * (t - 1) + x;
      assert y * t == y * (t - 1) + y;
    }
  }

  /**
   * For a non-negative total and a positive threshold the capped lag is
   * never negative, never more than the total, and stays below
   * `(partitionCount + 1) * threshold`; when the cap applies it is exactly
   * `partitionCount * threshold`, with no overflow.
   */
  lemma CapBounds(total: Int64, partitionCount: Int64, threshold: Int64)
    requires total >= 0 && partitionCount >= 0 && threshold > 0
    ensures var r := LagRelatedToPartitionAmount(total, partitionCount, threshold);
      0 <= r <= total && r < (partitionCount + 1) * threshold
      && (Quo(total, threshold) > partitionCount ==> r == partitionCount * threshold)
  {
    var q := Quo(total, threshold);
    if q > partitionCount {
      MulMonotone(partitionCount + 1, q, threshold);
      assert (partitionCount + 1) * threshold == partitionCount * threshold + threshold;
      MulMonotone(0, partitionCount, threshold);
    } else {
      MulMonotone(q + 1, partitionCount + 1, threshold);
    }
  }

  /** A negative total is passed through unchanged. */
  lemma CapKeepsNegativeTotal(total: Int64, partitionCount: Int64, threshold: Int64)
    requires total < 0 && partitionCount >= 0 && threshold > 0
    ensures LagRelatedToPartitionAmount(total, partitionCount, threshold) == total
  {
  }

  /**
   * With threshold 64 and 4 partitions: 1000 is capped to 256, 100 is kept,
   * and 300 is kept too although it exceeds 4 * 64, since 300 / 64 = 4 is
   * not greater than 4.
   */
  lemma CapExamples()
    ensures LagRelatedToPartitionAmount(1000, 4, 64) == 256
    ensures LagRelatedToPartitionAmount(100, 4, 64) == 100
    ensures LagRelatedToPartitionAmount(300, 4, 64) == 300 && 300 > 4 * 64
  {
  }
}
