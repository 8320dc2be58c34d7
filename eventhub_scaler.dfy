/**
 * The Azure Event Hub scaler's two polls: `IsActive`, which asks whether
 * any partition has unprocessed events, and `GetMetrics`, which sums the
 * unprocessed events over all partitions and caps the sum by the partition
 * count. The Event Hub and blob storage clients are replaced by what they
 * answer during one poll (a `Hub`).
 */
module EventHubScaler {
  import opened Int64
  import opened Wrappers
  import opened EventHubLag
  import opened EventHubMetadata

  /** Partition IDs as a Go slice holds them: its length is a Go `int`. */
  type PartitionIDs = ids: seq<string> | |ids| <= MaxInt64

  /**
   * What the clients answer during one poll: the hub's runtime information
   * (its partition IDs) or a failure, each partition's runtime information
   * or a failure, and each partition's checkpoint lookup.
   */
  datatype Hub = Hub(
    runtimeInfo: Result<PartitionIDs, string>,
    partitionInfo: string -> Result<PartitionInfo, string>,
    checkpoints: string -> CheckpointLookup)

  datatype ScalerError =
    | RuntimeInfoUnavailable(cause: string)
    | PartitionInfoUnavailable(cause: string)
    | UnprocessedCountUnavailable(lagError: LagError)

  /** One external metric value; its timestamp is not modelled. */
  datatype MetricValue = MetricValue(metricName: string, value: Int64)

  /** A partition's unprocessed-event count, or why it could not be had. */
  type Lag = Result<Int64, ScalerError>

  /**
   * The unprocessed-event count of the partition with ID `id`, as both
   * polls compute it: fetch its runtime information, read its checkpoint,
   * count.
   */
  function PartitionLag(hub: Hub, id: string): Lag
  {
    match hub.partitionInfo(id)
    case Err(cause) => Err(PartitionInfoUnavailable(cause))
    case Ok(p) =>
      var c := CountInPartition(p, hub.checkpoints(p.partitionID));
      if c.err.Some? then Err(UnprocessedCountUnavailable(c.err.value)) else Ok(c.count)
  }

  /** The partitions' lags, in the order of their IDs. */
  function Lags(hub: Hub, ids: seq<string>): seq<Lag>
  {
    seq(|ids|, i requires 0 <= i < |ids| => PartitionLag(hub, ids[i]))
  }

  /** The counts summed in order in int64, stopping at the first lag that is an error. */
  function Total(lags: seq<Lag>): Lag
    decreases |lags|
  {
    if lags == [] then Ok(0)
    else match Total(lags[..|lags| - 1])
      case Err(e) => Err(e)
      case Ok(sum) =>
        match lags[|lags| - 1]
        case Err(e) => Err(e)
        case Ok(c) => Ok(Add(sum, c))
  }

  /** Whether some count, looked at in order, is positive before any lag is an error. */
  function AnyPositive(lags: seq<Lag>): Result<bool, ScalerError>
    decreases |lags|
  {
    if lags == [] then Ok(false)
    else match lags[0]
      case Err(e) => Err(e)
      case Ok(c) => if c > 0 then Ok(true) else AnyPositive(lags[1..])
  }

  /** The metric value `GetMetrics` reports, or its error. */
  function Metric(hub: Hub, threshold: Int64): Lag
    requires threshold != 0
  {
    match hub.runtimeInfo
    case Err(cause) => Err(RuntimeInfoUnavailable(cause))
    case Ok(ids) =>
      match Total(Lags(hub, ids))
      case Err(e) => Err(e)
      case Ok(total) => Ok(LagRelatedToPartitionAmount(total, |ids|, threshold))
  }

  /** The answer `IsActive` gives, or its error. */
  function Active(hub: Hub): Result<bool, ScalerError>
  {
    match hub.runtimeInfo
    case Err(cause) => Err(RuntimeInfoUnavailable(cause))
    case Ok(ids) => AnyPositive(Lags(hub, ids))
  }

  /** Go's `IsActive`: looks at the partitions in order and answers at the first one with unprocessed events. */
  method IsActive(hub: Hub) returns (r: Result<bool, ScalerError>)
    ensures r == Active(hub)
  {
    if hub.runtimeInfo.Err? {
      return Err(RuntimeInfoUnavailable(hub.runtimeInfo.error));
    }
    var partitionIDs := hub.runtimeInfo.value;
    ghost var lags := Lags(hub, partitionIDs);

    for i := 0 to |partitionIDs|
      invariant AnyPositive(lags[i..]) == AnyPositive(lags)
    {
      assert lags[i..][0] == PartitionLag(hub, partitionIDs[i]);
      assert lags[i..][1..] == lags[i + 1..];
      var partitionRuntimeInfo := hub.partitionInfo(partitionIDs[i]);
      if partitionRuntimeInfo.Err? {
        return Err(PartitionInfoUnavailable(partitionRuntimeInfo.error));
      }
      var p := partitionRuntimeInfo.value;
      var counted := CountInPartition(p, hub.checkpoints(p.partitionID));
      if counted.err.Some? {
        return Err(UnprocessedCountUnavailable(counted.err.value));
      }
      if counted.count > 0 {
        return Ok(true);
      }
    }
    assert lags[|partitionIDs|..] == [];
    return Ok(false);
  }

  /** Extending the summed prefix by one lag adds its count, or fails with its error. */
  lemma TotalStep(lags: seq<Lag>, i: nat, sum: Int64)
    requires i < |lags| && Total(lags[..i]) == Ok(sum)
    ensures lags[i].Err? ==> Total(lags[..i + 1]) == Err(lags[i].error)
    ensures lags[i].Ok? ==> Total(lags[..i + 1]) == Ok(Add(sum, lags[i].value))
  {
    assert lags[..i + 1][..i] == lags[..i];
  }

  /** Once a prefix of the lags fails, the whole sum fails with the same error. */
  lemma {:induction false} TotalErrorSticks(lags: seq<Lag>, i: nat, e: ScalerError)
    requires i <= |lags| && Total(lags[..i]) == Err(e)
    ensures Total(lags) == Err(e)
    decreases |lags| - i
  {
    if i == |lags| {
      assert lags[..i] == lags;
    } else {
      assert lags[..i + 1][..i] == lags[..i];
      TotalErrorSticks(lags, i + 1, e);
    }
  }

  /** Go's `GetMetrics`: sums the partitions' counts in order and reports the capped sum under `metricName`. */
  method GetMetrics(meta: EventHubMetadata, hub: Hub, metricName: string) returns (r: Result<MetricValue, ScalerError>)
    requires meta.threshold != 0
    ensures r.Ok? <==> Metric(hub, meta.threshold).Ok?
    ensures r.Ok? ==> r.value == MetricValue(metricName, Metric(hub, meta.threshold).value)
    ensures r.Err? ==> r.error == Metric(hub, meta.threshold).error
  {
    var totalUnprocessedEventCount: Int64 := 0;
    if hub.runtimeInfo.Err? {
      return Err(RuntimeInfoUnavailable(hub.runtimeInfo.error));
    }
    var partitionIDs := hub.runtimeInfo.value;
    ghost var lags := Lags(hub, partitionIDs);

    for i := 0 to |partitionIDs|
      invariant Total(lags[..i]) == Ok(totalUnprocessedEventCount)
    {
      TotalStep(lags, i, totalUnprocessedEventCount);
      assert lags[i] == PartitionLag(hub, partitionIDs[i]);
      var partitionRuntimeInfo := hub.partitionInfo(partitionIDs[i]);
      if partitionRuntimeInfo.Err? {
        TotalErrorSticks(lags, i + 1, PartitionInfoUnavailable(partitionRuntimeInfo.error));
        return Err(PartitionInfoUnavailable(partitionRuntimeInfo.error));
      }
      var p := partitionRuntimeInfo.value;
      var counted := CountInPartition(p, hub.checkpoints(p.partitionID));
      if counted.err.Some? {
        TotalErrorSticks(lags, i + 1, UnprocessedCountUnavailable(counted.err.value));
        return Err(UnprocessedCountUnavailable(counted.err.value));
      }
      totalUnprocessedEventCount := Add(totalUnprocessedEventCount, counted.count);
    }
    assert lags[..|partitionIDs|] == lags;

    var lagRelatedToPartitionCount := LagRelatedToPartitionAmount(totalUnprocessedEventCount, |partitionIDs|, meta.threshold);
    return Ok(MetricValue(metricName, lagRelatedToPartitionCount));
  }

  /** Every lag is a count. */
  predicate AllCounted(lags: seq<Lag>)
  {
    forall i :: 0 <= i < |lags| ==> lags[i].Ok?
  }

  /** Every count is non-negative (as it is with valid sequence numbers and a found checkpoint). */
  predicate NonNegativeCounts(lags: seq<Lag>)
  {
    forall i :: 0 <= i < |lags| ==> lags[i].Ok? && lags[i].value >= 0
  }

  /** The mathematical sum of the counts, with no wrap-around. */
  ghost function ExactSum(lags: seq<Lag>): int
    requires AllCounted(lags)
    decreases |lags|
  {
    if lags == [] then 0
    else ExactSum(lags[..|lags| - 1]) + lags[|lags| - 1].value
  }

  /** The sum succeeds exactly when every partition yields a count. */
  lemma {:induction false} TotalOkIffAllCounted(lags: seq<Lag>)
    ensures Total(lags).Ok? <==> AllCounted(lags)
    decreases |lags|
  {
    if lags != [] {
      var init := lags[..|lags| - 1];
      TotalOkIffAllCounted(init);
      assert forall i :: 0 <= i < |init| ==> init[i] == lags[i];
    }
  }

  /** A failing sum reports the error of the first lag that is an error; all lags before it are counts. */
  lemma {:induction false} TotalFirstError(lags: seq<Lag>)
    requires Total(lags).Err?
    ensures exists i :: (0 <= i < |lags| && AllCounted(lags[..i]) && lags[i] == Err(Total(lags).error))
    decreases |lags|
  {
    var init := lags[..|lags| - 1];
    if Total(init).Err? {
      TotalFirstError(init);
      var i :| 0 <= i < |init| && AllCounted(init[..i]) && init[i] == Err(Total(init).error);
      assert init[..i] == lags[..i];
    } else {
      TotalOkIffAllCounted(init);
    }
  }

  /** The int64 sum is the exact sum wrapped into int64, whatever the partial sums did. */
  lemma {:induction false} TotalWraps(lags: seq<Lag>)
    requires AllCounted(lags)
    ensures Total(lags) == Ok(Wrap(ExactSum(lags)))
    decreases |lags|
  {
    if lags != [] {
      var n := |lags| - 1;
      var init := lags[..n];
      assert AllCounted(init) by {
        assert forall i :: 0 <= i < |init| ==> init[i] == lags[i];
      }
      TotalWraps(init);
      AddWrap(ExactSum(init), lags[n].value);
    }
  }

  /** So when the exact sum fits in int64 the int64 sum is exact, even if a partial sum overflowed. */
  lemma TotalExact(lags: seq<Lag>)
    requires AllCounted(lags) && InRange(ExactSum(lags))
    ensures Total(lags) == Ok(ExactSum(lags))
  {
    TotalWraps(lags);
  }

  /** Non-negative counts sum to a non-negative total, which is positive exactly when one of them is. */
  lemma {:induction false} ExactSumPositive(lags: seq<Lag>)
    requires NonNegativeCounts(lags)
    ensures AllCounted(lags) && ExactSum(lags) >= 0
    ensures ExactSum(lags) > 0 <==> exists i :: 0 <= i < |lags| && lags[i].value > 0
    decreases |lags|
  {
    if lags != [] {
      var init := lags[..|lags| - 1];
      assert forall i :: 0 <= i < |init| ==> init[i] == lags[i];
      ExactSumPositive(init);
      if exists i :: 0 <= i < |lags| && lags[i].value > 0 {
        var i :| 0 <= i < |lags| && lags[i].value > 0;
        if i < |init| {
          assert init[i] == lags[i];
        }
      }
    }
  }

  /** When every lag is a count, `IsActive`'s answer is whether some count is positive. */
  lemma {:induction false} AnyPositiveIffSomePositive(lags: seq<Lag>)
    requires AllCounted(lags)
    ensures AnyPositive(lags) == Ok(exists i :: 0 <= i < |lags| && lags[i].value > 0)
    decreases |lags|
  {
    if lags != [] {
      var rest := lags[1..];
      assert forall i :: 0 <= i < |rest| ==> rest[i] == lags[i + 1];
      AnyPositiveIffSomePositive(rest);
      if lags[0].value <= 0 && exists i :: 0 <= i < |lags| && lags[i].value > 0 {
        var i :| 0 <= i < |lags| && lags[i].value > 0;
        assert rest[i - 1] == lags[i];
      }
    }
  }

  /**
   * `IsActive` answers true at the first partition with unprocessed events,
   * whatever the partitions after it hold: later failures are never seen.
   */
  lemma {:induction false} AnyPositiveFirstPositive(lags: seq<Lag>, i: nat)
    requires i < |lags| && lags[i].Ok? && lags[i].value > 0
    requires forall j :: 0 <= j < i ==> lags[j].Ok? && lags[j].value <= 0
    ensures AnyPositive(lags) == Ok(true)
    decreases i
  {
    if i > 0 {
      var rest := lags[1..];
      assert rest[i - 1] == lags[i];
      assert forall j :: 0 <= j < i - 1 ==> rest[j] == lags[j + 1];
      AnyPositiveFirstPositive(rest, i - 1);
    }
  }

  /** `IsActive` answers false only when every partition was counted and none has unprocessed events. */
  lemma {:induction false} AnyPositiveFalse(lags: seq<Lag>)
    requires AnyPositive(lags) == Ok(false)
    ensures AllCounted(lags)
    ensures forall i :: 0 <= i < |lags| ==> lags[i].value <= 0
    decreases |lags|
  {
    if lags != [] {
      var rest := lags[1..];
      AnyPositiveFalse(rest);
      forall i | 0 < i < |lags|
        ensures lags[i].Ok? && lags[i].value <= 0
      {
        assert lags[i] == rest[i - 1];
      }
    }
  }

  /**
   * A failing `IsActive` reports the error of some partition, and every
   * partition before it was counted and had no unprocessed events.
   */
  lemma {:induction false} AnyPositiveError(lags: seq<Lag>)
    requires AnyPositive(lags).Err?
    ensures exists i :: (0 <= i < |lags| && lags[i] == Err(AnyPositive(lags).error)
      && forall j :: 0 <= j < i ==> lags[j].Ok? && lags[j].value <= 0)
    decreases |lags|
  {
    if lags[0].Ok? {
      var rest := lags[1..];
      AnyPositiveError(rest);
      var i :| 0 <= i < |rest| && rest[i] == Err(AnyPositive(rest).error)
        && forall j :: 0 <= j < i ==> rest[j].Ok? && rest[j].value <= 0;
      assert rest[i] == lags[i + 1];
      forall j | 0 <= j < i + 1
        ensures lags[j].Ok? && lags[j].value <= 0
      {
        if j > 0 {
          assert lags[j] == rest[j - 1];
        }
      }
    }
  }

  /**
   * When every partition is counted with a non-negative count and the exact
   * total fits in int64, `GetMetrics` succeeds with a value between 0 and
   * the total, below (partitions + 1) * threshold, and equal to
   * partitions * threshold when capped; and `IsActive` says true exactly
   * when that value is positive.
   */
  lemma MetricAgreesWithActive(hub: Hub, threshold: Int64)
    requires threshold > 0 && hub.runtimeInfo.Ok?
    requires NonNegativeCounts(Lags(hub, hub.runtimeInfo.value))
    requires ExactSum(Lags(hub, hub.runtimeInfo.value)) <= MaxInt64
    ensures var ids, m := hub.runtimeInfo.value, Metric(hub, threshold);
      var total := ExactSum(Lags(hub, ids));
      m.Ok? && 0 <= m.value <= total && m.value < (|ids| + 1) * threshold
      && (Quo(total, threshold) > |ids| ==> m.value == |ids| * threshold)
      && Active(hub) == Ok(m.value > 0)
  {
    var ids := hub.runtimeInfo.value;
    var lags := Lags(hub, ids);
    ExactSumPositive(lags);
    TotalExact(lags);
    AnyPositiveIffSomePositive(lags);
    var total: Int64 := ExactSum(lags);
    CapBounds(total, |ids|, threshold);
    if Quo(total, threshold) > |ids| {
      MulMonotone(1, |ids|, threshold);
    }
  }

  /**
   * Two partitions: A has no checkpoint blob and a log holding one event
   * (beginning 0, last 0), so it counts 1; B has a checkpoint at sequence
   * number 5 and last sequence number 5, so it counts 0. The total is 1,
   * the cap at threshold 64 leaves it alone, and the hub is active.
   */
  lemma TwoPartitionScenario()
    ensures var hub := Hub(
      Ok(["A", "B"]),
      id => if id == "A" then Ok(PartitionInfo("A", 0, 0, "0")) else Ok(PartitionInfo(id, 0, 5, "100")),
      id => if id == "A" then BlobNotFound else Found(Checkpoint("100", 5)));
      Metric(hub, 64) == Ok(1) && Active(hub) == Ok(true)
  {
    var hub: Hub := Hub(
      Ok(["A", "B"]),
      id => if id == "A" then Ok(PartitionInfo("A", 0, 0, "0")) else Ok(PartitionInfo(id, 0, 5, "100")),
      id => if id == "A" then BlobNotFound else Found(Checkpoint("100", 5)));
    var ids: seq<string> := ["A", "B"];
    var lags: seq<Lag> := Lags(hub, ids);
    assert lags[0] == PartitionLag(hub, "A") == Ok(1);
    assert lags[1] == PartitionLag(hub, "B") == Ok(0);
    assert |lags[..1][..0]| == 0;
    assert Total(lags[..1]) == Ok(1);
    assert lags[..|lags| - 1] == lags[..1];
  }
}
