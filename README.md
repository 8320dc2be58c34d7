# KEDA Azure Event Hub lag and Huawei Cloudeye configuration, in Dafny

This project models two KEDA scalers.

**Azure Event Hub scaler.** KEDA scales an Event Hub consumer by its lag:
how many events the hub's partitions hold that the consumer group has not
yet checkpointed.
- For each partition, the scaler reads the partition's runtime information
  (beginning and last sequence numbers, last enqueued offset). It then
  reads the consumer's checkpoint from blob storage.
- It counts the unprocessed events in Go's wrapping `int64` arithmetic. An
  empty partition, a missing checkpoint, a checkpoint with nothing
  committed, and a checkpoint ahead of a stale snapshot each get their
  own case.
- `IsActive` answers true at the first partition with unprocessed events.
  It never looks at the partitions after that one, so a failure in a later
  partition is never reported.
- `GetMetrics` sums all the partitions' counts and caps the sum. When the
  truncated quotient of the sum by the threshold exceeds the partition
  count, the metric becomes partition count * threshold. For a non-negative
  sum and a positive threshold the metric therefore stays below
  (partition count + 1) * threshold. It can still exceed partition count *
  threshold: 300 at 4 partitions and threshold 64 is kept.
- Parsing the trigger's metadata validates and defaults the threshold, the
  storage connection, the consumer group, the checkpoint strategy, the
  blob container, the private-cloud resource URL and the credentials that
  the pod identity provider calls for.

**Huawei Cloudeye scaler.** Only its configuration is modelled:
- four required metric keys;
- the target and floor values;
- the optional collection time, statistic and period;
- the AK/SK authorization.

**Modules.** One module per file:
- `Int64` (`int64.dfy`): Go's wrapping `+`, `-`, `*` and truncating `/` on
  `int64`.
- `Strconv` (`strconv.dfy`): Go's `strconv.Atoi`.
- `Config` (`config.dfy`): the scaler configuration, Go's map reads, the
  "direct or from environment" settings, and `strings.EqualFold`.
- `EventHubLag` (`eventhub_lag.dfy`): the per-partition count and the cap.
- `EventHubMetadata` (`eventhub_metadata.dfy`): metadata parsing.
- `EventHubScaler` (`eventhub_scaler.dfy`): the two polls.
- `HuaweiCloudeye` (`huawei_cloudeye.dfy`): the Cloudeye validators.
- `Wrappers` (`wrappers.dfy`): `Option` and `Result`.

**Shape of the model.**
- The counting functions are pure and are modelled as functions.
- The two polls are loops that return early. They are modelled as methods
  with `for` loops, proved equal to recursive specification functions. The
  properties of those functions are proved as lemmas.
- The two metadata parsers fill a record field by field and stop at the
  first error. They are modelled as methods whose postconditions state
  every error case and every field.

**Clients and foreign parsers become inputs.**
- One poll's answers from the Event Hub client and from blob storage become
  a `Hub` value: the partition IDs, a function from partition ID to runtime
  information, and a function from partition ID to checkpoint lookup
  outcome.
- Foreign parsers become function-typed parameters. For the Event Hub
  scaler these are the numeric parser, `azure.ParseEnvironmentProperty`
  and `azure.ParseActiveDirectoryEndpoint`. For Cloudeye it is the numeric
  parser.

**Constants from packages that are not part of this model.**
`azure.PrivateCloud`, `azure.DefaultEventhubResourceURL` and the pod
identity provider names are written out with their KEDA values:
- `"Private"`;
- `"https://eventhubs.azure.net/"`;
- `"none"`, `"azure"` and `"azure-workload"`.

## Model

| member | source | states |
|---|---|---|
| Int64.Add | pkg/scalers/azure_eventhub_scaler.go:238 | Go's int64 `+`: exact when the sum fits, minus 2^64 on overflow, plus 2^64 on underflow |
| Int64.Sub | pkg/scalers/azure_eventhub_scaler.go:232 | Go's int64 `-`: exact when the difference fits, wrapped by 2^64 otherwise |
| Int64.Mul | pkg/scalers/azure_eventhub_scaler.go:352 | Go's int64 `*`: exact when the product fits, congruent to it modulo 2^64 always |
| Int64.Quo | pkg/scalers/azure_eventhub_scaler.go:351 | Go's truncating int64 `/`: for a positive divisor the quotient is the floor for non-negative dividends and the ceiling for negative ones, with the dividend's sign; for a negative divisor it is the ceiling for non-negative dividends and the floor for negative ones, with the opposite sign; MinInt64 / -1 wraps to MinInt64 |
| Int64.AddWrap | pkg/scalers/azure_eventhub_scaler.go:330 | adding to a wrapped number and wrapping again equals wrapping the exact sum, so a running int64 sum depends only on the exact sum |
| Strconv.Atoi | pkg/scalers/huawei_cloudeye_scaler.go:156-163 | succeeds exactly on an optional sign followed by one or more decimal digits whose value fits in int64; a value without a minus sign is non-negative |
| Strconv.AtoiItoa | pkg/scalers/huawei_cloudeye_scaler.go:169-176 | every int64's decimal form parses back to that int64 |
| Config.GetEmptyLikeAbsent | pkg/scalers/azure_eventhub_scaler.go:113-114 | Go's map read: a key present with the empty value reads like an absent key; a set key reads its value; other keys are unaffected |
| Config.DirectOrFromEnvReadsOneVariable | pkg/scalers/azure_eventhub_scaler.go:111-115 | a non-empty direct setting is used whatever the environment holds; otherwise the setting depends on the resolved environment only through the one variable the metadata names |
| EventHubLag.UnprocessedWithoutCheckpoint | pkg/scalers/azure_eventhub_scaler.go:253-260 | with equal, non-zero ends of the window the count is 0; otherwise it is last - beginning + 1, modulo 2^64 |
| EventHubLag.CountInPartition | pkg/scalers/azure_eventhub_scaler.go:202-250 | an error occurs exactly when the partition is not empty and the lookup failed for a reason other than a missing blob or container; an error comes with count -1 and the empty checkpoint; the returned checkpoint is empty or is the one found |
| EventHubLag.CountFromCheckpoint | pkg/scalers/azure_eventhub_scaler.go:223-249 | an empty offset gives last + 1 modulo 2^64; a checkpoint at or behind last gives last - seq modulo 2^64, non-negative unless that difference overflows; a checkpoint ahead gives a count that is always non-negative when the checkpoint is ahead |
| EventHubLag.CircularCount | pkg/scalers/azure_eventhub_scaler.go:236-247 | never negative; equal to (MaxInt64 - last) + seq when that fits and is non-negative; when last < seq the sum always overflows, and the count is 0 unless seq - last exceeds MaxInt64 + 2, when it is seq - last - MaxInt64 - 2 |
| EventHubLag.LagRelatedToPartitionAmount | pkg/scalers/azure_eventhub_scaler.go:350-356 | the total when total / threshold (truncated) does not exceed the partition count; otherwise partitionCount * threshold in int64, that is, congruent to the exact product modulo 2^64 |
| EventHubLag.EmptyPartitionIgnoresCheckpoint | pkg/scalers/azure_eventhub_scaler.go:203-206 | offset "-1" gives count 0, the empty checkpoint and no error, identical for every lookup outcome, so the lookup is never consulted |
| EventHubLag.LookupFailureHandling | pkg/scalers/azure_eventhub_scaler.go:208-219 | BlobNotFound or ContainerNotFound gives the no-checkpoint estimate with no error; any other failure gives -1, the empty checkpoint and an error |
| EventHubLag.WithoutCheckpointWindow | pkg/scalers/azure_eventhub_scaler.go:253-260 | for valid sequence numbers, apart from a window 0..MaxInt64 whose size overflows: equal non-zero ends give 0, otherwise exactly last - beginning + 1, which is negative when beginning > last + 1 |
| EventHubLag.EmptyOffsetCountsEverything | pkg/scalers/azure_eventhub_scaler.go:223-229 | a found checkpoint with an empty offset counts last + 1, wrapping to MinInt64 when last is MaxInt64, and returns that checkpoint |
| EventHubLag.ForwardProgressCountsExactly | pkg/scalers/azure_eventhub_scaler.go:231-234 | for a non-empty partition and a checkpoint with a non-empty offset: when last >= checkpoint seq >= 0 the count is exactly last - seq, at least 0, with no error |
| EventHubLag.StaleSnapshotCountsZero | pkg/scalers/azure_eventhub_scaler.go:236-247 | for a non-empty partition and a checkpoint with a non-empty offset: with 0 <= last < checkpoint seq the wrapped (MaxInt64 - last) + seq is always negative, so the count is always 0 |
| EventHubLag.CircularCountCommentExample | pkg/scalers/azure_eventhub_scaler.go:243-247 | (MaxInt64 - 10) + 11 wraps to MinInt64 and the count is clamped to 0 |
| EventHubLag.CheckpointCountNonNegative | pkg/scalers/azure_eventhub_scaler.go:226-249 | with a non-empty offset and valid sequence numbers the count is never negative |
| EventHubLag.CapBounds | pkg/scalers/azure_eventhub_scaler.go:350-356 | for total >= 0 and threshold > 0: 0 <= result <= total, result < (partitionCount + 1) * threshold, and a capped result is exactly partitionCount * threshold |
| EventHubLag.CapKeepsNegativeTotal | pkg/scalers/azure_eventhub_scaler.go:350-356 | for a positive threshold and a non-negative partition count, a negative total is returned unchanged |
| EventHubLag.CapExamples | pkg/scalers/azure_eventhub_scaler.go:350-356 | threshold 64, 4 partitions: 1000 is capped to 256, 100 is kept, and 300 is kept although it exceeds 4 * 64 |
| EventHubMetadata.ResolveEndpoints | pkg/scalers/azure_eventhub_scaler.go:136-160 | a `cloud` value equal to "Private" ignoring ASCII case requires `eventHubResourceURL` and uses it; otherwise the public default URL; suffix and AD endpoint errors come after the cloud check, in that order |
| EventHubMetadata.ResolveCredentials | pkg/scalers/azure_eventhub_scaler.go:162-194 | no identity provider ("" or "none"): a non-empty connection string is required; azure or azure-workload: a non-empty namespace, then a non-empty hub name; any other provider: nothing is required |
| EventHubMetadata.ParseEventHubMetadata | pkg/scalers/azure_eventhub_scaler.go:92-199 | errors in source order (threshold unparsable or not an integer, no storage connection, private cloud without URL, suffix, AD endpoint, credentials); on success: threshold 64 or the parsed integer, consumer group "$Default", strategy "" and container "" unless present (even when empty), the storage connection non-empty, and each field as resolved |
| EventHubScaler.IsActive | pkg/scalers/azure_eventhub_scaler.go:263-292 | the loop's answer equals `Active`: a runtime-info error, or else the first partition error or positive count in partition order, or false |
| EventHubScaler.GetMetrics | pkg/scalers/azure_eventhub_scaler.go:307-348 | the loop's result equals `Metric`: a runtime-info error, the first partition error, or the capped int64 sum under the requested metric name |
| EventHubScaler.TotalStep | pkg/scalers/azure_eventhub_scaler.go:316-331 | one more partition adds its count to the running sum in int64, or ends it with its error |
| EventHubScaler.TotalErrorSticks | pkg/scalers/azure_eventhub_scaler.go:319-328 | once a partition fails, the whole sum fails with that error, so returning early is correct |
| EventHubScaler.TotalOkIffAllCounted | pkg/scalers/azure_eventhub_scaler.go:316-331 | the sum succeeds if and only if every partition yields a count |
| EventHubScaler.TotalFirstError | pkg/scalers/azure_eventhub_scaler.go:316-328 | a failing sum reports the error of the first failing partition, and every partition before it was counted |
| EventHubScaler.TotalWraps | pkg/scalers/azure_eventhub_scaler.go:330 | the int64 running sum equals the exact sum of the counts wrapped into int64 |
| EventHubScaler.TotalExact | pkg/scalers/azure_eventhub_scaler.go:330 | when the exact sum fits in int64 the reported sum is exact, even if a partial sum overflowed |
| EventHubScaler.ExactSumPositive | pkg/scalers/azure_eventhub_scaler.go:330 | non-negative counts have a non-negative sum, which is positive exactly when some count is |
| EventHubScaler.AnyPositiveIffSomePositive | pkg/scalers/azure_eventhub_scaler.go:272-291 | when every partition is counted, IsActive is true exactly when some partition has a positive count |
| EventHubScaler.AnyPositiveFirstPositive | pkg/scalers/azure_eventhub_scaler.go:272-288 | IsActive is true as soon as a partition has a positive count and every partition before it was counted with none, whatever the later partitions hold |
| EventHubScaler.AnyPositiveFalse | pkg/scalers/azure_eventhub_scaler.go:272-291 | IsActive answers false only when every partition was counted and none has a positive count |
| EventHubScaler.AnyPositiveError | pkg/scalers/azure_eventhub_scaler.go:272-284 | a failing IsActive reports some partition's error, and every partition before it was counted with no unprocessed events |
| EventHubScaler.MetricAgreesWithActive | pkg/scalers/azure_eventhub_scaler.go:263-356 | with non-negative counts whose exact sum fits in int64 and threshold > 0: the metric is between 0 and the total, below (partitions + 1) * threshold, partitions * threshold when capped, and IsActive is true exactly when the metric is positive |
| EventHubScaler.TwoPartitionScenario | pkg/scalers/azure_eventhub_scaler.go:202-356 | partition A with no checkpoint blob and window 0..0 counts 1, partition B with checkpoint 5 at last 5 counts 0; the metric at threshold 64 is 1 and the hub is active |
| HuaweiCloudeye.FirstMissing | pkg/scalers/huawei_cloudeye_scaler.go:188-240 | the index of the first non-optional key whose value is empty or absent: every earlier key is optional or set, and the key at that index is required and empty |
| HuaweiCloudeye.MissingAuthIndexValue | pkg/scalers/huawei_cloudeye_scaler.go:190-237 | the authentication parameters are checked in the order IdentityEndpoint, ProjectID, DomainID, Region, Domain, AccessKey, SecretKey |
| HuaweiCloudeye.GetHuaweiAuthorization | pkg/scalers/huawei_cloudeye_scaler.go:188-240 | fails exactly when a required parameter is empty or absent, naming the first such one; the fields read before the failure are filled and the rest are empty; Cloud is copied when non-empty and is "myhuaweicloud.com" otherwise |
| HuaweiCloudeye.AuthorizationSucceedsIffComplete | pkg/scalers/huawei_cloudeye_scaler.go:188-240 | authorization succeeds if and only if every parameter except Cloud is non-empty |
| HuaweiCloudeye.CloudNeverRequired | pkg/scalers/huawei_cloudeye_scaler.go:221-225 | changing Cloud changes neither whether nor where authorization fails |
| HuaweiCloudeye.MissingMetricKeyIndexValue | pkg/scalers/huawei_cloudeye_scaler.go:102-124 | the metric keys are checked in the order namespace, metricName, dimensionName, dimensionValue |
| HuaweiCloudeye.CheckMetricKeys | pkg/scalers/huawei_cloudeye_scaler.go:102-124 | reports the first of the four metric keys that is empty or absent, and nothing when all are set |
| HuaweiCloudeye.ParseMetricValue | pkg/scalers/huawei_cloudeye_scaler.go:126-154 | an empty or absent value is an error, a value parsed as an integer is an error, a float is taken, and an unparseable value leaves 0 with no error |
| HuaweiCloudeye.ParseOptionalSettings | pkg/scalers/huawei_cloudeye_scaler.go:156-176 | collection time 300 unless a non-empty valid integer is given; filter "average" unless a non-empty value is given; period "300" unless a non-empty valid integer is given, kept verbatim; the period always parses as an integer |
| HuaweiCloudeye.DefaultPeriodIsInteger | pkg/scalers/huawei_cloudeye_scaler.go:26 | the default period "300" parses as the integer 300 |
| HuaweiCloudeye.ParseCloudeyeMetadata | pkg/scalers/huawei_cloudeye_scaler.go:95-186 | errors in source order (metric keys, target, floor, then the authorization error unchanged, so metadata errors always come first); on success every field as read, the authorization complete, and the scaler index copied |

## Left out

- The network and storage clients are not modelled. This covers the Event Hub client, `GetRuntimeInformation`, `GetPartitionInformation`, `azure.GetCheckpointFromBlobStorage` and the HTTP client. Their answers for one poll are the inputs of a `Hub`.
- `errors.Unwrap` and the `azblob.StorageError` service codes are replaced by the `CheckpointLookup` outcomes.
- Context cancellation is not modelled, because it belongs to the clients.
- `Close`, `GetMetricSpecForScaling` and the constructors `NewAzureEventHubScaler` and `NewHuaweiCloudeyeScaler` are not modelled. They depend on client construction and on metric-name helpers that are not part of this model.
- Huawei `GetCloudeyeMetrics`, and its `GetMetrics` and `IsActive`, are not modelled. They query the Cloudeye service over an AK/SK-signed client, in a window taken from the wall clock, and compare float64 values.
- Logging (`eventhubLog`, `cloudeyeLog`) is not modelled. It does not affect results.
- The metric value's timestamp and its `resource.Quantity` wrapper are not modelled. `GetMetrics` returns the metric name and the int64 value.
- `kedautil.ParseNumeric`, `azure.ParseEnvironmentProperty` and `azure.ParseActiveDirectoryEndpoint` are not part of this model. They are parameters: any outcome they can give is covered, and none is assumed.
- float64 values are modelled as `real`. No rounding is modelled.
- Config.EqualFold: folds ASCII letters only, where Go's `strings.EqualFold` also folds non-ASCII Unicode letters.
- `azure.Checkpoint` is modelled with only its offset and sequence number. Its other fields play no part in the count.
- A nil `partitionInfo` is not modelled. The empty-partition test at pkg/scalers/azure_eventhub_scaler.go:204 allows nil, but line 208 dereferences it anyway, so every `PartitionInfo` here is present.
- EventHubLag.LagRelatedToPartitionAmount: requires a non-zero threshold, because Go panics on integer division by zero.
- EventHubLag.LagRelatedToPartitionAmount: its bounds are proved only for a positive threshold. Metadata parsing accepts a zero or negative threshold, since it never checks the sign.
- EventHubLag.LagRelatedToPartitionAmount: does not bound the result by partitionCount * threshold. That bound does not hold, as `CapExamples` shows with a total of 300.
- EventHubScaler.GetMetrics: requires a non-zero threshold for the same reason. A zero threshold makes Go panic there. The requirement also excludes, for a zero threshold, the runtime-info and partition error paths (pkg/scalers/azure_eventhub_scaler.go:309-328), where Go returns the error without dividing.
