/**
 * What every scaler is given: the trigger's metadata, its authentication
 * parameters, the environment already resolved from the workload, the pod
 * identity provider and the scaler's index.
 */
module Config {
  import opened Int64

  datatype ScalerConfig = ScalerConfig(
    triggerMetadata: map<string, string>,
    authParams: map<string, string>,
    resolvedEnv: map<string, string>,
    podIdentity: string,
    scalerIndex: int)

  /** What the shared numeric parser (`ParseNumeric`) makes of a string: a 64-bit integer, a float, or nothing. */
  datatype Numeric = Int64Value(i: Int64) | Float64Value(f: real) | NotNumeric(cause: string)

  /** Go's `m[k]` on a `map[string]string`: the empty string when `k` is absent. */
  function Get(m: map<string, string>, k: string): string
  {
    if k in m then m[k] else ""
  }

  /**
   * A key present with the empty value reads exactly like an absent key,
   * so a `Get` cannot tell them apart; a key set to a value reads that
   * value, and setting or removing one key leaves every other key's
   * reading unchanged.
   */
  lemma GetEmptyLikeAbsent(m: map<string, string>, k: string, v: string, other: string)
    requires other != k
    ensures Get(m[k := ""], k) == Get(m - {k}, k) == ""
    ensures Get(m[k := v], k) == v
    ensures Get(m[k := v], other) == Get(m - {k}, other) == Get(m, other)
  {
  }

  /**
   * A setting given directly under `key` in `direct`, or else indirectly as
   * the name of an environment variable under `fromEnvKey` in the trigger
   * metadata; the empty string when neither is set.
   */
  function DirectOrFromEnv(config: ScalerConfig, direct: map<string, string>, key: string, fromEnvKey: string): string
  {
    if Get(direct, key) != "" then direct[key]
    else if Get(config.triggerMetadata, fromEnvKey) != "" then Get(config.resolvedEnv, config.triggerMetadata[fromEnvKey])
    else ""
  }

  /**
   * A setting given directly never reads the environment; one given by
   * the name of an environment variable reads that one variable and no
   * other. So two resolved environments that agree on the variable named
   * in the metadata give the same setting.
   */
  lemma DirectOrFromEnvReadsOneVariable(config: ScalerConfig, env: map<string, string>, direct: map<string, string>, key: string, fromEnvKey: string)
    requires Get(direct, key) == "" && Get(config.triggerMetadata, fromEnvKey) != ""
             ==> Get(env, config.triggerMetadata[fromEnvKey]) == Get(config.resolvedEnv, config.triggerMetadata[fromEnvKey])
    ensures DirectOrFromEnv(config, direct, key, fromEnvKey) == DirectOrFromEnv(config.(resolvedEnv := env), direct, key, fromEnvKey)
    ensures Get(direct, key) != "" ==> DirectOrFromEnv(config.(resolvedEnv := env), direct, key, fromEnvKey) == direct[key]
  {
  }

  function LowerAscii(c: char): char
  {
    if 'A' <= c <= 'Z' then (c as int - 'A' as int + 'a' as int) as char else c
  }

  /** Go's `strings.EqualFold`, restricted to ASCII case folding. */
  predicate EqualFold(a: string, b: string)
  {
    |a| == |b| && forall i :: 0 <= i < |a| ==> LowerAscii(a[i]) == LowerAscii(b[i])
  }
}
