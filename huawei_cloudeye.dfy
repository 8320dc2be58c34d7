/**
 * Configuration of the Huawei Cloudeye scaler: the metric to query (four
 * required keys), the target and floor values, the optional collection
 * time, statistic and period, and the AK/SK authorization taken from the
 * authentication parameters.
 */
module HuaweiCloudeye {
  import opened Int64
  import opened Wrappers
  import opened Config
  import opened Strconv

  /** The credentials and endpoint the Cloudeye client authenticates with. */
  datatype HuaweiAuthorization = HuaweiAuthorization(
    identityEndpoint: string,
    projectID: string,
    domainID: string,
    region: string,
    domain: string,
    cloud: string,
    accessKey: string,
    secretKey: string)

  const EmptyAuthorization := HuaweiAuthorization("", "", "", "", "", "", "", "")

  datatype CloudeyeMetadata = CloudeyeMetadata(
    namespace: string,
    metricsName: string,
    dimensionName: string,
    dimensionValue: string,
    targetMetricValue: real,
    minMetricValue: real,
    metricCollectionTime: Int64,
    metricFilter: string,
    metricPeriod: string,
    huaweiAuthorization: HuaweiAuthorization,
    scalerIndex: int)

  datatype AuthError = MissingAuthParam(key: string)

  datatype CloudeyeError =
    | MissingMetadata(key: string)
    | NotAFloat(key: string)
    | AuthorizationFailed(cause: AuthError)

  const DefaultMetricCollectionTime: Int64 := 300
  const DefaultMetricFilter := "average"
  const DefaultMetricPeriod := "300"
  const DefaultHuaweiCloud := "myhuaweicloud.com"

  /**
   * The authentication parameters in the order they are read; every one
   * but `Cloud`, at `CloudIndex`, is required.
   */
  const AuthKeys := ["IdentityEndpoint", "ProjectID", "DomainID", "Region", "Domain", "Cloud", "AccessKey", "SecretKey"]
  const CloudIndex := 5

  /**
   * The index of the first key of `keys`, from index `from` on, whose value
   * in `m` is empty or absent, skipping the optional key at index
   * `optional`; `|keys|` when there is none.
   */
  function FirstMissing(m: map<string, string>, keys: seq<string>, optional: int, from: nat): (i: nat)
    requires from <= |keys|
    ensures from <= i <= |keys|
    ensures forall j :: from <= j < i ==> j == optional || Get(m, keys[j]) != ""
    ensures i < |keys| ==> i != optional && Get(m, keys[i]) == ""
    decreases |keys| - from
  {
    if from == |keys| then |keys|
    else if from != optional && Get(m, keys[from]) == "" then from
    else FirstMissing(m, keys, optional, from + 1)
  }

  /** Where reading the authentication parameters stops: the first required one that is empty or absent. */
  function MissingAuthIndex(authParams: map<string, string>): nat
  {
    FirstMissing(authParams, AuthKeys, CloudIndex, 0)
  }

  /** Reading the authentication parameters stops at the first required one that is empty, in the order of `AuthKeys`. */
  lemma MissingAuthIndexValue(m: map<string, string>)
    ensures MissingAuthIndex(m)
      == if Get(m, "IdentityEndpoint") == "" then 0
         else if Get(m, "ProjectID") == "" then 1
         else if Get(m, "DomainID") == "" then 2
         else if Get(m, "Region") == "" then 3
         else if Get(m, "Domain") == "" then 4
         else if Get(m, "AccessKey") == "" then 6
         else if Get(m, "SecretKey") == "" then 7
         else 8
  {
    var keys := AuthKeys;
    assert FirstMissing(m, keys, CloudIndex, 7) == if Get(m, keys[7]) == "" then 7 else 8;
    assert FirstMissing(m, keys, CloudIndex, 6) == if Get(m, keys[6]) == "" then 6 else FirstMissing(m, keys, CloudIndex, 7);
    assert FirstMissing(m, keys, CloudIndex, 5) == FirstMissing(m, keys, CloudIndex, 6);
    assert FirstMissing(m, keys, CloudIndex, 4) == if Get(m, keys[4]) == "" then 4 else FirstMissing(m, keys, CloudIndex, 5);
    assert FirstMissing(m, keys, CloudIndex, 3) == if Get(m, keys[3]) == "" then 3 else FirstMissing(m, keys, CloudIndex, 4);
    assert FirstMissing(m, keys, CloudIndex, 2) == if Get(m, keys[2]) == "" then 2 else FirstMissing(m, keys, CloudIndex, 3);
    assert FirstMissing(m, keys, CloudIndex, 1) == if Get(m, keys[1]) == "" then 1 else FirstMissing(m, keys, CloudIndex, 2);
  }

  /** The field read from `AuthKeys[k]`: its value once reading got past it, and still empty otherwise. */
  function ReadUpTo(authParams: map<string, string>, k: nat, missing: nat): string
    requires k < |AuthKeys|
  {
    if k < missing then Get(authParams, AuthKeys[k]) else ""
  }

  /**
   * Go's `gethuaweiAuthorization`: copies the authentication parameters in
   * order and stops at the first required one that is empty or absent,
   * returning what it has filled so far together with the error. An empty
   * `Cloud` takes the default and is never an error.
   */
  method GetHuaweiAuthorization(authParams: map<string, string>) returns (meta: HuaweiAuthorization, err: Option<AuthError>)
    ensures var i := MissingAuthIndex(authParams);
      (err.None? <==> i == |AuthKeys|)
      && (err.Some? ==> err.value == MissingAuthParam(AuthKeys[i]))
      && meta.identityEndpoint == ReadUpTo(authParams, 0, i)
      && meta.projectID == ReadUpTo(authParams, 1, i)
      && meta.domainID == ReadUpTo(authParams, 2, i)
      && meta.region == ReadUpTo(authParams, 3, i)
      && meta.domain == ReadUpTo(authParams, 4, i)
      && meta.cloud == (if i <= CloudIndex then ""
                        else if Get(authParams, "Cloud") != "" then Get(authParams, "Cloud") else DefaultHuaweiCloud)
      && meta.accessKey == ReadUpTo(authParams, 6, i)
      && meta.secretKey == ReadUpTo(authParams, 7, i)
  {
    MissingAuthIndexValue(authParams);
    meta := EmptyAuthorization;
    err := None;

    if Get(authParams, "IdentityEndpoint") == "" {
      return meta, Some(MissingAuthParam("IdentityEndpoint"));
    }
    meta := meta.(identityEndpoint := authParams["IdentityEndpoint"]);

    if Get(authParams, "ProjectID") == "" {
      return meta, Some(MissingAuthParam("ProjectID"));
    }
    meta := meta.(projectID := authParams["ProjectID"]);

    if Get(authParams, "DomainID") == "" {
      return meta, Some(MissingAuthParam("DomainID"));
    }
    meta := meta.(domainID := authParams["DomainID"]);

    if Get(authParams, "Region") == "" {
      return meta, Some(MissingAuthParam("Region"));
    }
    meta := meta.(region := authParams["Region"]);

    if Get(authParams, "Domain") == "" {
      return meta, Some(MissingAuthParam("Domain"));
    }
    meta := meta.(domain := authParams["Domain"]);

    if Get(authParams, "Cloud") != "" {
      meta := meta.(cloud := authParams["Cloud"]);
    } else {
      meta := meta.(cloud := DefaultHuaweiCloud);
    }

    if Get(authParams, "AccessKey") == "" {
      return meta, Some(MissingAuthParam("AccessKey"));
    }
    meta := meta.(accessKey := authParams["AccessKey"]);

    if Get(authParams, "SecretKey") == "" {
      return meta, Some(MissingAuthParam("SecretKey"));
    }
    meta := meta.(secretKey := authParams["SecretKey"]);
  }

  /** The authorization `GetHuaweiAuthorization` returns when every required parameter is present. */
  function Authorization(authParams: map<string, string>): HuaweiAuthorization
  {
    HuaweiAuthorization(
      Get(authParams, "IdentityEndpoint"), Get(authParams, "ProjectID"), Get(authParams, "DomainID"),
      Get(authParams, "Region"), Get(authParams, "Domain"),
      if Get(authParams, "Cloud") != "" then Get(authParams, "Cloud") else DefaultHuaweiCloud,
      Get(authParams, "AccessKey"), Get(authParams, "SecretKey"))
  }

  /** Authorization succeeds exactly when every required parameter is non-empty. */
  lemma AuthorizationSucceedsIffComplete(m: map<string, string>)
    ensures MissingAuthIndex(m) == |AuthKeys|
            <==> forall k :: 0 <= k < |AuthKeys| && k != CloudIndex ==> Get(m, AuthKeys[k]) != ""
  {
    var i := MissingAuthIndex(m);
    if i < |AuthKeys| {
      assert Get(m, AuthKeys[i]) == "" && i != CloudIndex;
    }
  }

  /** Whether `Cloud` is set makes no difference to whether, or where, authorization fails. */
  lemma CloudNeverRequired(m: map<string, string>, cloud: string)
    ensures MissingAuthIndex(m["Cloud" := cloud]) == MissingAuthIndex(m)
  {
    MissingAuthIndexValue(m);
    MissingAuthIndexValue(m["Cloud" := cloud]);
  }

  /** The trigger metadata keys that must be present and non-empty, in the order they are checked. */
  const MetricKeys := ["namespace", "metricName", "dimensionName", "dimensionValue"]

  function MissingMetricKeyIndex(triggerMetadata: map<string, string>): nat
  {
    FirstMissing(triggerMetadata, MetricKeys, -1, 0)
  }

  /** The metric keys are checked in the order of `MetricKeys`. */
  lemma MissingMetricKeyIndexValue(m: map<string, string>)
    ensures MissingMetricKeyIndex(m)
      == if Get(m, "namespace") == "" then 0
         else if Get(m, "metricName") == "" then 1
         else if Get(m, "dimensionName") == "" then 2
         else if Get(m, "dimensionValue") == "" then 3
         else 4
  {
    var keys := MetricKeys;
    assert FirstMissing(m, keys, -1, 3) == if Get(m, keys[3]) == "" then 3 else 4;
    assert FirstMissing(m, keys, -1, 2) == if Get(m, keys[2]) == "" then 2 else FirstMissing(m, keys, -1, 3);
    assert FirstMissing(m, keys, -1, 1) == if Get(m, keys[1]) == "" then 1 else FirstMissing(m, keys, -1, 2);
  }

  /**
   * The check on `targetMetricValue` or `minMetricValue`: it must be
   * non-empty, and the numeric parser must not read it as an integer;
   * a value it cannot read at all is no error.
   */
  function MetricValueCheck(triggerMetadata: map<string, string>, key: string, parseFloat: string -> Numeric): Option<CloudeyeError>
  {
    if Get(triggerMetadata, key) == "" then Some(MissingMetadata(key))
    else if parseFloat(Get(triggerMetadata, key)).Int64Value? then Some(NotAFloat(key))
    else None
  }

  /** The configuration error `ParseCloudeyeMetadata` reports, if any: the metric keys, the target, the floor, then the authorization. */
  function FirstCloudeyeError(config: ScalerConfig, parseFloat: string -> Numeric): Option<CloudeyeError>
  {
    var tm := config.triggerMetadata;
    var missing := MissingMetricKeyIndex(tm);
    var missingAuth := MissingAuthIndex(config.authParams);
    if missing < |MetricKeys| then Some(MissingMetadata(MetricKeys[missing]))
    else if MetricValueCheck(tm, "targetMetricValue", parseFloat).Some? then MetricValueCheck(tm, "targetMetricValue", parseFloat)
    else if MetricValueCheck(tm, "minMetricValue", parseFloat).Some? then MetricValueCheck(tm, "minMetricValue", parseFloat)
    else if missingAuth < |AuthKeys| then Some(AuthorizationFailed(MissingAuthParam(AuthKeys[missingAuth])))
    else None
  }

  /**
   * Reads `targetMetricValue` or `minMetricValue`: missing or empty is an
   * error, an integer is an error, a float is taken, and anything else is
   * logged and leaves the value at zero.
   */
  method ParseMetricValue(triggerMetadata: map<string, string>, key: string, parseFloat: string -> Numeric)
    returns (v: real, err: Option<CloudeyeError>)
    ensures err == MetricValueCheck(triggerMetadata, key, parseFloat)
    ensures err.None? && parseFloat(triggerMetadata[key]).Float64Value? ==> v == parseFloat(triggerMetadata[key]).f
    ensures err.None? && parseFloat(triggerMetadata[key]).NotNumeric? ==> v == 0.0
  {
    v := 0.0;
    if key in triggerMetadata && triggerMetadata[key] != "" {
      match parseFloat(triggerMetadata[key])
      case NotNumeric(_) =>
        // only logged
      case Int64Value(_) =>
        return v, Some(NotAFloat(key));
      case Float64Value(f) =>
        v := f;
    } else {
      return v, Some(MissingMetadata(key));
    }
    return v, None;
  }

  /** The four metric keys must be present and non-empty, checked in order. */
  method CheckMetricKeys(triggerMetadata: map<string, string>) returns (err: Option<CloudeyeError>)
    ensures var missing := MissingMetricKeyIndex(triggerMetadata);
      err == if missing < |MetricKeys| then Some(MissingMetadata(MetricKeys[missing])) else None
  {
    MissingMetricKeyIndexValue(triggerMetadata);
    if Get(triggerMetadata, "namespace") == "" {
      return Some(MissingMetadata("namespace"));
    }
    if Get(triggerMetadata, "metricName") == "" {
      return Some(MissingMetadata("metricName"));
    }
    if Get(triggerMetadata, "dimensionName") == "" {
      return Some(MissingMetadata("dimensionName"));
    }
    if Get(triggerMetadata, "dimensionValue") == "" {
      return Some(MissingMetadata("dimensionValue"));
    }
    return None;
  }

  /**
   * The optional settings: each starts at its default; the collection time
   * and the period are replaced only by a non-empty valid integer (the
   * period kept as the string given), the statistic by any non-empty value.
   */
  method ParseOptionalSettings(triggerMetadata: map<string, string>)
    returns (metricCollectionTime: Int64, metricFilter: string, metricPeriod: string)
    ensures var tm := triggerMetadata;
      metricCollectionTime
        == (if Get(tm, "metricCollectionTime") != "" && Atoi(tm["metricCollectionTime"]).Some?
            then Atoi(tm["metricCollectionTime"]).value else DefaultMetricCollectionTime)
      && metricFilter == (if Get(tm, "metricFilter") != "" then tm["metricFilter"] else DefaultMetricFilter)
      && metricPeriod
        == (if Get(tm, "metricPeriod") != "" && Atoi(tm["metricPeriod"]).Some? then tm["metricPeriod"] else DefaultMetricPeriod)
    ensures Atoi(metricPeriod).Some?
  {
    metricCollectionTime, metricFilter, metricPeriod := DefaultMetricCollectionTime, DefaultMetricFilter, DefaultMetricPeriod;
    DefaultPeriodIsInteger();

    if Get(triggerMetadata, "metricCollectionTime") != "" {
      var parsed := Atoi(triggerMetadata["metricCollectionTime"]);
      if parsed.Some? {
        metricCollectionTime := parsed.value;
      }
    }

    if Get(triggerMetadata, "metricFilter") != "" {
      metricFilter := triggerMetadata["metricFilter"];
    }

    if Get(triggerMetadata, "metricPeriod") != "" {
      var parsed := Atoi(triggerMetadata["metricPeriod"]);
      if parsed.Some? {
        metricPeriod := triggerMetadata["metricPeriod"];
      }
    }
  }

  /** Go's `parseHuaweiCloudeyeMetadata`, with the numeric parser as `parseFloat`. */
  method ParseCloudeyeMetadata(config: ScalerConfig, parseFloat: string -> Numeric) returns (r: Result<CloudeyeMetadata, CloudeyeError>)
    // errors, in the order they are checked
    ensures r.Err? <==> FirstCloudeyeError(config, parseFloat).Some?
    ensures r.Err? ==> r.error == FirstCloudeyeError(config, parseFloat).value
    // the metric to query
    ensures r.Ok? ==> var tm, meta := config.triggerMetadata, r.value;
      meta.namespace == tm["namespace"] != "" && meta.metricsName == tm["metricName"] != ""
      && meta.dimensionName == tm["dimensionName"] != "" && meta.dimensionValue == tm["dimensionValue"] != ""
    // target and floor: a float is taken, an unreadable value leaves zero
    ensures r.Ok? ==> var tm, meta := config.triggerMetadata, r.value;
      (parseFloat(tm["targetMetricValue"]).Float64Value? ==> meta.targetMetricValue == parseFloat(tm["targetMetricValue"]).f)
      && (parseFloat(tm["targetMetricValue"]).NotNumeric? ==> meta.targetMetricValue == 0.0)
      && (parseFloat(tm["minMetricValue"]).Float64Value? ==> meta.minMetricValue == parseFloat(tm["minMetricValue"]).f)
      && (parseFloat(tm["minMetricValue"]).NotNumeric? ==> meta.minMetricValue == 0.0)
    // optional settings: taken when non-empty and, for the integers, valid; the defaults otherwise
    ensures r.Ok? ==> var tm, meta := config.triggerMetadata, r.value;
      meta.metricCollectionTime
        == (if Get(tm, "metricCollectionTime") != "" && Atoi(tm["metricCollectionTime"]).Some?
            then Atoi(tm["metricCollectionTime"]).value else DefaultMetricCollectionTime)
      && meta.metricFilter == (if Get(tm, "metricFilter") != "" then tm["metricFilter"] else DefaultMetricFilter)
      && meta.metricPeriod
        == (if Get(tm, "metricPeriod") != "" && Atoi(tm["metricPeriod"]).Some? then tm["metricPeriod"] else DefaultMetricPeriod)
    ensures r.Ok? ==> Atoi(r.value.metricPeriod).Some?
    // the authorization and the index
    ensures r.Ok? ==> r.value.huaweiAuthorization == Authorization(config.authParams)
    ensures r.Ok? ==> r.value.scalerIndex == config.scalerIndex
  {
    var tm := config.triggerMetadata;

    var keyErr := CheckMetricKeys(tm);
    if keyErr.Some? {
      return Err(keyErr.value);
    }

    var targetMetricValue, targetErr := ParseMetricValue(tm, "targetMetricValue", parseFloat);
    if targetErr.Some? {
      return Err(targetErr.value);
    }
    var minMetricValue, minErr := ParseMetricValue(tm, "minMetricValue", parseFloat);
    if minErr.Some? {
      return Err(minErr.value);
    }

    var metricCollectionTime, metricFilter, metricPeriod := ParseOptionalSettings(tm);

    var auth, authErr := GetHuaweiAuthorization(config.authParams);
    if authErr.Some? {
      return Err(AuthorizationFailed(authErr.value));
    }

    return Ok(CloudeyeMetadata(
      tm["namespace"], tm["metricName"], tm["dimensionName"], tm["dimensionValue"],
      targetMetricValue, minMetricValue, metricCollectionTime, metricFilter, metricPeriod,
      auth, config.scalerIndex));
  }

  /** The default period is itself a valid integer, so the period handed to the query always is. */
  lemma DefaultPeriodIsInteger()
    ensures Atoi(DefaultMetricPeriod) == Some(300)
  {
    assert Itoa(300) == DefaultMetricPeriod;
    AtoiItoa(300);
  }
}
