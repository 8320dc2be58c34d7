/**
 * Validation and defaulting of an Azure Event Hub trigger's configuration:
 * the per-partition threshold, the storage connection that holds the
 * checkpoints, consumer group, checkpoint strategy, blob container, the
 * resource URL of a private cloud, and the credentials the pod identity
 * provider calls for.
 */
module EventHubMetadata {
  import opened Int64
  import opened Wrappers
  import opened Config

  /** The connection settings the scaler hands to the Event Hub and blob storage clients. */
  datatype EventHubInfo = EventHubInfo(
    eventHubConnection: string,
    eventHubConsumerGroup: string,
    storageConnection: string,
    blobContainer: string,
    namespace: string,
    eventHubName: string,
    checkpointStrategy: string,
    serviceBusEndpointSuffix: string,
    activeDirectoryEndpoint: string,
    eventHubResourceURL: string,
    podIdentity: string)

  const EmptyInfo := EventHubInfo("", "", "", "", "", "", "", "", "", "", "")

  datatype EventHubMetadata = EventHubMetadata(eventHubInfo: EventHubInfo, threshold: Int64, scalerIndex: int)

  /**
   * The parsers this file calls but does not define: the numeric parser
   * (asked for a 64-bit integer), and the two that resolve the service bus
   * endpoint suffix and the Active Directory endpoint from the metadata.
   */
  datatype Parsers = Parsers(
    parseInt: string -> Numeric,
    endpointSuffix: map<string, string> -> Result<string, string>,
    activeDirectoryEndpoint: map<string, string> -> Result<string, string>)

  datatype ConfigError =
    | ThresholdUnparsable(cause: string)
    | ThresholdNotInteger
    | NoStorageConnection
    | NoResourceURLForPrivateCloud
    | EndpointSuffixError(cause: string)
    | ActiveDirectoryEndpointError(cause: string)
    | NoEventHubConnection
    | NoEventHubNamespace
    | NoEventHubName

  const ThresholdKey := "unprocessedEventThreshold"
  const DefaultThreshold: Int64 := 64
  const DefaultConsumerGroup := "$Default"
  const DefaultCheckpointStrategy := ""
  const DefaultBlobContainer := ""
  const PrivateCloud := "Private"
  const DefaultEventHubResourceURL := "https://eventhubs.azure.net/"
  const PodIdentityNone := "none"
  const PodIdentityAzure := "azure"
  const PodIdentityAzureWorkload := "azure-workload"

  /** The value under `key`, even an empty one, or `default` when the key is absent. */
  function OrDefault(m: map<string, string>, key: string, default: string): string
  {
    if key in m then m[key] else default
  }

  function StorageConnection(config: ScalerConfig): string
  {
    DirectOrFromEnv(config, config.authParams, "storageConnection", "storageConnectionFromEnv")
  }

  function EventHubConnection(config: ScalerConfig): string
  {
    DirectOrFromEnv(config, config.authParams, "connection", "connectionFromEnv")
  }

  function EventHubNamespace(config: ScalerConfig): string
  {
    DirectOrFromEnv(config, config.triggerMetadata, "eventHubNamespace", "eventHubNamespaceFromEnv")
  }

  function EventHubName(config: ScalerConfig): string
  {
    DirectOrFromEnv(config, config.triggerMetadata, "eventHubName", "eventHubNameFromEnv")
  }

  predicate IsPrivateCloud(metadata: map<string, string>)
  {
    "cloud" in metadata && EqualFold(metadata["cloud"], PrivateCloud)
  }

  predicate UsesConnectionString(podIdentity: string)
  {
    podIdentity == "" || podIdentity == PodIdentityNone
  }

  predicate UsesAzureIdentity(podIdentity: string)
  {
    podIdentity == PodIdentityAzure || podIdentity == PodIdentityAzureWorkload
  }

  /** `a` when it holds an error, and `b` otherwise: checks run in order and the first failure wins. */
  function OrElse(a: Option<ConfigError>, b: Option<ConfigError>): Option<ConfigError>
  {
    if a.Some? then a else b
  }

  function ThresholdCheck(config: ScalerConfig, parsers: Parsers): Option<ConfigError>
  {
    if ThresholdKey !in config.triggerMetadata then None
    else match parsers.parseInt(config.triggerMetadata[ThresholdKey])
      case Int64Value(_) => None
      case Float64Value(_) => Some(ThresholdNotInteger)
      case NotNumeric(cause) => Some(ThresholdUnparsable(cause))
  }

  function CloudCheck(config: ScalerConfig): Option<ConfigError>
  {
    if IsPrivateCloud(config.triggerMetadata) && "eventHubResourceURL" !in config.triggerMetadata
    then Some(NoResourceURLForPrivateCloud) else None
  }

  function CredentialCheck(config: ScalerConfig): Option<ConfigError>
  {
    if UsesConnectionString(config.podIdentity) then
      if EventHubConnection(config) == "" then Some(NoEventHubConnection) else None
    else if UsesAzureIdentity(config.podIdentity) then
      if EventHubNamespace(config) == "" then Some(NoEventHubNamespace)
      else if EventHubName(config) == "" then Some(NoEventHubName)
      else None
    else None
  }

  /**
   * The configuration error parsing reports, if any: the threshold, the
   * storage connection, the private cloud's resource URL, the endpoint
   * suffix, the Active Directory endpoint and the credentials, checked in
   * that order.
   */
  function FirstConfigError(config: ScalerConfig, parsers: Parsers): Option<ConfigError>
  {
    OrElse(ThresholdCheck(config, parsers),
    OrElse(if StorageConnection(config) == "" then Some(NoStorageConnection) else None,
    OrElse(EndpointCheck(config, parsers),
    CredentialCheck(config))))
  }

  /** The private cloud's resource URL, then the endpoint suffix, then the Active Directory endpoint. */
  function EndpointCheck(config: ScalerConfig, parsers: Parsers): Option<ConfigError>
  {
    var tm := config.triggerMetadata;
    OrElse(CloudCheck(config),
    OrElse(if parsers.endpointSuffix(tm).Err? then Some(EndpointSuffixError(parsers.endpointSuffix(tm).error)) else None,
    if parsers.activeDirectoryEndpoint(tm).Err?
    then Some(ActiveDirectoryEndpointError(parsers.activeDirectoryEndpoint(tm).error)) else None))
  }

  /**
   * The endpoints part of parsing: the resource URL (the given one for a
   * private cloud, which must then be present, and the public default
   * otherwise), the service bus endpoint suffix and the Active Directory
   * endpoint.
   */
  method ResolveEndpoints(config: ScalerConfig, parsers: Parsers) returns (r: Result<(string, string, string), ConfigError>)
    ensures r.Err? <==> EndpointCheck(config, parsers).Some?
    ensures r.Err? ==> r.error == EndpointCheck(config, parsers).value
    ensures r.Ok? ==> r.value.0 == (if IsPrivateCloud(config.triggerMetadata) then config.triggerMetadata["eventHubResourceURL"]
                                    else DefaultEventHubResourceURL)
    ensures r.Ok? ==> parsers.endpointSuffix(config.triggerMetadata) == Ok(r.value.1)
    ensures r.Ok? ==> parsers.activeDirectoryEndpoint(config.triggerMetadata) == Ok(r.value.2)
  {
    var tm := config.triggerMetadata;
    var resourceURL := DefaultEventHubResourceURL;
    if "cloud" in tm && EqualFold(tm["cloud"], PrivateCloud) {
      if "eventHubResourceURL" !in tm {
        return Err(NoResourceURLForPrivateCloud);
      }
      resourceURL := tm["eventHubResourceURL"];
    }

    var suffix := parsers.endpointSuffix(tm);
    if suffix.Err? {
      return Err(EndpointSuffixError(suffix.error));
    }

    var adEndpoint := parsers.activeDirectoryEndpoint(tm);
    if adEndpoint.Err? {
      return Err(ActiveDirectoryEndpointError(adEndpoint.error));
    }
    return Ok((resourceURL, suffix.value, adEndpoint.value));
  }

  /**
   * The credentials part of parsing, by pod identity provider: a
   * connection string when there is none, namespace and hub name for the
   * Azure identities, and nothing for any other provider.
   */
  method ResolveCredentials(config: ScalerConfig) returns (r: Result<(string, string, string), ConfigError>)
    ensures r.Err? <==> CredentialCheck(config).Some?
    ensures r.Err? ==> r.error == CredentialCheck(config).value
    ensures r.Ok? ==> r.value.0 == (if UsesConnectionString(config.podIdentity) then EventHubConnection(config) else "")
    ensures r.Ok? ==> r.value.1 == (if UsesAzureIdentity(config.podIdentity) then EventHubNamespace(config) else "")
    ensures r.Ok? ==> r.value.2 == (if UsesAzureIdentity(config.podIdentity) then EventHubName(config) else "")
  {
    var connection, namespace, hubName := "", "", "";
    if UsesConnectionString(config.podIdentity) {
      connection := DirectOrFromEnv(config, config.authParams, "connection", "connectionFromEnv");
      if |connection| == 0 {
        return Err(NoEventHubConnection);
      }
    } else if UsesAzureIdentity(config.podIdentity) {
      namespace := DirectOrFromEnv(config, config.triggerMetadata, "eventHubNamespace", "eventHubNamespaceFromEnv");
      if |namespace| == 0 {
        return Err(NoEventHubNamespace);
      }
      hubName := DirectOrFromEnv(config, config.triggerMetadata, "eventHubName", "eventHubNameFromEnv");
      if |hubName| == 0 {
        return Err(NoEventHubName);
      }
    }
    return Ok((connection, namespace, hubName));
  }

  /** Go's `parseAzureEventHubMetadata`. */
  method ParseEventHubMetadata(config: ScalerConfig, parsers: Parsers) returns (r: Result<EventHubMetadata, ConfigError>)
    // errors, in the order they are checked
    ensures r.Err? <==> FirstConfigError(config, parsers).Some?
    ensures r.Err? ==> r.error == FirstConfigError(config, parsers).value
    // the threshold: 64 unless given, and then the parsed integer
    ensures r.Ok? && ThresholdKey !in config.triggerMetadata ==> r.value.threshold == DefaultThreshold
    ensures r.Ok? && ThresholdKey in config.triggerMetadata
            ==> parsers.parseInt(config.triggerMetadata[ThresholdKey]) == Int64Value(r.value.threshold)
    // a key that is present overrides its default, even when empty
    ensures r.Ok? ==> var info := r.value.eventHubInfo;
      info.eventHubConsumerGroup == OrDefault(config.triggerMetadata, "consumerGroup", DefaultConsumerGroup)
      && info.checkpointStrategy == OrDefault(config.triggerMetadata, "checkpointStrategy", DefaultCheckpointStrategy)
      && info.blobContainer == OrDefault(config.triggerMetadata, "blobContainer", DefaultBlobContainer)
    ensures r.Ok? ==> var info := r.value.eventHubInfo;
      info.storageConnection == StorageConnection(config) != ""
      && info.eventHubResourceURL
         == (if IsPrivateCloud(config.triggerMetadata) then config.triggerMetadata["eventHubResourceURL"]
             else DefaultEventHubResourceURL)
      && parsers.endpointSuffix(config.triggerMetadata) == Ok(info.serviceBusEndpointSuffix)
      && parsers.activeDirectoryEndpoint(config.triggerMetadata) == Ok(info.activeDirectoryEndpoint)
      && info.podIdentity == config.podIdentity
      && r.value.scalerIndex == config.scalerIndex
    // the credentials the pod identity provider calls for, and no others
    ensures r.Ok? ==> var info := r.value.eventHubInfo;
      info.eventHubConnection == (if UsesConnectionString(config.podIdentity) then EventHubConnection(config) else "")
      && info.namespace == (if UsesAzureIdentity(config.podIdentity) then EventHubNamespace(config) else "")
      && info.eventHubName == (if UsesAzureIdentity(config.podIdentity) then EventHubName(config) else "")
    ensures r.Ok? && UsesConnectionString(config.podIdentity) ==> r.value.eventHubInfo.eventHubConnection != ""
    ensures r.Ok? && UsesAzureIdentity(config.podIdentity)
            ==> r.value.eventHubInfo.namespace != "" && r.value.eventHubInfo.eventHubName != ""
  {
    var tm := config.triggerMetadata;

    var threshold: Int64 := DefaultThreshold;
    if ThresholdKey in tm {
      match parsers.parseInt(tm[ThresholdKey])
      case NotNumeric(cause) =>
        return Err(ThresholdUnparsable(cause));
      case Float64Value(_) =>
        return Err(ThresholdNotInteger);
      case Int64Value(t) =>
        threshold := t;
    }

    var storageConnection := DirectOrFromEnv(config, config.authParams, "storageConnection", "storageConnectionFromEnv");
    if |storageConnection| == 0 {
      return Err(NoStorageConnection);
    }

    // a key that is present overrides the default, even with an empty value
    var consumerGroup := if "consumerGroup" in tm then tm["consumerGroup"] else DefaultConsumerGroup;
    var checkpointStrategy := if "checkpointStrategy" in tm then tm["checkpointStrategy"] else DefaultCheckpointStrategy;
    var blobContainer := if "blobContainer" in tm then tm["blobContainer"] else DefaultBlobContainer;

    var endpoints := ResolveEndpoints(config, parsers);
    if endpoints.Err? {
      return Err(endpoints.error);
    }
    var (resourceURL, suffix, adEndpoint) := endpoints.value;

    var credentials := ResolveCredentials(config);
    if credentials.Err? {
      return Err(credentials.error);
    }
    var (connection, namespace, hubName) := credentials.value;

    var info := EventHubInfo(
      connection, consumerGroup, storageConnection, blobContainer, namespace, hubName,
      checkpointStrategy, suffix, adEndpoint, resourceURL, config.podIdentity);
    return Ok(EventHubMetadata(info, threshold, config.scalerIndex));
  }
}
