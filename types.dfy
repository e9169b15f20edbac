/**
 * Value types shared by the model of a ZHA (Zigbee Home Automation) endpoint:
 * the zigpy endpoint and cluster objects as the endpoint sees them, handler
 * classes and handler values, the registries, and the outcomes of a
 * lifecycle stage.
 */
module ZigbeeTypes {

  datatype Option<+T> = None | Some(value: T)

  /** Cluster id of the ZCL Door Lock cluster (zigpy `closures.DoorLock.cluster_id`). */
  const DOOR_LOCK_CLUSTER_ID: nat := 0x0101

  /** The `ep_attribute` value that Xiaomi devices put on their misused Door Lock cluster. */
  const MULTISTATE_INPUT_ATTRIBUTE: string := "multistate_input"

  /** Handler names the device keeps direct references to (zha `const`). */
  const CLUSTER_HANDLER_POWER_CONFIGURATION: string := "power"
  const CLUSTER_HANDLER_IDENTIFY: string := "identify"
  const CLUSTER_HANDLER_BASIC: string := "basic"

  /**
   * A zigpy cluster as the endpoint uses it: its numeric id and, when the
   * cluster object has one, its `ep_attribute`.
   */
  datatype Cluster = Cluster(clusterId: nat, epAttribute: Option<string>)

  /** The zigpy endpoint: numeric id, optional profile id and device type, input and output clusters by id. */
  datatype ZigpyEndpoint = ZigpyEndpoint(
    endpointId: nat,
    profileId: Option<nat>,
    deviceType: Option<nat>,
    inClusters: map<nat, Cluster>,
    outClusters: map<nat, Cluster>)
  {
    /** zigpy files every cluster under its own cluster id. */
    predicate WellFormed()
    {
      && (forall cid | cid in inClusters :: inClusters[cid].clusterId == cid)
      && (forall cid | cid in outClusters :: outClusters[cid].clusterId == cid)
    }
  }

  /**
   * A cluster-handler class: the generic `ClusterHandler`, the
   * `MultistateInput` handler of the Xiaomi override, or any other class a
   * registry names.
   */
  datatype HandlerClass = GenericClusterHandler | MultistateInput | Registered(className: string)

  /**
   * A handler's `id`. It is determined by the endpoint's unique id and the
   * cluster id, and distinct pairs give distinct ids.
   */
  datatype HandlerId = HandlerId(endpointUniqueId: string, clusterId: nat)

  /** A constructed cluster handler: its id, class, wrapped cluster and `name`; `isClient` marks a client handler. */
  datatype ClusterHandler = ClusterHandler(
    id: HandlerId,
    handlerClass: HandlerClass,
    cluster: Cluster,
    name: string,
    isClient: bool)

  /**
   * The registries and the per-class behaviour the endpoint relies on:
   * server and client registries from cluster id to class, each class's
   * `matches` predicate (for the endpoint at hand) and the `name` a class
   * gives the handler it builds for a cluster.
   */
  datatype Registries = Registries(
    server: map<nat, HandlerClass>,
    client: map<nat, HandlerClass>,
    matches: (HandlerClass, Cluster) -> bool,
    handlerName: (HandlerClass, Cluster) -> string)

  /** A table of handlers keyed by handler id, as the endpoint's three dicts are. */
  type HandlerTable = map<HandlerId, ClusterHandler>

  /** Every handler in the table is filed under its own id. */
  predicate Keyed(t: HandlerTable)
  {
    forall id | id in t :: t[id].id == id
  }

  /** A lifecycle stage: `async_initialize(from_cache)` or `async_configure()`. */
  datatype Stage = Initialize(fromCache: bool) | Configure

  /**
   * What one handler's stage call produced, as `asyncio.gather(...,
   * return_exceptions=True)` hands it back: a normal return, or a raised
   * exception with its text; `isException` is false for a `BaseException`
   * that is not an `Exception` (such as a cancellation).
   */
  datatype StageResult = Returned | Raised(detail: string, isException: bool)

  /** One handler's log record of a stage: a warning with the failure text, or a debug note. */
  datatype LogEntry =
    | Warning(handler: ClusterHandler, stage: Stage, detail: string)
    | Debug(handler: ClusterHandler, stage: Stage)

  /** The device status values the endpoint distinguishes. */
  datatype DeviceStatus = Created | Initialized
}
