/**
 * The ZHA `Endpoint`: one Zigbee endpoint of a device, the cluster handlers
 * it creates for its clusters, the handlers higher layers claim, the
 * lifecycle stages it runs over them, and its entity and event hooks into
 * the owning device.
 */
module ZhaEndpoint {
  import opened ZigbeeTypes
  import opened Formatting
  import opened Signature
  import opened HandlerTables

  /** Payload keys of an endpoint event (zha `const`). */
  const ATTR_UNIQUE_ID: string := "unique_id"
  const ATTR_ENDPOINT_ID: string := "endpoint_id"

  /** A value in an event payload. */
  datatype EventValue = Text(text: string) | Number(number: int) | Other(tag: string)

  type Payload = map<string, EventValue>

  type Platform = string

  /** One buffered entity request: the entity class, its unique id, the device and the handlers it uses. */
  datatype EntityRecord = EntityRecord(entityClass: string, uniqueId: string, device: Device, handlers: seq<ClusterHandler>)

  /** The per-platform buffer of entity requests waiting to be created. */
  type EntityBuffer = map<Platform, seq<EntityRecord>>

  /** The endpoint's unique id: the device's IEEE address, a dash, then the endpoint id in decimal. */
  function UniqueId(ieee: string, endpointId: nat): (r: string)
    ensures |r| > |ieee| + 1 && r[..|ieee|] == ieee && r[|ieee|] == '-'
    ensures Canonical(r[|ieee| + 1..], 10) && Value(r[|ieee| + 1..], 10) == endpointId
  {
    assert (ieee + "-" + Decimal(endpointId))[|ieee| + 1..] == Decimal(endpointId);
    ieee + "-" + Decimal(endpointId)
  }

  /** Two endpoints of one device have distinct unique ids. */
  lemma UniqueIdInjective(ieee: string, a: nat, b: nat)
    requires UniqueId(ieee, a) == UniqueId(ieee, b)
    ensures a == b
  {
  }

  /** The event payload: the endpoint's unique id and id under their keys, overridden by any key the caller's payload also has. */
  function EventPayload(uniqueId: string, endpointId: nat, signal: Payload): (p: Payload)
    ensures p.Keys == signal.Keys + {ATTR_UNIQUE_ID, ATTR_ENDPOINT_ID}
    ensures forall k | k in signal :: p[k] == signal[k]
    ensures ATTR_UNIQUE_ID !in signal ==> p[ATTR_UNIQUE_ID] == Text(uniqueId)
    ensures ATTR_ENDPOINT_ID !in signal ==> p[ATTR_ENDPOINT_ID] == Number(endpointId)
  {
    map[ATTR_UNIQUE_ID := Text(uniqueId), ATTR_ENDPOINT_ID := Number(endpointId)] + signal
  }

  /**
   * The buffer after one entity request: unchanged once the device is
   * initialized; otherwise the record appended to its platform's list, or
   * `None` (a `KeyError`) when the buffer has no list for the platform.
   */
  function BufferEntity(buf: EntityBuffer, status: DeviceStatus, platform: Platform, rec: EntityRecord): (r: Option<EntityBuffer>)
    ensures status == Initialized ==> r == Some(buf)
    ensures status != Initialized && platform !in buf ==> r == None
    ensures status != Initialized && platform in buf ==>
      && r.Some?
      && r.value.Keys == buf.Keys
      && r.value[platform] == buf[platform] + [rec]
      && (forall p | p in buf && p != platform :: r.value[p] == buf[p])
  {
    if status == Initialized then Some(buf)
    else if platform !in buf then None
    else Some(buf[platform := buf[platform] + [rec]])
  }

  /** A stage call that the endpoint logs as a failure: one that raised an `Exception`. */
  predicate Failed(res: StageResult)
  {
    res.Raised? && res.isException
  }

  /** The log entry for one handler's stage result: a warning with the failure text, or a debug note. */
  function Report(h: ClusterHandler, stage: Stage, res: StageResult): (e: LogEntry)
    ensures e.handler == h && e.stage == stage
    ensures e.Warning? <==> Failed(res)
    ensures e.Warning? ==> e.detail == res.detail
  {
    if Failed(res) then Warning(h, stage, res.detail) else Debug(h, stage)
  }

  /**
   * Runs one stage on every handler, collects every outcome (a raised
   * exception is collected as a result, not propagated) and reports each.
   */
  method RunStage(handlers: seq<ClusterHandler>, stage: Stage, run: (ClusterHandler, Stage) -> StageResult)
    returns (log: seq<LogEntry>)
    ensures |log| == |handlers|
    ensures forall i | 0 <= i < |log| :: log[i] == Report(handlers[i], stage, run(handlers[i], stage))
  {
    var results := seq(|handlers|, i requires 0 <= i < |handlers| => run(handlers[i], stage));
    log := [];
    for k := 0 to |handlers|
      invariant |log| == k
      invariant forall i | 0 <= i < k :: log[i] == Report(handlers[i], stage, results[i])
    {
      var handler, outcome := handlers[k], results[k];
      if outcome.Raised? && outcome.isException {
        log := log + [Warning(handler, stage, outcome.detail)];
      } else {
        log := log + [Debug(handler, stage)];
      }
    }
  }

  /** The handlers the entries of a stage log are about, in log order. */
  function LoggedHandlers(log: seq<LogEntry>): (hs: seq<ClusterHandler>)
    ensures |hs| == |log| && forall i | 0 <= i < |log| :: hs[i] == log[i].handler
  {
    seq(|log|, i requires 0 <= i < |log| => log[i].handler)
  }

  /**
   * The log of one stage over the claimed and the client tables: the
   * claimed handlers each once, then the client handlers each once, each
   * entry the report of that handler's own result; a logged handler that
   * is not a client handler is a claimed one.
   */
  predicate StageLog(log: seq<LogEntry>, claimed: HandlerTable, client: HandlerTable,
                     stage: Stage, run: (ClusterHandler, Stage) -> StageResult)
  {
    var hs, n := LoggedHandlers(log), |claimed|;
    && |log| == n + |client|
    && Lists(hs[..n], claimed, claimed.Keys)
    && Lists(hs[n..], client, client.Keys)
    && (forall i | 0 <= i < |log| :: log[i] == Report(log[i].handler, stage, run(log[i].handler, stage)))
    && (forall i | 0 <= i < |log| :: !log[i].handler.isClient ==> log[i].handler.id in claimed)
  }

  /** The part of the owning ZHA device that the endpoint reads and writes. */
  class Device {
    const ieee: string
    const isCoordinator: bool
    var status: DeviceStatus
    /** `power_configuration_ch`, `identify_ch` and `basic_ch`. */
    var slots: Slots
    var entityBuffer: EntityBuffer
    /** The events handed to `zha_send_event`, oldest first. */
    var sentEvents: seq<Payload>

    constructor (ieee: string, isCoordinator: bool, status: DeviceStatus, buffer: EntityBuffer)
      ensures this.ieee == ieee && this.isCoordinator == isCoordinator && this.status == status
      ensures slots == Slots(None, None, None)
      ensures entityBuffer == buffer && sentEvents == []
    {
      this.ieee := ieee;
      this.isCoordinator := isCoordinator;
      this.status := status;
      slots := Slots(None, None, None);
      entityBuffer := buffer;
      sentEvents := [];
    }

    /** `zha_send_event`: the device broadcasts the payload; the model records it. */
    method ZhaSendEvent(payload: Payload)
      modifies this`sentEvents
      ensures sentEvents == old(sentEvents) + [payload]
    {
      sentEvents := sentEvents + [payload];
    }
  }

  class Endpoint {
    const zigpyEndpoint: ZigpyEndpoint
    const device: Device
    const uniqueId: string
    /** All server handlers, one per input cluster. */
    var allClusterHandlers: HandlerTable
    /** The handlers higher layers claimed. */
    var claimedClusterHandlers: HandlerTable
    /** Client handlers for output clusters with a registered client class. */
    var clientClusterHandlers: HandlerTable

    ghost predicate Valid()
      reads this
    {
      && zigpyEndpoint.WellFormed()
      && Keyed(allClusterHandlers) && Keyed(claimedClusterHandlers) && Keyed(clientClusterHandlers)
      && (forall id | id in allClusterHandlers :: !allClusterHandlers[id].isClient)
      && (forall id | id in clientClusterHandlers :: clientClusterHandlers[id].isClient)
    }

    /** `Endpoint.__init__`: empty handler tables and the unique id `"<ieee>-<endpoint id>"`. */
    constructor (zigpyEndpoint: ZigpyEndpoint, device: Device)
      requires zigpyEndpoint.WellFormed()
      ensures Valid()
      ensures this.zigpyEndpoint == zigpyEndpoint && this.device == device
      ensures uniqueId == UniqueId(device.ieee, zigpyEndpoint.endpointId)
      ensures allClusterHandlers == map[] && claimedClusterHandlers == map[] && clientClusterHandlers == map[]
    {
      this.zigpyEndpoint := zigpyEndpoint;
      this.device := device;
      uniqueId := UniqueId(device.ieee, zigpyEndpoint.endpointId);
      allClusterHandlers, claimedClusterHandlers, clientClusterHandlers := map[], map[], map[];
    }

    /**
     * `Endpoint.new`: build the endpoint, create its server and client
     * handlers, and, unless the device is the coordinator, let entity
     * discovery claim handlers (`discover` stands for the probe and
     * returns the handlers it claims).
     */
    static method New(zigpyEndpoint: ZigpyEndpoint, device: Device, reg: Registries,
                      discover: (HandlerTable, HandlerTable) -> seq<ClusterHandler>) returns (e: Endpoint)
      requires zigpyEndpoint.WellFormed()
      modifies device`slots
      ensures fresh(e) && e.Valid() && e.zigpyEndpoint == zigpyEndpoint && e.device == device
      ensures e.uniqueId == UniqueId(device.ieee, zigpyEndpoint.endpointId)
      ensures e.allClusterHandlers == ServerTable(reg, e.uniqueId, e.zigpyEndpoint.inClusters, e.zigpyEndpoint.inClusters.Keys)
      ensures e.clientClusterHandlers == ClientTable(reg, e.uniqueId, e.zigpyEndpoint.outClusters, reg.client.Keys)
      ensures device.isCoordinator ==> e.claimedClusterHandlers == map[]
      ensures !device.isCoordinator ==>
        e.claimedClusterHandlers == ClaimInto(map[], discover(e.allClusterHandlers, e.clientClusterHandlers))
      ensures SlotsAfter(old(device.slots), device.slots, e.allClusterHandlers)
    {
      e := new Endpoint(zigpyEndpoint, device);
      e.AddAllClusterHandlers(reg);
      UnionWithEmpty(ServerTable(reg, e.uniqueId, e.zigpyEndpoint.inClusters, e.zigpyEndpoint.inClusters.Keys));
      e.AddClientClusterHandlers(reg);
      UnionWithEmpty(ClientTable(reg, e.uniqueId, e.zigpyEndpoint.outClusters, reg.client.Keys));
      if !device.isCoordinator {
        e.ClaimClusterHandlers(discover(e.allClusterHandlers, e.clientClusterHandlers));
      }
    }

    /**
     * `add_all_cluster_handlers`: one server handler per input cluster,
     * filed under its id; the device's power configuration, identify and
     * basic slots take a new handler with the matching name.
     */
    method AddAllClusterHandlers(reg: Registries)
      requires Valid()
      modifies this`allClusterHandlers, device`slots
      ensures Valid()
      ensures allClusterHandlers
        == old(allClusterHandlers) + ServerTable(reg, uniqueId, zigpyEndpoint.inClusters, zigpyEndpoint.inClusters.Keys)
      ensures SlotsAfter(old(device.slots), device.slots,
                         ServerTable(reg, uniqueId, zigpyEndpoint.inClusters, zigpyEndpoint.inClusters.Keys))
    {
      var inClusters := zigpyEndpoint.inClusters;
      ghost var start := allClusterHandlers;
      ghost var before := device.slots;
      var rest := inClusters.Keys;
      while rest != {}
        invariant rest <= inClusters.Keys
        invariant Valid()
        invariant allClusterHandlers == start + ServerTable(reg, uniqueId, inClusters, inClusters.Keys - rest)
        invariant SlotsAfter(before, device.slots, ServerTable(reg, uniqueId, inClusters, inClusters.Keys - rest))
        decreases rest
      {
        var clusterId :| clusterId in rest;
        ghost var done := inClusters.Keys - rest;
        ghost var slots := device.slots;
        var handler := AddServerHandler(reg, clusterId);
        ServerLoopStep(reg, uniqueId, inClusters, start, done, clusterId, handler, before, slots);
        VisitOne(inClusters.Keys, rest, clusterId);
        rest := rest - {clusterId};
      }
      assert inClusters.Keys - rest == inClusters.Keys;
    }

    /**
     * One pass of the loop of `add_all_cluster_handlers`: choose the class,
     * build the handler, fill the device slot its name selects, and file it
     * under its id.
     */
    method AddServerHandler(reg: Registries, clusterId: nat) returns (handler: ClusterHandler)
      requires Valid() && clusterId in zigpyEndpoint.inClusters
      modifies this`allClusterHandlers, device`slots
      ensures Valid()
      ensures handler == ServerHandler(reg, uniqueId, clusterId, zigpyEndpoint.inClusters[clusterId])
      ensures handler.id == HandlerId(uniqueId, clusterId)
      ensures allClusterHandlers == old(allClusterHandlers)[handler.id := handler]
      ensures device.slots == Assign(old(device.slots), handler)
    {
      var cluster := zigpyEndpoint.inClusters[clusterId];
      var handlerClass := if clusterId in reg.server then reg.server[clusterId] else GenericClusterHandler;
      if !reg.matches(handlerClass, cluster) {
        handlerClass := GenericClusterHandler;
      }
      if IsXiaomiDoorLock(clusterId, cluster) {
        handlerClass := MultistateInput;
      }
      handler := NewHandler(reg, uniqueId, handlerClass, cluster, false);
      if handler.name == CLUSTER_HANDLER_POWER_CONFIGURATION {
        device.slots := device.slots.(power := Some(handler));
      } else if handler.name == CLUSTER_HANDLER_IDENTIFY {
        device.slots := device.slots.(identify := Some(handler));
      } else if handler.name == CLUSTER_HANDLER_BASIC {
        device.slots := device.slots.(basic := Some(handler));
      }
      allClusterHandlers := allClusterHandlers[handler.id := handler];
    }

    /**
     * `add_client_cluster_handlers`: a client handler for each id of the
     * client registry that is also an output cluster, filed under its id.
     */
    method AddClientClusterHandlers(reg: Registries)
      requires Valid()
      modifies this`clientClusterHandlers
      ensures Valid()
      ensures clientClusterHandlers
        == old(clientClusterHandlers) + ClientTable(reg, uniqueId, zigpyEndpoint.outClusters, reg.client.Keys)
    {
      var outClusters := zigpyEndpoint.outClusters;
      ghost var start := clientClusterHandlers;
      var rest := reg.client.Keys;
      while rest != {}
        invariant rest <= reg.client.Keys
        invariant Valid()
        invariant clientClusterHandlers == start + ClientTable(reg, uniqueId, outClusters, reg.client.Keys - rest)
        decreases rest
      {
        var clusterId :| clusterId in rest;
        var handlerClass := reg.client[clusterId];
        ghost var done := reg.client.Keys - rest;
        ClientLoopStep(reg, uniqueId, outClusters, start, done, clusterId);
        if clusterId in outClusters {
          var handler := NewHandler(reg, uniqueId, handlerClass, outClusters[clusterId], true);
          assert handler.id == HandlerId(uniqueId, clusterId);
          clientClusterHandlers := clientClusterHandlers[handler.id := handler];
        }
        VisitOne(reg.client.Keys, rest, clusterId);
        rest := rest - {clusterId};
      }
      assert reg.client.Keys - rest == reg.client.Keys;
    }

    /** `claim_cluster_handlers`: merge the handlers into the claimed table under their ids. */
    method ClaimClusterHandlers(handlers: seq<ClusterHandler>)
      requires Valid()
      modifies this`claimedClusterHandlers
      ensures Valid()
      ensures claimedClusterHandlers == ClaimInto(old(claimedClusterHandlers), handlers)
      ensures allClusterHandlers == old(allClusterHandlers) && clientClusterHandlers == old(clientClusterHandlers)
    {
      claimedClusterHandlers := ClaimInto(claimedClusterHandlers, handlers);
    }

    /** `unclaimed_cluster_handlers`: each server handler whose id was not claimed, once, in no promised order. */
    method UnclaimedClusterHandlers() returns (r: seq<ClusterHandler>)
      requires Valid()
      ensures Lists(r, allClusterHandlers, allClusterHandlers.Keys - claimedClusterHandlers.Keys)
    {
      r := ListTable(allClusterHandlers, allClusterHandlers.Keys - claimedClusterHandlers.Keys);
    }

    /**
     * `_execute_handler_tasks`: run `stage` on the claimed handlers and
     * then the client handlers (`run` stands for each handler's stage
     * call), and log one outcome per handler: a warning with the failure
     * text when the call raised an `Exception`, a debug note otherwise.
     * It never fails as a whole.
     */
    method ExecuteHandlerTasks(stage: Stage, run: (ClusterHandler, Stage) -> StageResult) returns (log: seq<LogEntry>)
      requires Valid()
      ensures StageLog(log, claimedClusterHandlers, clientClusterHandlers, stage, run)
    {
      var claimedList := ListTable(claimedClusterHandlers, claimedClusterHandlers.Keys);
      var clientList := ListTable(clientClusterHandlers, clientClusterHandlers.Keys);
      var handlers := claimedList + clientList;
      log := RunStage(handlers, stage, run);
      assert LoggedHandlers(log) == handlers;
      assert handlers[..|claimedList|] == claimedList;
      assert handlers[|claimedList|..] == clientList;
    }

    /** `async_initialize`: the initialize stage over claimed and client handlers. */
    method AsyncInitialize(fromCache: bool, run: (ClusterHandler, Stage) -> StageResult) returns (log: seq<LogEntry>)
      requires Valid()
      ensures StageLog(log, claimedClusterHandlers, clientClusterHandlers, Initialize(fromCache), run)
    {
      log := ExecuteHandlerTasks(Initialize(fromCache), run);
    }

    /** `async_configure`: the configure stage over claimed and client handlers. */
    method AsyncConfigure(run: (ClusterHandler, Stage) -> StageResult) returns (log: seq<LogEntry>)
      requires Valid()
      ensures StageLog(log, claimedClusterHandlers, clientClusterHandlers, Configure, run)
    {
      log := ExecuteHandlerTasks(Configure, run);
    }

    /**
     * `async_new_entity`: once the device is initialized nothing changes;
     * otherwise one record is appended to the platform's list, and a
     * platform without a list is a `KeyError` (`ok` false) that leaves the
     * buffer as it was.
     */
    method AsyncNewEntity(platform: Platform, entityClass: string, uniqueId: string, handlers: seq<ClusterHandler>)
      returns (ok: bool)
      modifies device`entityBuffer
      ensures var r := BufferEntity(old(device.entityBuffer), device.status, platform,
                                    EntityRecord(entityClass, uniqueId, device, handlers));
        && ok == r.Some?
        && device.entityBuffer == if ok then r.value else old(device.entityBuffer)
    {
      if device.status == Initialized {
        return true;
      }
      if platform !in device.entityBuffer {
        return false;
      }
      device.entityBuffer := device.entityBuffer[platform :=
        device.entityBuffer[platform] + [EntityRecord(entityClass, uniqueId, device, handlers)]];
      ok := true;
    }

    /** `send_event`: the caller's payload plus the endpoint's unique id and id, to the device. */
    method SendEvent(signal: Payload)
      modifies device`sentEvents
      ensures device.sentEvents == old(device.sentEvents) + [EventPayload(uniqueId, zigpyEndpoint.endpointId, signal)]
    {
      device.ZhaSendEvent(EventPayload(uniqueId, zigpyEndpoint.endpointId, signal));
    }
  }
}
