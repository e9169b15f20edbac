# ZHA endpoint model

A Dafny model of the `Endpoint` class of Home Assistant's ZHA (Zigbee Home
Automation) integration, `homeassistant/components/zha/core/endpoint.py`.
One endpoint of a Zigbee device does several jobs:

- It creates a server cluster handler for each input cluster. The handler
  class comes from a registry, a `matches` filter, or the Xiaomi Door Lock
  override.
- It fills the device's power-configuration, identify and basic handler
  slots.
- It creates client handlers for the output clusters that have a
  registered client class.
- It records which handlers higher layers claim, and lists the handlers
  nobody claimed.
- It runs the initialize and configure lifecycle stages over the claimed
  and client handlers. Each handler gets exactly one logged outcome.
- It computes its Zigbee signature.
- It buffers entity requests until the device is initialized.
- It sends events that carry its unique id.

Files and modules:

- `types.dfy` (`ZigbeeTypes`): clusters, zigpy endpoints, handler classes
  and ids, handlers, registries, stages and log entries.
- `formatting.dfy` (`Formatting`): decimal rendering and the `0x%04x`
  rendering, each proved against a digit parser (round trip).
- `signature.dfy` (`Signature`): ascending order of cluster ids and the
  signature itself.
- `handler_tables.dfy` (`HandlerTables`): handler-class choice, the server
  and client tables as values, claim merging and table listing.
- `endpoint.dfy` (`ZhaEndpoint`): the `Device` part the endpoint touches
  and the `Endpoint` class. Its three tables are fields that the methods
  update in place.

External code becomes parameters of the model:

- The registries, the `matches` predicate and handler naming are a
  `Registries` value.
- Entity discovery is the `discover` parameter of `New`. It returns the
  handlers the probe claims.
- A handler's stage call is the `run` parameter. It returns normally or
  raises.

## Model

| member | source | states |
|---|---|---|
| ZhaEndpoint.Endpoint.constructor | homeassistant/components/zha/core/endpoint.py:36-45 | the three handler tables start empty; the unique id is the IEEE address, a dash and the endpoint id |
| ZhaEndpoint.UniqueId | homeassistant/components/zha/core/endpoint.py:45 | the unique id starts with the IEEE address and a dash, and the rest is canonical decimal (digits only, no leading zero) that parses back to the endpoint id |
| ZhaEndpoint.UniqueIdInjective | homeassistant/components/zha/core/endpoint.py:45 | two endpoints of one device with equal unique ids have equal endpoint ids |
| Signature.Signature | homeassistant/components/zha/core/endpoint.py:83-103 | first component is the endpoint id; profile and device type are `""` exactly when absent, otherwise `0x` and minimally zero-padded hex digits (exactly four below 0x10000) that parse back to the value; every list entry below 0x10000 has exactly four digits; the input and output lists have one entry per cluster, in strictly ascending order, and denote exactly the endpoint's cluster ids |
| Signature.SortedIds | homeassistant/components/zha/core/endpoint.py:94-101 | the sorted ids are strictly ascending, have the set's size, and contain exactly the set's members |
| Signature.SortedRendering | homeassistant/components/zha/core/endpoint.py:94-101 | rendering the sorted ids keeps their number, and every entry is well formed and parses back to the id at its position |
| Signature.SignatureExample | homeassistant/components/zha/core/endpoint.py:83-103 | profile 0x0104, device type 0x0051, inputs {0x0000, 0x0012} and output {0x0019} give `(1, "0x0104", "0x0051", ["0x0000", "0x0012"], ["0x0019"])` |
| Formatting.Hex04 | homeassistant/components/zha/core/endpoint.py:88-101 | `0x` then lower-case hex digits, padded to four and no further (no leading zero beyond four digits); exactly four digits below 0x10000; the digits parse back to the number |
| Formatting.Hex04Unique | homeassistant/components/zha/core/endpoint.py:88-101 | any well-formed `0x` string whose digits parse to n is exactly the rendering of n, so the rendering is pinned by its value |
| Formatting.DigitsOfValue | homeassistant/components/zha/core/endpoint.py:88-101 | parsing a canonical digit string (no leading zero) and rendering the value again gives back the same string |
| Formatting.ValueOfDigits | homeassistant/components/zha/core/endpoint.py:88-101 | the digits of a number in any base from 2 to 16 parse back to the number |
| Formatting.LeadingZerosIgnored | homeassistant/components/zha/core/endpoint.py:88-101 | zero padding does not change the value a digit string denotes |
| Formatting.Decimal | homeassistant/components/zha/core/endpoint.py:45 | the decimal rendering is canonical (decimal digits only, no leading zero unless it is "0") and parses back to the number |
| Formatting.DecimalUnique | homeassistant/components/zha/core/endpoint.py:45 | a canonical decimal string that parses to n is exactly the rendering of n |
| HandlerTables.ServerHandlerClass | homeassistant/components/zha/core/endpoint.py:118-139 | the Xiaomi Door Lock gets `MultistateInput` whatever came before; otherwise the registry class if the id is registered and the class matches the cluster; else the generic class |
| HandlerTables.ServerTableShape | homeassistant/components/zha/core/endpoint.py:117-147 | the server table has exactly one handler per input cluster, filed under its own id, never a client handler, built from that cluster with the chosen class |
| HandlerTables.ClientTableShape | homeassistant/components/zha/core/endpoint.py:149-158 | the client table has exactly one client handler per id that is both a client-registry key and an output cluster, and none for any other id |
| HandlerTables.SlotStep | homeassistant/components/zha/core/endpoint.py:141-146 | after one more handler, a device slot holds a handler of the table with the slot's name when there is one, and is untouched otherwise |
| HandlerTables.ServerLoopStep | homeassistant/components/zha/core/endpoint.py:117-147 | one pass of the server loop extends the server table by one cluster and keeps the three slot facts |
| HandlerTables.ClientLoopStep | homeassistant/components/zha/core/endpoint.py:151-158 | one pass of the client loop files a handler exactly when the registry id is an output cluster |
| ZhaEndpoint.Endpoint.AddServerHandler | homeassistant/components/zha/core/endpoint.py:117-147 | the handler built for one input cluster is the one the class choice gives; the slot its name selects takes it, the others are untouched, and it is filed under its id |
| ZhaEndpoint.Endpoint.AddAllClusterHandlers | homeassistant/components/zha/core/endpoint.py:115-147 | the all-handlers table gains exactly the server table, and each of the three slots holds a handler of it with the slot's name when there is one, and is untouched otherwise; no other state changes |
| ZhaEndpoint.Endpoint.AddClientClusterHandlers | homeassistant/components/zha/core/endpoint.py:149-158 | the client table gains exactly the client table of the registry and the output clusters; nothing else changes |
| ZhaEndpoint.Endpoint.New | homeassistant/components/zha/core/endpoint.py:105-113 | a fresh endpoint with the full server and client tables; a coordinator claims nothing, and any other device claims what discovery returns |
| HandlerTables.IdTable | homeassistant/components/zha/core/endpoint.py:218 | the table's keys are exactly the list's ids; every value is a handler of the list under its own id, and the last handler with a given id wins |
| HandlerTables.ClaimInto | homeassistant/components/zha/core/endpoint.py:216-218 | after a claim the keys are the old keys plus the handlers' ids; old entries not passed in are kept; the last handler with an id wins; id-keying is preserved |
| HandlerTables.ClaimFilesEveryHandler | homeassistant/components/zha/core/endpoint.py:216-218 | when handlers that share an id are equal, every given handler is in the claimed table under its own id |
| HandlerTables.ClaimIdempotent | homeassistant/components/zha/core/endpoint.py:216-218 | claiming the same handlers twice gives the same table as claiming them once |
| HandlerTables.UnclaimedAfterClaim | homeassistant/components/zha/core/endpoint.py:216-227 | after a claim the unclaimed ids are the earlier unclaimed ids minus the claimed handlers' ids |
| ZhaEndpoint.Endpoint.ClaimClusterHandlers | homeassistant/components/zha/core/endpoint.py:216-218 | the claimed table becomes the merge of the old one with the handlers; the all and client tables are unchanged |
| HandlerTables.ListTable | homeassistant/components/zha/core/endpoint.py:220-227 | lists each handler a table files under the given ids exactly once, in no promised order |
| HandlerTables.ListingStep | homeassistant/components/zha/core/endpoint.py:224-227 | adding the handler for one more id keeps a partial listing complete for the ids visited and free of repeats |
| ZhaEndpoint.Endpoint.UnclaimedClusterHandlers | homeassistant/components/zha/core/endpoint.py:220-227 | returns exactly the server handlers whose ids are not claimed, each once, each as filed in the all-handlers table |
| ZhaEndpoint.Report | homeassistant/components/zha/core/endpoint.py:176-182 | a handler's outcome is a warning carrying the failure text exactly when its stage call raised an `Exception`, and a debug note otherwise |
| ZhaEndpoint.RunStage | homeassistant/components/zha/core/endpoint.py:174-182 | one report per handler, in handler order, each for that handler's own result; a raising handler does not stop the rest |
| ZhaEndpoint.Endpoint.ExecuteHandlerTasks | homeassistant/components/zha/core/endpoint.py:168-182 | the log covers the claimed handlers (each once), then the client handlers (each once); each entry is the report of that handler's own result; an unclaimed server handler is never run; the stage returns normally |
| ZhaEndpoint.Endpoint.AsyncInitialize | homeassistant/components/zha/core/endpoint.py:160-162 | the initialize stage: the log lists the claimed handlers (each once), then the client handlers (each once), each entry is the initialize-stage report of that handler's own result, and only claimed or client handlers run |
| ZhaEndpoint.Endpoint.AsyncConfigure | homeassistant/components/zha/core/endpoint.py:164-166 | the configure stage: the log lists the claimed handlers (each once), then the client handlers (each once), each entry is the configure-stage report of that handler's own result, and only claimed or client handlers run |
| ZhaEndpoint.BufferEntity | homeassistant/components/zha/core/endpoint.py:194-199 | once the device is initialized the buffer is unchanged; otherwise exactly one record is appended to the platform's list, all other platforms are kept, and a platform without a list is an error |
| ZhaEndpoint.Endpoint.AsyncNewEntity | homeassistant/components/zha/core/endpoint.py:184-199 | the device buffer becomes what `BufferEntity` gives, and is left as it was on the error |
| ZhaEndpoint.EventPayload | homeassistant/components/zha/core/endpoint.py:208-214 | the payload has the caller's keys plus `unique_id` and `endpoint_id`; every caller key keeps the caller's value; the endpoint's values are used only where the caller has no such key |
| ZhaEndpoint.Endpoint.SendEvent | homeassistant/components/zha/core/endpoint.py:206-214 | the device is sent exactly one event, the payload above |

## Left out

- Concurrency: the `asyncio.gather` fan-out is a sequential pass over the handlers. Interleaving, suspension, cancellation and timeouts are not modelled.
- Logging: `_LOGGER.info` on handler creation is dropped. Per-handler warnings and debug notes are returned as a log sequence, not emitted.
- `async_send_signal` is a pass-through to the dispatcher with no logic of its own, and is not modelled.
- Entity discovery (`discovery.PROBE.discover_entities`) is the `discover` parameter, which returns the handlers the probe claims. The entity requests the probe makes during `new` are not replayed. `AsyncNewEntity` models them one at a time.
- `discovery.py`, `registries.py`, `const.py`, `device.py` and `cluster_handlers/` are not part of this model. Other consequences:
  - Registry contents are parameters.
  - The constants (handler names `power`, `identify`, `basic`; event keys `unique_id`, `endpoint_id`; Door Lock cluster id `0x0101`) are restated.
  - `Device` keeps only the fields the endpoint reads or writes.
- `HandlerTables.NewHandler`: a handler's `id` is modelled as the injective pair (endpoint unique id, cluster id), not the string the handler constructor forms.
- `HandlerTables.NewHandler`: a handler's `name` is an opaque function of its class and cluster.
- `HandlerTables.ServerHandlerClass`: `matches` receives the cluster only. The endpoint argument the source also passes is fixed per model instance, inside the `Registries` value.
- Dict iteration order is not modelled:
  - The loops over registries and cluster maps visit keys in an unspecified order.
  - `UnclaimedClusterHandlers` and the stage's handler list promise membership and multiplicity, not order.
  - With several handlers of one name, which one ends up in a device slot depends on that order; `AddAllClusterHandlers` promises only that it holds one of them.
- `hass.data` as a global store: the per-platform entity buffer is a field of `Device`. A missing platform key (a `KeyError` in the source) is the `false` result of `AsyncNewEntity`.
- The `assert ... is not None` checks of `__init__` are carried by Dafny's non-null types.
- The read-only property getters (`device`, `all_cluster_handlers`, `id`, `unique_id` and the others) are the fields themselves.
- Exceptions raised by a stage call are classified only as `Exception` or not. A `BaseException` outside `Exception` is treated as the source treats it: logged as a success. The exception object and its traceback are reduced to a text.
- `homeassistant/components/rituals_perfume_genie/select.py` is entity glue over an external library, with no logic of its own to model.
