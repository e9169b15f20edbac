/**
 * The handler bookkeeping of a ZHA endpoint as values: which class serves
 * an input cluster, the server and client handler tables the endpoint
 * builds, merging claimed handlers, and listing the handlers of a table.
 */
module HandlerTables {
  import opened ZigbeeTypes

  /** The Xiaomi anomaly: a Door Lock cluster whose `ep_attribute` is "multistate_input". */
  predicate IsXiaomiDoorLock(cid: nat, c: Cluster)
  {
    c.epAttribute.Some? && cid == DOOR_LOCK_CLUSTER_ID && c.epAttribute.value == MULTISTATE_INPUT_ATTRIBUTE
  }

  /**
   * The class `add_all_cluster_handlers` instantiates for input cluster
   * `cid`: the registry's class or the generic one, the generic one when
   * the class's `matches` rejects the cluster, and `MultistateInput` for
   * the Xiaomi Door Lock whatever came before.
   */
  function ServerHandlerClass(reg: Registries, cid: nat, c: Cluster): (cls: HandlerClass)
    ensures IsXiaomiDoorLock(cid, c) ==> cls == MultistateInput
    ensures !IsXiaomiDoorLock(cid, c) && cid in reg.server && reg.matches(reg.server[cid], c)
      ==> cls == reg.server[cid]
    ensures !IsXiaomiDoorLock(cid, c) && (cid !in reg.server || !reg.matches(reg.server[cid], c))
      ==> cls == GenericClusterHandler
  {
    var looked := if cid in reg.server then reg.server[cid] else GenericClusterHandler;
    var filtered := if reg.matches(looked, c) then looked else GenericClusterHandler;
    if IsXiaomiDoorLock(cid, c) then MultistateInput else filtered
  }

  /** The handler a class builds for a cluster of the endpoint `uid`. */
  function NewHandler(reg: Registries, uid: string, cls: HandlerClass, c: Cluster, isClient: bool): ClusterHandler
  {
    ClusterHandler(HandlerId(uid, c.clusterId), cls, c, reg.handlerName(cls, c), isClient)
  }

  function ServerHandler(reg: Registries, uid: string, cid: nat, c: Cluster): ClusterHandler
  {
    NewHandler(reg, uid, ServerHandlerClass(reg, cid, c), c, false)
  }

  /** The server handlers `add_all_cluster_handlers` files for the input clusters whose ids are in `keys`. */
  function ServerTable(reg: Registries, uid: string, inClusters: map<nat, Cluster>, keys: set<nat>): HandlerTable
  {
    map cid | cid in keys && cid in inClusters :: HandlerId(uid, cid) := ServerHandler(reg, uid, cid, inClusters[cid])
  }

  /** The client handlers `add_client_cluster_handlers` files for the registry ids in `keys`. */
  function ClientTable(reg: Registries, uid: string, outClusters: map<nat, Cluster>, keys: set<nat>): HandlerTable
  {
    map cid | cid in keys && cid in reg.client && cid in outClusters
      :: HandlerId(uid, cid) := NewHandler(reg, uid, reg.client[cid], outClusters[cid], true)
  }

  /** Taking one more id out of the ids left to visit adds it to those visited. */
  lemma VisitOne(keys: set<nat>, rest: set<nat>, x: nat)
    requires x in rest && rest <= keys
    ensures keys - (rest - {x}) == (keys - rest) + {x}
  {
  }

  lemma UnionWithEmpty(t: HandlerTable)
    ensures map[] + t == t
  {
  }

  /** The handler ids of the endpoint `uid` for a set of cluster ids. */
  function IdsOf(uid: string, cids: set<nat>): set<HandlerId>
  {
    set cid | cid in cids :: HandlerId(uid, cid)
  }

  lemma {:induction false} IdsOfSize(uid: string, cids: set<nat>)
    ensures |IdsOf(uid, cids)| == |cids|
    decreases cids
  {
    if cids != {} {
      var c :| c in cids;
      IdsOfSize(uid, cids - {c});
      assert IdsOf(uid, cids) == IdsOf(uid, cids - {c}) + {HandlerId(uid, c)};
      assert HandlerId(uid, c) !in IdsOf(uid, cids - {c});
    } else {
      assert IdsOf(uid, cids) == {};
    }
  }

  /**
   * The server table has exactly one handler per input cluster, filed
   * under that handler's own id, built from that cluster with the class
   * `ServerHandlerClass` chooses.
   */
  lemma ServerTableShape(reg: Registries, uid: string, ep: ZigpyEndpoint)
    requires ep.WellFormed()
    ensures var t := ServerTable(reg, uid, ep.inClusters, ep.inClusters.Keys);
      && t.Keys == IdsOf(uid, ep.inClusters.Keys)
      && |t| == |ep.inClusters|
      && Keyed(t)
      && (forall id | id in t :: !t[id].isClient)
      && (forall cid | cid in ep.inClusters ::
            t[HandlerId(uid, cid)].cluster == ep.inClusters[cid]
            && t[HandlerId(uid, cid)].handlerClass == ServerHandlerClass(reg, cid, ep.inClusters[cid]))
  {
    var t := ServerTable(reg, uid, ep.inClusters, ep.inClusters.Keys);
    assert t.Keys == IdsOf(uid, ep.inClusters.Keys);
    IdsOfSize(uid, ep.inClusters.Keys);
  }

  /**
   * The client table has exactly one handler per cluster id that is both a
   * key of the client registry and an output cluster, and no other.
   */
  lemma ClientTableShape(reg: Registries, uid: string, ep: ZigpyEndpoint)
    requires ep.WellFormed()
    ensures var t := ClientTable(reg, uid, ep.outClusters, reg.client.Keys);
      && t.Keys == IdsOf(uid, reg.client.Keys * ep.outClusters.Keys)
      && |t| == |reg.client.Keys * ep.outClusters.Keys|
      && Keyed(t)
      && (forall id | id in t :: t[id].isClient)
      && (forall cid | cid in reg.client && cid in ep.outClusters ::
            t[HandlerId(uid, cid)].cluster == ep.outClusters[cid]
            && t[HandlerId(uid, cid)].handlerClass == reg.client[cid])
  {
    var t := ClientTable(reg, uid, ep.outClusters, reg.client.Keys);
    assert t.Keys == IdsOf(uid, reg.client.Keys * ep.outClusters.Keys);
    IdsOfSize(uid, reg.client.Keys * ep.outClusters.Keys);
  }

  /** Some handler of the table has this `name`. */
  predicate HasNamed(t: HandlerTable, name: string)
  {
    exists id | id in t :: t[id].name == name
  }

  /**
   * A device slot after handlers of table `t` were created: it holds a
   * handler of `t` with the slot's `name` when there is one, and is left
   * as it was otherwise.
   */
  predicate SlotAfter(before: Option<ClusterHandler>, after: Option<ClusterHandler>, t: HandlerTable, name: string)
  {
    if HasNamed(t, name) then after.Some? && after.value.name == name && after.value.id in t && t[after.value.id] == after.value
    else after == before
  }

  /** The device's power configuration, identify and basic handler slots. */
  datatype Slots = Slots(power: Option<ClusterHandler>, identify: Option<ClusterHandler>, basic: Option<ClusterHandler>)

  /** The slot whose name a new handler carries takes it; the other two are kept. */
  function Assign(s: Slots, h: ClusterHandler): (r: Slots)
    ensures r.power == (if h.name == CLUSTER_HANDLER_POWER_CONFIGURATION then Some(h) else s.power)
    ensures r.identify == (if h.name == CLUSTER_HANDLER_IDENTIFY then Some(h) else s.identify)
    ensures r.basic == (if h.name == CLUSTER_HANDLER_BASIC then Some(h) else s.basic)
  {
    var s := if h.name == CLUSTER_HANDLER_POWER_CONFIGURATION then s.(power := Some(h)) else s;
    var s := if h.name == CLUSTER_HANDLER_IDENTIFY then s.(identify := Some(h)) else s;
    if h.name == CLUSTER_HANDLER_BASIC then s.(basic := Some(h)) else s
  }

  /** Each of the three slots is as `SlotAfter` says, for the table `t`. */
  predicate SlotsAfter(before: Slots, after: Slots, t: HandlerTable)
  {
    && SlotAfter(before.power, after.power, t, CLUSTER_HANDLER_POWER_CONFIGURATION)
    && SlotAfter(before.identify, after.identify, t, CLUSTER_HANDLER_IDENTIFY)
    && SlotAfter(before.basic, after.basic, t, CLUSTER_HANDLER_BASIC)
  }

  lemma SlotStep(before: Option<ClusterHandler>, slot: Option<ClusterHandler>, t: HandlerTable,
                 h: ClusterHandler, name: string, slot': Option<ClusterHandler>)
    requires h.id !in t && SlotAfter(before, slot, t, name)
    requires slot' == if h.name == name then Some(h) else slot
    ensures SlotAfter(before, slot', t[h.id := h], name)
  {
    var t' := t[h.id := h];
    if h.name == name {
      assert t'[h.id].name == name;
    } else {
      if HasNamed(t', name) {
        var id :| id in t' && t'[id].name == name;
        assert id in t && t[id].name == name;
      }
      if HasNamed(t, name) {
        var id :| id in t && t[id].name == name;
        assert id in t' && t'[id].name == name;
      }
    }
  }

  /** The three device slots after one more handler `h` was created and assigned as `add_all_cluster_handlers` does. */
  lemma SlotsStep(t: HandlerTable, h: ClusterHandler, before: Slots, slots: Slots)
    requires h.id !in t && SlotsAfter(before, slots, t)
    ensures SlotsAfter(before, Assign(slots, h), t[h.id := h])
  {
    var slots' := Assign(slots, h);
    SlotStep(before.power, slots.power, t, h, CLUSTER_HANDLER_POWER_CONFIGURATION, slots'.power);
    SlotStep(before.identify, slots.identify, t, h, CLUSTER_HANDLER_IDENTIFY, slots'.identify);
    SlotStep(before.basic, slots.basic, t, h, CLUSTER_HANDLER_BASIC, slots'.basic);
  }

  lemma UnionUpdate(a: HandlerTable, b: HandlerTable, id: HandlerId, h: ClusterHandler)
    ensures (a + b)[id := h] == a + b[id := h]
  {
  }

  lemma ServerTableStep(reg: Registries, uid: string, inClusters: map<nat, Cluster>, done: set<nat>, cid: nat)
    requires cid in inClusters && cid !in done
    ensures HandlerId(uid, cid) !in ServerTable(reg, uid, inClusters, done)
    ensures ServerTable(reg, uid, inClusters, done + {cid})
      == ServerTable(reg, uid, inClusters, done)[HandlerId(uid, cid) := ServerHandler(reg, uid, cid, inClusters[cid])]
  {
  }

  lemma ClientTableStep(reg: Registries, uid: string, outClusters: map<nat, Cluster>, done: set<nat>, cid: nat)
    requires cid !in done
    ensures HandlerId(uid, cid) !in ClientTable(reg, uid, outClusters, done)
    ensures cid in reg.client && cid in outClusters ==>
      ClientTable(reg, uid, outClusters, done + {cid})
      == ClientTable(reg, uid, outClusters, done)[HandlerId(uid, cid) := NewHandler(reg, uid, reg.client[cid], outClusters[cid], true)]
    ensures !(cid in reg.client && cid in outClusters) ==>
      ClientTable(reg, uid, outClusters, done + {cid}) == ClientTable(reg, uid, outClusters, done)
  {
  }

  /**
   * One pass of the server loop of `add_all_cluster_handlers`: filing the
   * handler for `cid` and filling the slot its name selects extends the
   * server table from the ids `done` to `done + {cid}`.
   */
  lemma ServerLoopStep(reg: Registries, uid: string, inClusters: map<nat, Cluster>, start: HandlerTable,
                       done: set<nat>, cid: nat, h: ClusterHandler, before: Slots, slots: Slots)
    requires cid in inClusters && cid !in done
    requires h == ServerHandler(reg, uid, cid, inClusters[cid]) && h.id == HandlerId(uid, cid)
    requires SlotsAfter(before, slots, ServerTable(reg, uid, inClusters, done))
    ensures (start + ServerTable(reg, uid, inClusters, done))[h.id := h] == start + ServerTable(reg, uid, inClusters, done + {cid})
    ensures SlotsAfter(before, Assign(slots, h), ServerTable(reg, uid, inClusters, done + {cid}))
  {
    var t := ServerTable(reg, uid, inClusters, done);
    ServerTableStep(reg, uid, inClusters, done, cid);
    SlotsStep(t, h, before, slots);
    UnionUpdate(start, t, h.id, h);
  }

  /**
   * One pass of the loop of `add_client_cluster_handlers`: a handler is
   * filed for `cid` exactly when it is an output cluster.
   */
  lemma ClientLoopStep(reg: Registries, uid: string, outClusters: map<nat, Cluster>, start: HandlerTable,
                       done: set<nat>, cid: nat)
    requires cid in reg.client && cid !in done
    ensures var t, t' := ClientTable(reg, uid, outClusters, done), ClientTable(reg, uid, outClusters, done + {cid});
      if cid in outClusters then
        (start + t)[HandlerId(uid, cid) := NewHandler(reg, uid, reg.client[cid], outClusters[cid], true)] == start + t'
      else start + t == start + t'
  {
    var t := ClientTable(reg, uid, outClusters, done);
    ClientTableStep(reg, uid, outClusters, done, cid);
    if cid in outClusters {
      assert NewHandler(reg, uid, reg.client[cid], outClusters[cid], true).id == HandlerId(uid, outClusters[cid].clusterId);
      UnionUpdate(start, t, HandlerId(uid, cid), NewHandler(reg, uid, reg.client[cid], outClusters[cid], true));
    }
  }

  /** The ids of a list of handlers. */
  function IdsIn(chs: seq<ClusterHandler>): set<HandlerId>
  {
    set i | 0 <= i < |chs| :: chs[i].id
  }

  lemma IdsInSnoc(s: seq<ClusterHandler>, h: ClusterHandler)
    ensures IdsIn(s + [h]) == IdsIn(s) + {h.id}
  {
    var t := s + [h];
    forall id | id in IdsIn(t) ensures id in IdsIn(s) + {h.id} {
      var i :| 0 <= i < |t| && t[i].id == id;
      if i < |s| { assert s[i] == t[i]; }
    }
    forall id | id in IdsIn(s) ensures id in IdsIn(t) {
      var i :| 0 <= i < |s| && s[i].id == id;
      assert t[i] == s[i];
    }
    assert t[|s|] == h;
  }

  /** No later handler of the list has the same id as `chs[i]`. */
  predicate LastWithId(chs: seq<ClusterHandler>, i: nat)
    requires i < |chs|
  {
    forall j | i < j < |chs| :: chs[j].id != chs[i].id
  }

  /** Each handler of the list under its id, the later of two with one id winning. */
  function IdTable(chs: seq<ClusterHandler>): (t: HandlerTable)
    ensures t.Keys == IdsIn(chs)
    ensures Keyed(t)
    ensures forall id | id in t :: t[id] in chs
    ensures forall i | 0 <= i < |chs| && LastWithId(chs, i) :: t[chs[i].id] == chs[i]
  {
    if chs == [] then map[]
    else
      var init := chs[..|chs| - 1];
      var last := chs[|chs| - 1];
      assert chs == init + [last];
      IdsInSnoc(init, last);
      var t := IdTable(init);
      assert forall i | 0 <= i < |chs| - 1 && LastWithId(chs, i) :: LastWithId(init, i);
      t[last.id := last]
  }

  /** The claimed table updated with each handler of the list under its id. */
  function ClaimInto(claimed: HandlerTable, chs: seq<ClusterHandler>): (r: HandlerTable)
    ensures r.Keys == claimed.Keys + IdsIn(chs)
    ensures forall id | id in claimed && id !in IdsIn(chs) :: r[id] == claimed[id]
    ensures forall i | 0 <= i < |chs| && LastWithId(chs, i) :: r[chs[i].id] == chs[i]
    ensures forall id | id in IdsIn(chs) :: r[id] in chs && r[id].id == id
    ensures Keyed(claimed) ==> Keyed(r)
  {
    claimed + IdTable(chs)
  }

  /** Handlers that share an id are the same handler, as handler ids guarantee. */
  predicate ConsistentIds(chs: seq<ClusterHandler>)
  {
    forall i, j | 0 <= i < |chs| && 0 <= j < |chs| && chs[i].id == chs[j].id :: chs[i] == chs[j]
  }

  /** After a claim every given handler is in the claimed table under its own id. */
  lemma ClaimFilesEveryHandler(claimed: HandlerTable, chs: seq<ClusterHandler>)
    requires ConsistentIds(chs)
    ensures forall i | 0 <= i < |chs| ::
              chs[i].id in ClaimInto(claimed, chs) && ClaimInto(claimed, chs)[chs[i].id] == chs[i]
  {
    var r := ClaimInto(claimed, chs);
    forall i | 0 <= i < |chs| ensures chs[i].id in r && r[chs[i].id] == chs[i] {
      assert chs[i].id in IdsIn(chs);
      var k :| 0 <= k < |chs| && chs[k] == r[chs[i].id];
    }
  }

  /** Claiming the same handlers again leaves the claimed table as it is. */
  lemma ClaimIdempotent(claimed: HandlerTable, chs: seq<ClusterHandler>)
    ensures ClaimInto(ClaimInto(claimed, chs), chs) == ClaimInto(claimed, chs)
  {
  }

  /** After a claim the unclaimed ids are those unclaimed before, less the ids just claimed. */
  lemma UnclaimedAfterClaim(all: HandlerTable, claimed: HandlerTable, chs: seq<ClusterHandler>)
    ensures all.Keys - ClaimInto(claimed, chs).Keys == (all.Keys - claimed.Keys) - IdsIn(chs)
  {
  }

  /** `s` lists the handlers that `t` files under `keys`, each exactly once. */
  predicate Lists(s: seq<ClusterHandler>, t: HandlerTable, keys: set<HandlerId>)
  {
    && |s| == |keys|
    && IdsIn(s) == keys
    && (forall i | 0 <= i < |s| :: s[i].id in t && t[s[i].id] == s[i])
    && (forall i, j | 0 <= i < j < |s| :: s[i].id != s[j].id)
  }

  /** A prefix of a listing of `keys`: the handlers for the keys outside `rest`, each once. */
  predicate PartialListing(s: seq<ClusterHandler>, t: HandlerTable, keys: set<HandlerId>, rest: set<HandlerId>)
  {
    && rest <= keys
    && IdsIn(s) == keys - rest
    && (forall i | 0 <= i < |s| :: s[i].id in t && t[s[i].id] == s[i])
    && (forall i, j | 0 <= i < j < |s| :: s[i].id != s[j].id)
    && |s| + |rest| == |keys|
  }

  lemma ListingStep(s: seq<ClusterHandler>, t: HandlerTable, keys: set<HandlerId>, rest: set<HandlerId>, k: HandlerId)
    requires Keyed(t) && keys <= t.Keys && k in rest
    requires PartialListing(s, t, keys, rest)
    ensures PartialListing(s + [t[k]], t, keys, rest - {k})
  {
    var h := t[k];
    assert h.id == k && k !in IdsIn(s);
    IdsInSnoc(s, h);
    forall i | 0 <= i < |s| ensures s[i].id != k {
      assert s[i].id in IdsIn(s);
    }
    var s' := s + [h];
    forall i, j | 0 <= i < j < |s'| ensures s'[i].id != s'[j].id {
      if j < |s| { assert s'[i] == s[i] && s'[j] == s[j]; }
    }
  }

  /**
   * The handlers of `t` filed under `keys`, each once, in an order the
   * caller must not rely on (Python's set and dict iteration order).
   */
  method ListTable(t: HandlerTable, keys: set<HandlerId>) returns (s: seq<ClusterHandler>)
    requires Keyed(t) && keys <= t.Keys
    ensures Lists(s, t, keys)
  {
    s := [];
    var rest := keys;
    assert IdsIn(s) == {};
    while rest != {}
      invariant PartialListing(s, t, keys, rest)
      decreases rest
    {
      var k :| k in rest;
      ListingStep(s, t, keys, rest, k);
      s := s + [t[k]];
      rest := rest - {k};
    }
  }
}
