/** One pass of the OCIManagedCluster controller and one of the OCIManagedControlPlane controller.

    Each pass is written twice: as the imperative code the controllers run, and as a function from the
    objects read and the cloud's answers to the object written and the effects left behind. */
module ManagedPasses {
  import opened Optional
  import opened ApiTypes
  import Saga = ClusterSaga

  const UNSET := Endpoint("", 0)
  const API_SERVER_PORT := 6443

  /** The hosts of the two endpoints that an active OKE cluster carries. */
  datatype Hosts = Hosts(publicHost: string, privateHost: string)

  /** The network configuration and the endpoints that OKE hands out, fixed over a run. */
  datatype Config = Config(network: Saga.Config, hosts: Hosts, endpointSubnetPublic: bool)

  function ApiEndpoint(cfg: Config): Endpoint {
    Endpoint(if cfg.endpointSubnetPublic then cfg.hosts.publicHost else cfg.hosts.privateHost, API_SERVER_PORT)
  }

  datatype ManagedCluster = ManagedCluster(deleting: bool, finalizer: bool, ready: bool, endpoint: Endpoint)

  datatype ControlPlane =
    ControlPlane(deleting: bool, finalizer: bool, ready: bool, endpoint: Endpoint, hasId: bool)

  /** `left` is how long the transient states last; no controller reads it. */
  datatype Lifecycle = Creating(left: nat) | Active | Updating(left: nat) | Failed | Deleting(left: nat) | Deleted

  datatype Oke = Absent | Present(state: Lifecycle)

  // ---- Managed cluster -----------------------------------------------------------------------

  datatype ClusterWork =
    ClusterWork(after: ManagedCluster, net: Saga.Cloud, completed: bool, deleteStarted: bool, ok: bool)

  ghost function ClusterReconcile(
    cfg: Config, own: ManagedCluster, cp: Option<ControlPlane>, net: Saga.Cloud, o: seq<Saga.Outcome>): ClusterWork
  {
    var marked := own.(finalizer := true);
    if cp.None? then ClusterWork(marked, net, false, false, false)
    else
      var done := Saga.CreateSucceeds(cfg.network, o);
      var after :=
        if !done then marked
        else if cp.value.ready then marked.(ready := true, endpoint := cp.value.endpoint)
        else marked.(ready := true);
      ClusterWork(after, Saga.AfterCreate(cfg.network, o, net), done, false, done)
  }

  ghost function ClusterDelete(cfg: Config, own: ManagedCluster, net: Saga.Cloud, o: seq<Saga.Outcome>): ClusterWork {
    var done := Saga.DeleteSucceeds(cfg.network, o);
    ClusterWork(own.(finalizer := own.finalizer && !done), Saga.AfterDelete(cfg.network, o, net), false, true, done)
  }

  ghost function ClusterPass(
    cfg: Config, own: ManagedCluster, cp: Option<ControlPlane>, net: Saga.Cloud, o: seq<Saga.Outcome>): ClusterWork
  {
    if own.deleting then ClusterDelete(cfg, own, net, o) else ClusterReconcile(cfg, own, cp, net, o)
  }

  /** The managed cluster of one pass.  `network` carries the ordered steps of the network saga. */
  class ManagedClusterReconciler {
    const cfg: Config
    const deleting: bool
    const network: Saga.ClusterPass
    var finalizer: bool
    var ready: bool
    var endpoint: Endpoint

    constructor (cfg: Config, own: ManagedCluster, network: Saga.ClusterPass)
      ensures this.cfg == cfg && this.network == network && Value() == own
    {
      this.cfg, this.network, deleting := cfg, network, own.deleting;
      finalizer, ready, endpoint := own.finalizer, own.ready, own.endpoint;
    }

    ghost function Value(): ManagedCluster reads this {
      ManagedCluster(deleting, finalizer, ready, endpoint)
    }

    method Reconcile(cp: Option<ControlPlane>, o: seq<Saga.Outcome>) returns (ok: bool)
      requires network.cfg == cfg.network
      modifies this, network
      ensures var work := ClusterReconcile(cfg, old(Value()), cp, old(network.cloud), o);
              Value() == work.after && network.cloud == work.net && ok == work.ok
    {
      finalizer := true;
      if cp.None? {
        return false;
      }
      ok := network.Reconcile(o);
      if !ok {
        return;
      }
      ready := true;
      if cp.value.ready {
        endpoint := cp.value.endpoint;
      }
    }

    method ReconcileDelete(o: seq<Saga.Outcome>) returns (ok: bool)
      requires network.cfg == cfg.network
      modifies this, network
      ensures var work := ClusterDelete(cfg, old(Value()), old(network.cloud), o);
              Value() == work.after && network.cloud == work.net && ok == work.ok
    {
      ok := network.ReconcileDelete(o);
      if ok {
        finalizer := false;
      }
    }
  }

  // ---- Control plane -------------------------------------------------------------------------

  /** How the create call of GetOrCreateControlPlane ends, by how far it got. */
  datatype CreateAnswer =
    | CreateOk(delay: nat)
    | CreateRejected
    | CreatedIdUnknown(delay: nat)
    | CreatedReadFails(delay: nat)

  /** The cloud's answers to one control-plane pass.  `tailOk` covers the kubeconfig, bootstrap secret,
      update and add-on calls that follow publication; `update` is an update started among them. */
  datatype Answers = Answers(
    lookupOk: bool,
    create: CreateAnswer,
    tailOk: bool,
    update: Option<nat>,
    deleteOk: bool,
    deleteEffect: bool,
    deletionTime: nat)

  datatype ControlPlaneWork =
    ControlPlaneWork(after: ControlPlane, oke: Oke, created: bool, published: bool, ok: bool)

  function Observe(cfg: Config, own: ControlPlane, state: Lifecycle, x: Answers): ControlPlaneWork {
    match state
    case Creating(_) => ControlPlaneWork(own, Present(state), false, false, true)
    case Updating(_) => ControlPlaneWork(own, Present(state), false, false, true)
    case Active =>
      var oke := if x.update.Some? then Present(Updating(x.update.value)) else Present(Active);
      ControlPlaneWork(own.(endpoint := ApiEndpoint(cfg), ready := true), oke, false, true, x.tailOk)
    case _ => ControlPlaneWork(own, Present(state), false, false, false)
  }

  datatype Lookup = Lookup(own: ControlPlane, oke: Oke, found: Option<Lifecycle>, created: bool)

  /** A recorded identifier is looked up directly, and a missing cluster is then an error. */
  function GetOrCreate(own: ControlPlane, oke: Oke, x: Answers): Lookup {
    var known := own.(hasId := true);
    if !x.lookupOk then Lookup(own, oke, None, false)
    else if oke.Present? then Lookup(known, oke, Some(oke.state), false)
    else if own.hasId then Lookup(own, oke, None, false)
    else match x.create
      case CreateOk(d) => Lookup(known, Present(Creating(d)), Some(Creating(d)), true)
      case CreateRejected => Lookup(own, Absent, None, false)
      case CreatedIdUnknown(d) => Lookup(own, Present(Creating(d)), None, true)
      case CreatedReadFails(d) => Lookup(known, Present(Creating(d)), None, true)
  }

  function ControlPlaneReconcile(cfg: Config, own: ControlPlane, oke: Oke, x: Answers): ControlPlaneWork {
    var l := GetOrCreate(own.(finalizer := true), oke, x);
    if l.found.None? then ControlPlaneWork(l.own, l.oke, l.created, false, false)
    else Observe(cfg, l.own, l.found.value, x).(created := l.created)
  }

  function ControlPlaneDelete(own: ControlPlane, oke: Oke, x: Answers): ControlPlaneWork {
    if !x.lookupOk then ControlPlaneWork(own, oke, false, false, false)
    else match oke
      case Absent =>
        ControlPlaneWork(own.(finalizer := false, ready := own.ready && !own.hasId), oke, false, false, true)
      case Present(Deleting(_)) => ControlPlaneWork(own.(ready := false), oke, false, false, true)
      case Present(Deleted) => ControlPlaneWork(own.(finalizer := false), oke, false, false, true)
      case Present(_) =>
        var oke' := if x.deleteOk || x.deleteEffect then Present(Deleting(x.deletionTime)) else oke;
        ControlPlaneWork(own, oke', false, false, x.deleteOk)
  }

  /** The gate: without a ready managed cluster the pass ends before it opens its patch. */
  predicate GateOpen(mc: Option<ManagedCluster>) {
    mc.Some? && mc.value.ready
  }

  function ControlPlanePass(
      cfg: Config, own: ControlPlane, mc: Option<ManagedCluster>, oke: Oke, x: Answers): ControlPlaneWork {
    if !GateOpen(mc) then ControlPlaneWork(own, oke, false, false, true)
    else if own.deleting then ControlPlaneDelete(own, oke, x)
    else ControlPlaneReconcile(cfg, own, oke, x)
  }

  class ControlPlaneReconciler {
    const cfg: Config
    const deleting: bool
    var finalizer: bool
    var ready: bool
    var endpoint: Endpoint
    var hasId: bool
    var oke: Oke

    constructor (cfg: Config, own: ControlPlane, oke: Oke)
      ensures this.cfg == cfg && this.oke == oke && Value() == own
    {
      this.cfg, this.oke, deleting := cfg, oke, own.deleting;
      finalizer, ready, endpoint, hasId := own.finalizer, own.ready, own.endpoint, own.hasId;
    }

    ghost function Value(): ControlPlane reads this {
      ControlPlane(deleting, finalizer, ready, endpoint, hasId)
    }

    method GetOrCreateControlPlane(x: Answers) returns (found: Option<Lifecycle>)
      modifies this`hasId, this`oke
      ensures var l := GetOrCreate(old(Value()), old(oke), x);
              Value() == l.own && oke == l.oke && found == l.found
    {
      if !x.lookupOk {
        return None;
      }
      if oke.Present? {
        hasId := true;
        return Some(oke.state);
      }
      if hasId {
        return None;
      }
      match x.create {
        case CreateRejected =>
          return None;
        case CreatedIdUnknown(d) =>
          oke := Present(Creating(d));
          return None;
        case CreatedReadFails(d) =>
          oke := Present(Creating(d));
          hasId := true;
          return None;
        case CreateOk(d) =>
          oke := Present(Creating(d));
          hasId := true;
          return Some(Creating(d));
      }
    }

    method Reconcile(x: Answers) returns (ok: bool)
      modifies this
      ensures var work := ControlPlaneReconcile(cfg, old(Value()), old(oke), x);
              Value() == work.after && oke == work.oke && ok == work.ok
    {
      finalizer := true;
      var found := GetOrCreateControlPlane(x);
      if found.None? {
        return false;
      }
      match found.value {
        case Creating(_) =>
          return true;
        case Updating(_) =>
          return true;
        case Active =>
          if cfg.endpointSubnetPublic {
            endpoint := Endpoint(cfg.hosts.publicHost, 6443);
          } else {
            endpoint := Endpoint(cfg.hosts.privateHost, 6443);
          }
          ready := true;
          if x.update.Some? {
            oke := Present(Updating(x.update.value));
          }
          return x.tailOk;
        case _ =>
          return false;
      }
    }

    method ReconcileDelete(x: Answers) returns (ok: bool)
      modifies this
      ensures var work := ControlPlaneDelete(old(Value()), old(oke), x);
              Value() == work.after && oke == work.oke && ok == work.ok
    {
      if !x.lookupOk {
        return false;
      }
      if oke.Absent? {
        finalizer := false;
        if hasId {
          ready := false;
        }
        return true;
      }
      match oke.state {
        case Deleting(_) =>
          ready := false;
          return true;
        case Deleted =>
          finalizer := false;
          return true;
        case _ =>
          if x.deleteOk || x.deleteEffect {
            oke := Present(Deleting(x.deletionTime));
          }
          return x.deleteOk;
      }
    }
  }
}
