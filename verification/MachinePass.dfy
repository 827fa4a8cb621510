/** One pass of the OCIMachine controller: `reconcileNormal` and `reconcileDelete`, as the code runs them
    and as functions of the stored machine, the cloud and the cloud's answers. */
module MachinePass {
  import opened Optional
  import opened CloudCall
  import ClusterSaga

  /** The lifecycle states of a compute instance.  `left` is how long a termination takes; no pass reads it. */
  datatype Life =
    | Provisioning | Starting | Running | Stopping | Stopped | Moving | CreatingImage
    | Terminating(left: nat) | Terminated

  /** Which instance the machine's InstanceId names: none yet, the one launched for it, or another one. */
  datatype InstanceId = NoId | OwnId | ForeignId

  datatype Machine = Machine(
    deleting: bool,
    finalizer: bool,
    id: InstanceId,
    providerId: bool,
    address: bool,
    ready: bool,
    failed: bool)

  datatype Config = Config(
    controlPlane: bool,
    loadBalancerType: string,
    blockVolume: bool,
    vnics: bool,
    deleteOnTermination: bool)

  /** `own` carries the tags of this cluster, `foreign` does not; `attached` says that some volume attachment,
      of the machine's own volume or another, is listed for the instance. */
  datatype Cloud = Cloud(
    own: Option<Life>,
    foreign: Option<Life>,
    lbPresent: bool,
    backend: bool,
    volume: bool,
    attached: bool)

  datatype Answers = Answers(
    bootstrapReady: bool,
    lookupOk: bool,
    launch: Call,
    createVolume: Call,
    attachOk: bool,
    ipOk: bool,
    lbReadOk: bool,
    addBackend: Call,
    vnicsOk: bool,
    deleteMachineOk: bool,
    removeBackend: Call,
    terminate: Call,
    terminationTime: nat,
    deleteVolume: Call)

  datatype Event =
    | BackendAdded(deleting: bool)
    | TerminateIssued(owned: bool, backend: bool)
    | VolumeDeleteIssued(seen: Option<Life>)

  datatype Result = Error | RequeueAfter(seconds: nat)

  datatype Work = Work(m: Machine, c: Cloud, events: seq<Event>, result: Result)

  /** The instance a machine leads to: by InstanceId if recorded, else by name among the owned ones. */
  function Seen(m: Machine, c: Cloud): Option<Life> {
    if m.id.ForeignId? then c.foreign else c.own
  }

  /** The ownership test on the tags of the instance seen. */
  predicate Owned(m: Machine) {
    !m.id.ForeignId?
  }

  // ---- reconcileNormal -------------------------------------------------------------------------

  datatype Lookup = Lookup(c: Cloud, life: Option<Life>)

  function EnsureVolume(cfg: Config, c: Cloud, life: Life, x: Answers): Lookup {
    if !cfg.blockVolume then Lookup(c, Some(life))
    else
      var c' := c.(volume := c.volume || Happens(x.createVolume));
      if x.createVolume.Done? && x.attachOk then Lookup(c'.(attached := true), Some(life)) else Lookup(c', None)
  }

  function GetOrCreateMachine(cfg: Config, m: Machine, c: Cloud, x: Answers): Lookup {
    if !x.lookupOk then Lookup(c, None)
    else if Seen(m, c).Some? then EnsureVolume(cfg, c, Seen(m, c).value, x)
    else if !m.id.NoId? then Lookup(c, None)
    else
      var c' := if Happens(x.launch) then c.(own := Some(Provisioning)) else c;
      if x.launch.Done? then EnsureVolume(cfg, c', Provisioning, x) else Lookup(c', None)
  }

  function AddBackend(cfg: Config, c: Cloud, x: Answers): Cloud {
    if cfg.controlPlane && x.lbReadOk && c.lbPresent && Happens(x.addBackend) then c.(backend := true) else c
  }

  predicate AddBackendOk(cfg: Config, c: Cloud, x: Answers) {
    !cfg.controlPlane || (x.lbReadOk && c.lbPresent && (c.backend || x.addBackend.Done?))
  }

  function AttachPass(cfg: Config, m: Machine, c: Cloud, x: Answers): Work {
    var c' := AddBackend(cfg, c, x);
    var events := if c'.backend && !c.backend then [BackendAdded(m.deleting)] else [];
    if !AddBackendOk(cfg, c, x) || (cfg.vnics && !x.vnicsOk) then Work(m, c', events, Error)
    else Work(m.(ready := true), c', events, RequeueAfter(if cfg.deleteOnTermination then 300 else 0))
  }

  function RunningPass(cfg: Config, m: Machine, c: Cloud, x: Answers): Work {
    if !m.address && !x.ipOk then Work(m, c, [], Error) else AttachPass(cfg, m.(address := true), c, x)
  }

  function NotRunningPass(cfg: Config, m: Machine, c: Cloud, life: Life, x: Answers): Work {
    match life
    case Provisioning => Work(m, c, [], RequeueAfter(10))
    case Starting => Work(m, c, [], RequeueAfter(10))
    case Stopping => Work(m.(ready := false), c, [], RequeueAfter(0))
    case Stopped => Work(m.(ready := false), c, [], RequeueAfter(0))
    case Moving => Work(m.(ready := false), c, [], RequeueAfter(0))
    case Terminated =>
      if cfg.deleteOnTermination && !x.deleteMachineOk then Work(m, c, [], Error)
      else Work(m.(ready := false, failed := true), c, [], Error)
    case _ => Work(m.(ready := false, failed := true), c, [], Error)
  }

  /** The machine with its finalizer, and with the instance found for it recorded. */
  function Named(m: Machine): Machine {
    m.(finalizer := true, id := if m.id.NoId? then OwnId else m.id, providerId := true)
  }

  function NormalPass(cfg: Config, m: Machine, c: Cloud, x: Answers): Work {
    var marked := m.(finalizer := true);
    if !x.bootstrapReady then Work(marked, c, [], RequeueAfter(0))
    else
      var l := GetOrCreateMachine(cfg, marked, c, x);
      if l.life.None? then Work(marked, l.c, [], Error)
      else
        if l.life.value.Running? then RunningPass(cfg, Named(m), l.c, x)
        else NotRunningPass(cfg, Named(m), l.c, l.life.value, x)
  }

  // ---- reconcileDelete -------------------------------------------------------------------------

  /** A load balancer of type LB names its backend by address, so without one nothing is looked for. */
  predicate BackendSkipped(cfg: Config, m: Machine) {
    cfg.loadBalancerType == ClusterSaga.LOAD_BALANCER_TYPE_LB && !m.address
  }

  function RemoveBackend(cfg: Config, m: Machine, c: Cloud, x: Answers): Cloud {
    if cfg.controlPlane && c.lbPresent && x.lbReadOk && !BackendSkipped(cfg, m) && Happens(x.removeBackend)
    then c.(backend := false) else c
  }

  predicate RemoveBackendOk(cfg: Config, m: Machine, c: Cloud, x: Answers) {
    || !cfg.controlPlane
    || !c.lbPresent
    || (x.lbReadOk && (BackendSkipped(cfg, m) || !c.backend || x.removeBackend.Done?))
  }

  function FinishDelete(cfg: Config, m: Machine, c: Cloud, x: Answers, seen: Option<Life>): Work {
    if !cfg.blockVolume then Work(m.(finalizer := false), c, [], RequeueAfter(0))
    else
      var c' := if Happens(x.deleteVolume) then c.(volume := false) else c;
      var events := [VolumeDeleteIssued(seen)];
      if x.deleteVolume.Done? then Work(m.(finalizer := false), c', events, RequeueAfter(0))
      else Work(m, c', events, RequeueAfter(5))
  }

  function MissingPass(cfg: Config, m: Machine, c: Cloud, x: Answers): Work {
    if m.id.NoId? then Work(m.(finalizer := false), c, [], RequeueAfter(0))
    else if !RemoveBackendOk(cfg, m, c, x) then Work(m, RemoveBackend(cfg, m, c, x), [], Error)
    else FinishDelete(cfg, m, RemoveBackend(cfg, m, c, x), x, Seen(m, c))
  }

  /** Before it terminates, the pass looks for the machine's volume among the attachments, and fails if there are
      attachments but no such volume. */
  predicate VolumeLost(cfg: Config, c: Cloud) {
    cfg.blockVolume && c.attached && !c.volume
  }

  function TerminatePass(cfg: Config, m: Machine, c: Cloud, x: Answers): Work {
    var c' := RemoveBackend(cfg, m, c, x);
    if !Owned(m) then Work(m, c, [], Error)
    else if !RemoveBackendOk(cfg, m, c, x) || VolumeLost(cfg, c) then Work(m, c', [], Error)
    else
      var c'' := if Happens(x.terminate) then c'.(own := Some(Terminating(x.terminationTime))) else c';
      Work(m, c'', [TerminateIssued(Owned(m), c'.backend)], if x.terminate.Done? then RequeueAfter(30) else Error)
  }

  function DeletePass(cfg: Config, m: Machine, c: Cloud, x: Answers): Work {
    if !x.lookupOk then Work(m, c, [], Error)
    else match Seen(m, c)
      case None => MissingPass(cfg, m, c, x)
      case Some(Terminating(_)) => Work(m, c, [], RequeueAfter(30))
      case Some(Terminated) => FinishDelete(cfg, m, c, x, Seen(m, c))
      case Some(_) =>
        TerminatePass(cfg, m, c, x)
  }

  function Pass(cfg: Config, m: Machine, c: Cloud, x: Answers): Work {
    if m.deleting then DeletePass(cfg, m, c, x) else NormalPass(cfg, m, c, x)
  }

  // ---- The passes as the controller writes them --------------------------------------------------

  class MachineReconciler {
    const cfg: Config
    var m: Machine
    var cloud: Cloud
    ghost var events: seq<Event>

    constructor (cfg: Config, m: Machine, c: Cloud)
      ensures this.cfg == cfg && this.m == m && cloud == c && events == []
    {
      this.cfg, this.m, cloud, events := cfg, m, c, [];
    }

    ghost predicate Gives(work: Work, result: Result) reads this {
      m == work.m && cloud == work.c && events == work.events && result == work.result
    }

    method LookUp(x: Answers) returns (life: Option<Life>)
      ensures life == Seen(m, cloud)
    {
      match m.id {
        case ForeignId => life := cloud.foreign;
        case _ => life := cloud.own;
      }
    }

    method ReconcileVolume(x: Answers) returns (ok: bool)
      modifies this`cloud
      ensures forall life ::
        EnsureVolume(cfg, old(cloud), life, x) == Lookup(cloud, if ok then Some(life) else None)
    {
      if cfg.blockVolume {
        if Happens(x.createVolume) {
          cloud := cloud.(volume := true);
        }
        if !x.createVolume.Done? || !x.attachOk {
          return false;
        }
        cloud := cloud.(attached := true);
      }
      return true;
    }

    method FindOrLaunch(x: Answers) returns (life: Option<Life>)
      modifies this`cloud
      ensures var l := GetOrCreateMachine(cfg, old(m), old(cloud), x); cloud == l.c && life == l.life
    {
      if !x.lookupOk {
        return None;
      }
      life := LookUp(x);
      if life.Some? {
        var ok := ReconcileVolume(x);
        if !ok {
          return None;
        }
        return;
      }
      if m.id != NoId {
        return None;
      }
      if Happens(x.launch) {
        cloud := cloud.(own := Some(Provisioning));
      }
      if !x.launch.Done? {
        return None;
      }
      var ok := ReconcileVolume(x);
      life := if ok then Some(Provisioning) else None;
    }

    method CreateInstanceOnLb(x: Answers) returns (ok: bool)
      requires cfg.controlPlane && events == []
      modifies this`cloud, this`events
      ensures cloud == AddBackend(cfg, old(cloud), x) && ok == AddBackendOk(cfg, old(cloud), x)
      ensures events == if cloud.backend && !old(cloud).backend then [BackendAdded(m.deleting)] else []
    {
      if !x.lbReadOk || !cloud.lbPresent {
        return false;
      }
      if cloud.backend {
        return true;
      }
      if Happens(x.addBackend) {
        cloud := cloud.(backend := true);
        events := [BackendAdded(m.deleting)];
      }
      return x.addBackend.Done?;
    }

    method ReconcileAttachments(x: Answers) returns (result: Result)
      requires events == []
      modifies this
      ensures Gives(AttachPass(cfg, old(m), old(cloud), x), result)
    {
      if cfg.controlPlane {
        var ok := CreateInstanceOnLb(x);
        if !ok {
          return Error;
        }
      }
      if cfg.vnics && !x.vnicsOk {
        return Error;
      }
      m := m.(ready := true);
      result := RequeueAfter(if cfg.deleteOnTermination then 300 else 0);
    }

    method ReconcileRunning(x: Answers) returns (result: Result)
      requires events == []
      modifies this
      ensures Gives(RunningPass(cfg, old(m), old(cloud), x), result)
    {
      if !m.address {
        if !x.ipOk {
          return Error;
        }
        m := m.(address := true);
      }
      result := ReconcileAttachments(x);
    }

    method ReconcileNotRunning(life: Life, x: Answers) returns (result: Result)
      requires events == []
      modifies this`m
      ensures Gives(NotRunningPass(cfg, old(m), cloud, life, x), result)
    {
      match life {
        case Provisioning =>
          result := RequeueAfter(10);
        case Starting =>
          result := RequeueAfter(10);
        case Stopping =>
          m := m.(ready := false);
          result := RequeueAfter(0);
        case Stopped =>
          m := m.(ready := false);
          result := RequeueAfter(0);
        case Moving =>
          m := m.(ready := false);
          result := RequeueAfter(0);
        case Terminated =>
          if !cfg.deleteOnTermination || x.deleteMachineOk {
            m := m.(ready := false, failed := true);
          }
          result := Error;
        case _ =>
          m := m.(ready := false, failed := true);
          result := Error;
      }
    }

    method ReconcileNormal(x: Answers) returns (result: Result)
      requires events == []
      modifies this
      ensures Gives(NormalPass(cfg, old(m), old(cloud), x), result)
    {
      m := m.(finalizer := true);
      if !x.bootstrapReady {
        return RequeueAfter(0);
      }
      var life := FindOrLaunch(x);
      if life.None? {
        return Error;
      }
      if m.id.NoId? {
        m := m.(id := OwnId);
      }
      m := m.(providerId := true);
      if life.value.Running? {
        result := ReconcileRunning(x);
      } else {
        result := ReconcileNotRunning(life.value, x);
      }
    }

    method DeleteInstanceFromLb(x: Answers) returns (ok: bool)
      modifies this`cloud
      ensures cloud == RemoveBackend(cfg, old(m), old(cloud), x)
      ensures ok == RemoveBackendOk(cfg, old(m), old(cloud), x)
    {
      if !cfg.controlPlane || !cloud.lbPresent {
        return true;
      }
      if !x.lbReadOk {
        return false;
      }
      if cfg.loadBalancerType == ClusterSaga.LOAD_BALANCER_TYPE_LB && !m.address {
        return true;
      }
      if !cloud.backend {
        return true;
      }
      if Happens(x.removeBackend) {
        cloud := cloud.(backend := false);
      }
      return x.removeBackend.Done?;
    }

    method DeleteVolumeAndFinalizer(x: Answers, ghost seen: Option<Life>) returns (result: Result)
      requires events == []
      modifies this
      ensures Gives(FinishDelete(cfg, old(m), old(cloud), x, seen), result)
    {
      if cfg.blockVolume {
        events := [VolumeDeleteIssued(seen)];
        if Happens(x.deleteVolume) {
          cloud := cloud.(volume := false);
        }
        if !x.deleteVolume.Done? {
          return RequeueAfter(5);
        }
      }
      m := m.(finalizer := false);
      return RequeueAfter(0);
    }

    method DeleteMissing(x: Answers) returns (result: Result)
      requires events == []
      modifies this
      ensures Gives(MissingPass(cfg, old(m), old(cloud), x), result)
    {
      if m.id.NoId? {
        m := m.(finalizer := false);
        return RequeueAfter(0);
      }
      ghost var seen := Seen(m, cloud);
      var ok := DeleteInstanceFromLb(x);
      if !ok {
        return Error;
      }
      result := DeleteVolumeAndFinalizer(x, seen);
    }

    method Terminate(x: Answers) returns (result: Result)
      requires events == []
      modifies this`cloud, this`events
      ensures Gives(TerminatePass(cfg, m, old(cloud), x), result)
    {
      if !Owned(m) {
        return Error;
      }
      var ok := DeleteInstanceFromLb(x);
      if !ok || VolumeLost(cfg, cloud) {
        return Error;
      }
      events := [TerminateIssued(Owned(m), cloud.backend)];
      if Happens(x.terminate) {
        cloud := cloud.(own := Some(Terminating(x.terminationTime)));
      }
      result := if x.terminate.Done? then RequeueAfter(30) else Error;
    }

    method ReconcileDelete(x: Answers) returns (result: Result)
      requires events == []
      modifies this
      ensures Gives(DeletePass(cfg, old(m), old(cloud), x), result)
    {
      if !x.lookupOk {
        return Error;
      }
      var life := LookUp(x);
      if life.None? {
        result := DeleteMissing(x);
        return;
      }
      match life.value {
        case Terminating(_) =>
          result := RequeueAfter(30);
        case Terminated =>
          result := DeleteVolumeAndFinalizer(x, Seen(m, cloud));
        case _ =>
          result := Terminate(x);
      }
    }
  }
}
