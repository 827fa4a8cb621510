/** The two managed controllers running side by side.

    A pass reads any version of either object that was ever stored, works on the cloud, and later patches
    the object then stored.  A patch writes only the fields in which the pass left its copy different from
    the version it had read, so passes over old versions are merged, not replayed.  Between the work and
    the patch of a pass anything else may happen, and a patch may be lost. */
module ManagedProtocol {
  import opened Optional
  import opened ApiTypes
  import opened ManagedPasses
  import Saga = ClusterSaga

  datatype Event =
    | NetworkCompleted
    | NetworkDeleteStarted
    | OkeCreated(net: Saga.Cloud)
    | EndpointPublished(hosts: Hosts, observed: Oke)

  datatype ClusterRun = ClusterIdle | ClusterRunning(own: ManagedCluster, after: ManagedCluster)
  datatype ControlPlaneRun = ControlPlaneIdle | ControlPlaneRunning(own: ControlPlane, after: ControlPlane)

  /** All stored versions of both objects, oldest first, and what exists in the cloud. */
  datatype World = World(
    mcs: seq<ManagedCluster>,
    cps: seq<ControlPlane>,
    mcGone: bool,
    cpGone: bool,
    oke: Oke,
    net: Saga.Cloud,
    mcRun: ClusterRun,
    cpRun: ControlPlaneRun,
    log: seq<Event>)

  const INIT := World(
    [ManagedCluster(false, false, false, UNSET)], [ControlPlane(false, false, false, UNSET, false)],
    false, false, Absent, Saga.Cloud({}, {}), ClusterIdle, ControlPlaneIdle, [])

  /** A pass begins on versions given by index; a missing index is an object that could not be read. */
  datatype Action =
    | ClusterWorks(own: nat, cp: Option<nat>, o: seq<Saga.Outcome>)
    | ClusterPatches(patchOk: bool)
    | ControlPlaneWorks(own: nat, mc: Option<nat>, x: Answers)
    | ControlPlanePatches(patchOk: bool)
    | OkeMoves(to: Oke)
    | DeleteManagedCluster
    | DeleteControlPlane

  function Last<T>(s: seq<T>): T
    requires s != []
  {
    s[|s| - 1]
  }

  function Read<T>(versions: seq<T>, i: Option<nat>): Option<T> {
    if i.Some? && i.value < |versions| then Some(versions[i.value]) else None
  }

  function Merged<T(==)>(read: T, after: T, stored: T): T {
    if after == read then stored else after
  }

  function MergeCluster(own: ManagedCluster, after: ManagedCluster, stored: ManagedCluster): ManagedCluster {
    ManagedCluster(
      stored.deleting,
      Merged(own.finalizer, after.finalizer, stored.finalizer),
      Merged(own.ready, after.ready, stored.ready),
      Merged(own.endpoint, after.endpoint, stored.endpoint))
  }

  function MergeControlPlane(own: ControlPlane, after: ControlPlane, stored: ControlPlane): ControlPlane {
    ControlPlane(
      stored.deleting,
      Merged(own.finalizer, after.finalizer, stored.finalizer),
      Merged(own.ready, after.ready, stored.ready),
      Merged(own.endpoint, after.endpoint, stored.endpoint),
      Merged(own.hasId, after.hasId, stored.hasId))
  }

  ghost function ClusterEvents(work: ClusterWork): seq<Event> {
    (if work.deleteStarted then [NetworkDeleteStarted] else []) + (if work.completed then [NetworkCompleted] else [])
  }

  function ControlPlaneEvents(cfg: Config, work: ControlPlaneWork, oke: Oke, net: Saga.Cloud): seq<Event> {
    (if work.created then [OkeCreated(net)] else [])
    + (if work.published then [EndpointPublished(cfg.hosts, oke)] else [])
  }

  function StoreCluster(w: World, m: ManagedCluster): World {
    w.(mcs := w.mcs + [m], mcGone := w.mcGone || (m.deleting && !m.finalizer))
  }

  function StoreControlPlane(w: World, c: ControlPlane): World {
    w.(cps := w.cps + [c], cpGone := w.cpGone || (c.deleting && !c.finalizer))
  }

  ghost function Step(cfg: Config, w: World, a: Action): (next: World)
    requires w.mcs != [] && w.cps != []
    ensures next.mcs != [] && next.cps != []
  {
    match a
    case ClusterWorks(i, cp, o) =>
      if !w.mcRun.ClusterIdle? || i >= |w.mcs| then w
      else
        var work := ClusterPass(cfg, w.mcs[i], Read(w.cps, cp), w.net, o);
        w.(net := work.net, mcRun := ClusterRunning(w.mcs[i], work.after), log := w.log + ClusterEvents(work))
    case ClusterPatches(patchOk) =>
      if w.mcRun.ClusterIdle? then w
      else
        var idle := w.(mcRun := ClusterIdle);
        if patchOk && !w.mcGone
        then StoreCluster(idle, MergeCluster(w.mcRun.own, w.mcRun.after, Last(w.mcs))) else idle
    case ControlPlaneWorks(i, mc, x) =>
      if !w.cpRun.ControlPlaneIdle? || i >= |w.cps| then w
      else
        var work := ControlPlanePass(cfg, w.cps[i], Read(w.mcs, mc), w.oke, x);
        w.(oke := work.oke,
           cpRun := ControlPlaneRunning(w.cps[i], work.after),
           log := w.log + ControlPlaneEvents(cfg, work, w.oke, w.net))
    case ControlPlanePatches(patchOk) =>
      if w.cpRun.ControlPlaneIdle? then w
      else
        var idle := w.(cpRun := ControlPlaneIdle);
        if patchOk && !w.cpGone
        then StoreControlPlane(idle, MergeControlPlane(w.cpRun.own, w.cpRun.after, Last(w.cps))) else idle
    case OkeMoves(to) => if w.oke.Absent? then w else w.(oke := to)
    case DeleteManagedCluster => if w.mcGone then w else StoreCluster(w, Last(w.mcs).(deleting := true))
    case DeleteControlPlane => if w.cpGone then w else StoreControlPlane(w, Last(w.cps).(deleting := true))
  }

  ghost function Exec(cfg: Config, w: World, run: seq<Action>): (end: World)
    requires w.mcs != [] && w.cps != []
    ensures end.mcs != [] && end.cps != []
    decreases |run|
  {
    if run == [] then w else Exec(cfg, Step(cfg, w, run[0]), run[1..])
  }

  // ---- What every step keeps -------------------------------------------------------------------

  predicate Published(cfg: Config, log: seq<Event>) {
    EndpointPublished(cfg.hosts, Present(Active)) in log
  }

  predicate EndpointOk(cfg: Config, log: seq<Event>, e: Endpoint) {
    e == UNSET || (e == ApiEndpoint(cfg) && Published(cfg, log))
  }

  predicate ClusterOk(cfg: Config, log: seq<Event>, m: ManagedCluster) {
    (m.ready ==> NetworkCompleted in log) && EndpointOk(cfg, log, m.endpoint)
  }

  predicate ControlPlaneOk(cfg: Config, log: seq<Event>, c: ControlPlane) {
    EndpointOk(cfg, log, c.endpoint) && (c.ready ==> c.endpoint == ApiEndpoint(cfg))
  }

  /** Later versions keep what earlier ones had: cluster readiness and published endpoints. */
  predicate Lasting(cfg: Config, w: World) {
    && (forall i, j :: 0 <= i <= j < |w.mcs| && w.mcs[i].ready ==> w.mcs[j].ready)
    && (forall i, j :: 0 <= i <= j < |w.mcs| && w.mcs[i].endpoint != UNSET ==> w.mcs[j].endpoint == w.mcs[i].endpoint)
    && (forall i, j :: 0 <= i <= j < |w.cps| && w.cps[i].endpoint != UNSET ==> w.cps[j].endpoint == w.cps[i].endpoint)
  }

  predicate ClusterRunOk(cfg: Config, w: World) {
    w.mcRun.ClusterRunning? ==>
      && w.mcRun.own in w.mcs
      && ClusterOk(cfg, w.log, w.mcRun.after)
      && (w.mcRun.own.ready ==> w.mcRun.after.ready)
      && (w.mcRun.own.endpoint != UNSET ==> w.mcRun.after.endpoint == w.mcRun.own.endpoint)
  }

  predicate ControlPlaneRunOk(cfg: Config, w: World) {
    w.cpRun.ControlPlaneRunning? ==>
      && w.cpRun.own in w.cps
      && ControlPlaneOk(cfg, w.log, w.cpRun.after)
      && (w.cpRun.own.endpoint != UNSET ==> w.cpRun.after.endpoint == w.cpRun.own.endpoint)
  }

  /** OKE clusters are created after a completed network pass, onto a complete network if none of it has
      been deleted by then; endpoints are published off an active cluster.  `log` is what came before. */
  predicate EventOk(cfg: Config, log: seq<Event>, e: Event) {
    && (e.OkeCreated? ==> NetworkCompleted in log)
    && (e.OkeCreated? && NetworkDeleteStarted !in log ==> Saga.Managed(cfg.network) <= e.net.full)
    && (e.EndpointPublished? ==> e == EndpointPublished(cfg.hosts, Present(Active)))
  }

  predicate LogOk(cfg: Config, log: seq<Event>) {
    forall i :: 0 <= i < |log| ==> EventOk(cfg, log[..i], log[i])
  }

  predicate NetworkOk(cfg: Config, w: World) {
    NetworkCompleted in w.log && NetworkDeleteStarted !in w.log ==> Saga.Managed(cfg.network) <= w.net.full
  }

  predicate Inv(cfg: Config, w: World) {
    && w.mcs != [] && w.cps != []
    && (forall m :: m in w.mcs ==> ClusterOk(cfg, w.log, m))
    && (forall c :: c in w.cps ==> ControlPlaneOk(cfg, w.log, c))
    && Lasting(cfg, w)
    && ClusterRunOk(cfg, w)
    && ControlPlaneRunOk(cfg, w)
    && LogOk(cfg, w.log)
    && NetworkOk(cfg, w)
  }

  lemma LogGrows(cfg: Config, log: seq<Event>, more: seq<Event>)
    ensures forall m :: ClusterOk(cfg, log, m) ==> ClusterOk(cfg, log + more, m)
    ensures forall c :: ControlPlaneOk(cfg, log, c) ==> ControlPlaneOk(cfg, log + more, c)
  {
  }

  lemma LogSnoc(cfg: Config, log: seq<Event>, e: Event)
    requires LogOk(cfg, log) && EventOk(cfg, log, e)
    ensures LogOk(cfg, log + [e])
  {
    forall i | 0 <= i < |log| ensures (log + [e])[..i] == log[..i] {}
    assert (log + [e])[..|log|] == log;
  }

  lemma ClusterPassOk(
      cfg: Config, log: seq<Event>, own: ManagedCluster, cp: Option<ControlPlane>, net: Saga.Cloud,
      o: seq<Saga.Outcome>)
    requires ClusterOk(cfg, log, own) && (cp.Some? ==> ControlPlaneOk(cfg, log, cp.value))
    ensures var work := ClusterPass(cfg, own, cp, net, o);
            && ClusterOk(cfg, log + ClusterEvents(work), work.after)
            && (own.ready ==> work.after.ready)
            && (own.endpoint != UNSET ==> work.after.endpoint == own.endpoint)
            && (work.completed ==> Saga.Managed(cfg.network) <= work.net.full)
            && (!work.deleteStarted ==> net.full <= work.net.full)
  {
  }

  lemma ClusterLogOk(cfg: Config, log: seq<Event>, work: ClusterWork)
    requires LogOk(cfg, log)
    ensures LogOk(cfg, log + ClusterEvents(work))
  {
    var first := if work.deleteStarted then [NetworkDeleteStarted] else [];
    if work.deleteStarted { LogSnoc(cfg, log, NetworkDeleteStarted); }
    assert LogOk(cfg, log + first) by { assert !work.deleteStarted ==> log + first == log; }
    if work.completed {
      LogSnoc(cfg, log + first, NetworkCompleted);
      assert (log + first) + [NetworkCompleted] == log + ClusterEvents(work);
    } else {
      assert log + first == log + ClusterEvents(work);
    }
  }

  lemma ClusterWorksKeeps(cfg: Config, w: World, a: Action)
    requires Inv(cfg, w) && a.ClusterWorks?
    ensures Inv(cfg, Step(cfg, w, a))
  {
    if w.mcRun.ClusterIdle? && a.own < |w.mcs| {
      var cp := Read(w.cps, a.cp);
      var work := ClusterPass(cfg, w.mcs[a.own], cp, w.net, a.o);
      var more := ClusterEvents(work);
      ClusterPassOk(cfg, w.log, w.mcs[a.own], cp, w.net, a.o);
      ClusterLogOk(cfg, w.log, work);
      LogGrows(cfg, w.log, more);
      assert forall e :: e in w.log + more <==> e in w.log || e in more;
    }
  }

  lemma ControlPlanePassOk(cfg: Config, w: World, own: ControlPlane, mc: Option<ManagedCluster>, x: Answers)
    requires Inv(cfg, w) && own in w.cps && (mc.Some? ==> mc.value in w.mcs)
    ensures var work := ControlPlanePass(cfg, own, mc, w.oke, x);
            var log := w.log + ControlPlaneEvents(cfg, work, w.oke, w.net);
            && LogOk(cfg, log)
            && ControlPlaneOk(cfg, log, work.after)
            && (own.endpoint != UNSET ==> work.after.endpoint == own.endpoint)
  {
    var work := ControlPlanePass(cfg, own, mc, w.oke, x);
    var more := ControlPlaneEvents(cfg, work, w.oke, w.net);
    LogGrows(cfg, w.log, more);
    assert !(work.created && work.published);
    if work.created {
      LogSnoc(cfg, w.log, OkeCreated(w.net));
      assert more == [OkeCreated(w.net)];
    } else if work.published {
      LogSnoc(cfg, w.log, EndpointPublished(cfg.hosts, w.oke));
      assert more == [EndpointPublished(cfg.hosts, Present(Active))];
    } else {
      assert w.log + more == w.log;
    }
  }

  lemma ControlPlaneWorksKeeps(cfg: Config, w: World, a: Action)
    requires Inv(cfg, w) && a.ControlPlaneWorks?
    ensures Inv(cfg, Step(cfg, w, a))
  {
    if w.cpRun.ControlPlaneIdle? && a.own < |w.cps| {
      var mc := Read(w.mcs, a.mc);
      var work := ControlPlanePass(cfg, w.cps[a.own], mc, w.oke, a.x);
      var more := ControlPlaneEvents(cfg, work, w.oke, w.net);
      ControlPlanePassOk(cfg, w, w.cps[a.own], mc, a.x);
      LogGrows(cfg, w.log, more);
      assert forall e :: e in w.log + more <==> e in w.log || e in more;
    }
  }

  /** Merging a pass over an old version into the stored one loses neither readiness nor the endpoint. */
  lemma StoreClusterKeeps(cfg: Config, w: World, m: ManagedCluster)
    requires Inv(cfg, w) && ClusterOk(cfg, w.log, m)
    requires Last(w.mcs).ready ==> m.ready
    requires Last(w.mcs).endpoint != UNSET ==> m.endpoint == Last(w.mcs).endpoint
    ensures Inv(cfg, StoreCluster(w, m))
  {
    var v := StoreCluster(w, m);
    forall i, j | 0 <= i <= j < |v.mcs|
      ensures v.mcs[i].ready ==> v.mcs[j].ready
      ensures v.mcs[i].endpoint != UNSET ==> v.mcs[j].endpoint == v.mcs[i].endpoint
    {
      assert i < |w.mcs| ==> i <= |w.mcs| - 1;
    }
    assert Lasting(cfg, v);
  }

  lemma StoreControlPlaneKeeps(cfg: Config, w: World, c: ControlPlane)
    requires Inv(cfg, w) && ControlPlaneOk(cfg, w.log, c)
    requires Last(w.cps).endpoint != UNSET ==> c.endpoint == Last(w.cps).endpoint
    ensures Inv(cfg, StoreControlPlane(w, c))
  {
  }

  lemma ClusterPatchesKeeps(cfg: Config, w: World, a: Action)
    requires Inv(cfg, w) && a.ClusterPatches?
    ensures Inv(cfg, Step(cfg, w, a))
  {
    if w.mcRun.ClusterRunning? && a.patchOk && !w.mcGone {
      var own, after, stored := w.mcRun.own, w.mcRun.after, Last(w.mcs);
      var i :| 0 <= i < |w.mcs| && w.mcs[i] == own;
      assert own.endpoint != UNSET ==> stored.endpoint == own.endpoint;
      assert stored in w.mcs;
      StoreClusterKeeps(cfg, w.(mcRun := ClusterIdle), MergeCluster(own, after, stored));
    }
  }

  lemma ControlPlanePatchesKeeps(cfg: Config, w: World, a: Action)
    requires Inv(cfg, w) && a.ControlPlanePatches?
    ensures Inv(cfg, Step(cfg, w, a))
  {
    if w.cpRun.ControlPlaneRunning? && a.patchOk && !w.cpGone {
      var own, after, stored := w.cpRun.own, w.cpRun.after, Last(w.cps);
      var i :| 0 <= i < |w.cps| && w.cps[i] == own;
      assert own.endpoint != UNSET ==> stored.endpoint == own.endpoint;
      assert stored in w.cps;
      StoreControlPlaneKeeps(cfg, w.(cpRun := ControlPlaneIdle), MergeControlPlane(own, after, stored));
    }
  }

  lemma StepKeeps(cfg: Config, w: World, a: Action)
    requires Inv(cfg, w)
    ensures Inv(cfg, Step(cfg, w, a))
  {
    match a
    case ClusterWorks(_, _, _) => ClusterWorksKeeps(cfg, w, a);
    case ClusterPatches(_) => ClusterPatchesKeeps(cfg, w, a);
    case ControlPlaneWorks(_, _, _) => ControlPlaneWorksKeeps(cfg, w, a);
    case ControlPlanePatches(_) => ControlPlanePatchesKeeps(cfg, w, a);
    case OkeMoves(_) =>
    case DeleteManagedCluster =>
      assert Last(w.mcs) in w.mcs;
      StoreClusterKeeps(cfg, w, Last(w.mcs).(deleting := true));
    case DeleteControlPlane =>
      assert Last(w.cps) in w.cps;
      StoreControlPlaneKeeps(cfg, w, Last(w.cps).(deleting := true));
  }

  lemma {:induction false} ExecKeeps(cfg: Config, w: World, run: seq<Action>)
    requires Inv(cfg, w)
    ensures Inv(cfg, Exec(cfg, w, run))
    decreases |run|
  {
    if run != [] {
      StepKeeps(cfg, w, run[0]);
      ExecKeeps(cfg, Step(cfg, w, run[0]), run[1..]);
    }
  }

  // ---- Safety over every run -------------------------------------------------------------------

  lemma InitOk(cfg: Config)
    ensures Inv(cfg, INIT)
  {
  }

  /** However the passes interleave and however old the versions they read, the controller creates an OKE
      cluster only after some pass completed every network step; and if no delete pass has started by then,
      the whole managed network exists at that moment. */
  lemma Causality(cfg: Config, run: seq<Action>, i: nat)
    requires var log := Exec(cfg, INIT, run).log; i < |log| && log[i].OkeCreated?
    ensures var log := Exec(cfg, INIT, run).log;
            && NetworkCompleted in log[..i]
            && (NetworkDeleteStarted !in log[..i] ==> Saga.Managed(cfg.network) <= log[i].net.full)
  {
    InitOk(cfg);
    ExecKeeps(cfg, INIT, run);
    var log := Exec(cfg, INIT, run).log;
    assert EventOk(cfg, log[..i], log[i]);
  }

  /** Causality rests on this: no later version of the managed cluster loses its readiness. */
  lemma ReadinessLasts(cfg: Config, run: seq<Action>, i: nat, j: nat)
    requires i <= j < |Exec(cfg, INIT, run).mcs| && Exec(cfg, INIT, run).mcs[i].ready
    ensures Exec(cfg, INIT, run).mcs[j].ready && NetworkCompleted in Exec(cfg, INIT, run).log
  {
    InitOk(cfg);
    ExecKeeps(cfg, INIT, run);
    var w := Exec(cfg, INIT, run);
    assert w.mcs[i] in w.mcs;
  }

  /** The endpoint is one that the control plane saw on an active OKE cluster, on the API server's port, and the
      public one exactly if the endpoint subnet is public. */
  predicate Observed(cfg: Config, log: seq<Event>, e: Endpoint) {
    && e.port == 6443
    && exists i :: 0 <= i < |log| && log[i].EndpointPublished? && log[i].observed == Present(Active) &&
         e.host == if cfg.endpointSubnetPublic then log[i].hosts.publicHost else log[i].hosts.privateHost
  }

  lemma EndpointObserved(cfg: Config, log: seq<Event>)
    requires Published(cfg, log)
    ensures Observed(cfg, log, ApiEndpoint(cfg))
  {
    var i :| 0 <= i < |log| && log[i] == EndpointPublished(cfg.hosts, Present(Active));
  }

  /** Every version of the managed cluster ever stored carries no endpoint or one observed on an active OKE cluster;
      a ready control plane already carries one; neither loses or changes it, and the two agree. */
  lemma EndpointAgreement(cfg: Config, run: seq<Action>)
    ensures var w := Exec(cfg, INIT, run);
            && (forall m :: m in w.mcs ==> m.endpoint == UNSET || Observed(cfg, w.log, m.endpoint))
            && (forall c :: c in w.cps && c.ready ==> Observed(cfg, w.log, c.endpoint))
            && (forall m, c :: m in w.mcs && c in w.cps && m.endpoint != UNSET && c.ready ==> m.endpoint == c.endpoint)
            && (forall i, j :: 0 <= i <= j < |w.mcs| && w.mcs[i].endpoint != UNSET ==>
                  w.mcs[j].endpoint == w.mcs[i].endpoint)
            && (forall i, j :: 0 <= i <= j < |w.cps| && w.cps[i].endpoint != UNSET ==>
                  w.cps[j].endpoint == w.cps[i].endpoint)
  {
    InitOk(cfg);
    ExecKeeps(cfg, INIT, run);
    var w := Exec(cfg, INIT, run);
    if Published(cfg, w.log) {
      EndpointObserved(cfg, w.log);
    }
    assert forall m :: m in w.mcs ==> ClusterOk(cfg, w.log, m);
    assert forall c :: c in w.cps ==> ControlPlaneOk(cfg, w.log, c);
  }

  const SET_UP := ManagedCluster(false, true, true, UNSET)

  lemma SetUp(cfg: Config) returns (run: seq<Action>)
    ensures var w := Exec(cfg, INIT, run);
            w == INIT.(mcs := [INIT.mcs[0], SET_UP], net := w.net, log := [NetworkCompleted])
  {
    run := [ClusterWorks(0, Some(0), []), ClusterPatches(true)];
    ExecTwo(cfg, INIT, run[0], run[1]);
    Saga.CreateStopIs(cfg.network, [], Saga.CREATE_STEPS);
  }

  lemma TearDown(cfg: Config, w: World) returns (run: seq<Action>)
    requires w == INIT.(mcs := [INIT.mcs[0], SET_UP], net := w.net, log := [NetworkCompleted])
    ensures var v := Exec(cfg, w, run);
            && |v.mcs| == 3 && v.mcs[1].ready && v.cps == w.cps && v.oke.Absent? && v.cpRun.ControlPlaneIdle?
            && v.log == [NetworkCompleted, NetworkDeleteStarted]
            && v.net.some * Saga.Managed(cfg.network) == {}
  {
    run := [DeleteManagedCluster, ClusterWorks(2, Some(0), [])];
    ExecTwo(cfg, w, run[0], run[1]);
    Saga.DeleteStopIs(cfg.network, [], Saga.DELETE_STEPS);
    assert forall r :: r in Saga.Managed(cfg.network) ==> Saga.DeleteRank(r) < Saga.DELETE_STEPS;
  }

  /** The delete clause of Causality is needed: readiness outlives the network, so a control-plane pass can
      create an OKE cluster after the managed cluster has taken its network down. */
  lemma CreateAfterTeardown(cfg: Config)
    ensures exists run, i ::
      var log := Exec(cfg, INIT, run).log;
      && 0 <= i < |log| && log[i].OkeCreated? && NetworkDeleteStarted in log[..i]
      && log[i].net.some * Saga.Managed(cfg.network) == {}
  {
    var up := SetUp(cfg);
    var w := Exec(cfg, INIT, up);
    var down := TearDown(cfg, w);
    var v := Exec(cfg, w, down);
    var create := ControlPlaneWorks(0, Some(1), NoErrors(0));
    var end := Exec(cfg, INIT, up + (down + [create]));
    assert end == Step(cfg, v, create) by {
      ExecConcat(cfg, INIT, up, down + [create]);
      ExecConcat(cfg, w, down, [create]);
      ExecTwo(cfg, v, create, create);
    }
    assert end.log == v.log + [OkeCreated(v.net)];
    assert end.log[..2] == v.log && end.log[2].OkeCreated?;
  }

  lemma ExecTwo(cfg: Config, w: World, a: Action, b: Action)
    requires w.mcs != [] && w.cps != []
    ensures Exec(cfg, w, [b]) == Step(cfg, w, b)
    ensures Exec(cfg, w, [a, b]) == Step(cfg, Step(cfg, w, a), b)
  {
    var v := Step(cfg, w, a);
    assert [a, b][1..] == [b] && [b][1..] == [];
    assert Exec(cfg, v, [b]) == Step(cfg, v, b);
  }

  lemma {:induction false} ExecConcat(cfg: Config, w: World, a: seq<Action>, b: seq<Action>)
    requires w.mcs != [] && w.cps != []
    ensures Exec(cfg, w, a + b) == Exec(cfg, Exec(cfg, w, a), b)
    decreases |a|
  {
    if a == [] {
      assert a + b == b;
    } else {
      assert (a + b)[1..] == a[1..] + b;
      ExecConcat(cfg, Step(cfg, w, a[0]), a[1..], b);
    }
  }

  // ---- Progress --------------------------------------------------------------------------------

  predicate Done(cfg: Config, w: World)
    requires w.mcs != [] && w.cps != []
  {
    Last(w.mcs).ready && Last(w.cps).ready && Last(w.mcs).endpoint == ApiEndpoint(cfg)
  }

  /** Nobody is deleting, and OKE has not lost or failed the cluster. */
  predicate Healthy(w: World)
    requires w.mcs != [] && w.cps != []
  {
    && !w.mcGone && !w.cpGone && !Last(w.mcs).deleting && !Last(w.cps).deleting
    && match w.oke
       case Absent => !Last(w.cps).hasId
       case Present(state) => state.Creating? || state.Active? || state.Updating?
  }

  predicate Quiet(w: World) {
    w.mcRun.ClusterIdle? && w.cpRun.ControlPlaneIdle?
  }

  /** OKE finishes what it is doing. */
  function Tick(oke: Oke): Oke {
    match oke
    case Present(Creating(n)) => if n == 0 then Present(Active) else Present(Creating(n - 1))
    case Present(Updating(n)) => if n == 0 then Present(Active) else Present(Updating(n - 1))
    case _ => oke
  }

  function NoErrors(delay: nat): Answers {
    Answers(true, CreateOk(delay), true, None, true, true, delay)
  }

  /** The calls of a control-plane pass succeed, and creation takes at most `delay`; the pass may start an update. */
  predicate ErrorFree(x: Answers, delay: nat) {
    x.lookupOk && x.create.CreateOk? && x.create.delay <= delay && x.tailOk
  }

  /** An error-free pass of each controller over the newest versions, then one tick of OKE. */
  function ClusterTurn(w: World): seq<Action>
    requires w.mcs != [] && w.cps != []
  {
    [ClusterWorks(|w.mcs| - 1, Some(|w.cps| - 1), []), ClusterPatches(true)]
  }

  function ControlPlaneTurn(w: World, x: Answers): seq<Action>
    requires w.mcs != [] && w.cps != []
  {
    [ControlPlaneWorks(|w.cps| - 1, Some(|w.mcs| - 1), x), ControlPlanePatches(true)]
  }

  ghost function Round(cfg: Config, w: World, x: Answers): seq<Action>
    requires w.mcs != [] && w.cps != []
  {
    var v := Exec(cfg, w, ClusterTurn(w));
    var u := Exec(cfg, v, ControlPlaneTurn(v, x));
    ClusterTurn(w) + (ControlPlaneTurn(v, x) + [OkeMoves(Tick(u.oke))])
  }

  function Rank(cfg: Config, w: World, delay: nat): nat
    requires w.mcs != [] && w.cps != []
  {
    if Done(cfg, w) then 0
    else if Last(w.cps).ready then 1
    else match w.oke
      case Present(Creating(n)) => 3 + n
      case Present(Updating(n)) => 3 + n
      case Present(_) => 2
      case Absent => 4 + delay
  }

  lemma ClusterTurnEffect(cfg: Config, w: World)
    requires Inv(cfg, w) && Quiet(w) && Healthy(w)
    ensures var v := Exec(cfg, w, ClusterTurn(w));
            && v.cps == w.cps && v.oke == w.oke && Quiet(v) && Healthy(v)
            && Last(v.mcs).ready
            && Last(v.mcs).endpoint == if Last(w.cps).ready then ApiEndpoint(cfg) else Last(w.mcs).endpoint
  {
    var t := ClusterTurn(w);
    ExecTwo(cfg, w, t[0], t[1]);
    assert t == [t[0], t[1]];
    Saga.CreateStopIs(cfg.network, [], Saga.CREATE_STEPS);
    assert Last(w.cps) in w.cps;
  }

  lemma ControlPlaneTurnEffect(cfg: Config, w: World, x: Answers, delay: nat)
    requires w.mcs != [] && w.cps != [] && Quiet(w) && Healthy(w) && Last(w.mcs).ready && ErrorFree(x, delay)
    ensures var v := Exec(cfg, w, ControlPlaneTurn(w, x));
            && v.mcs == w.mcs && Quiet(v) && Healthy(v)
            && (w.oke.Absent? ==> v.oke == Present(Creating(x.create.delay)))
            && (w.oke.Present? && !w.oke.state.Active? ==> v.oke == w.oke)
            && Last(v.cps).ready == (Last(w.cps).ready || w.oke == Present(Active))
  {
    var t := ControlPlaneTurn(w, x);
    ExecTwo(cfg, w, t[0], t[1]);
    assert t == [t[0], t[1]];
  }

  /** The circular wait does not exist: a round either finishes or lowers the rank, also when it starts an update. */
  lemma RoundProgress(cfg: Config, w: World, x: Answers, delay: nat)
    requires Inv(cfg, w) && Quiet(w) && Healthy(w) && ErrorFree(x, delay)
    ensures var v := Exec(cfg, w, Round(cfg, w, x));
            && Inv(cfg, v) && Quiet(v) && Healthy(v)
            && (Rank(cfg, v, delay) < Rank(cfg, w, delay) || Done(cfg, v))
  {
    var v := Exec(cfg, w, ClusterTurn(w));
    var u := Exec(cfg, v, ControlPlaneTurn(v, x));
    var tick := OkeMoves(Tick(u.oke));
    var end := Exec(cfg, w, Round(cfg, w, x));
    assert Inv(cfg, end) by {
      ExecKeeps(cfg, w, Round(cfg, w, x));
    }
    assert end == Step(cfg, u, tick) by {
      ExecConcat(cfg, w, ClusterTurn(w), ControlPlaneTurn(v, x) + [tick]);
      ExecConcat(cfg, v, ControlPlaneTurn(v, x), [tick]);
      ExecTwo(cfg, u, tick, tick);
    }
    ClusterTurnEffect(cfg, w);
    ControlPlaneTurnEffect(cfg, v, x, delay);
  }

  /** Rounds with the answers xs(n), ..., xs(1). */
  ghost function Schedule(cfg: Config, w: World, xs: nat -> Answers, n: nat): seq<Action>
    requires w.mcs != [] && w.cps != []
    decreases n
  {
    if n == 0 then []
    else Round(cfg, w, xs(n)) + Schedule(cfg, Exec(cfg, w, Round(cfg, w, xs(n))), xs, n - 1)
  }

  /** At most n rounds are left. */
  predicate Within(cfg: Config, w: World, delay: nat, n: nat)
    requires w.mcs != [] && w.cps != []
  {
    Inv(cfg, w) && Quiet(w) && Healthy(w) && Rank(cfg, w, delay) <= n
  }

  lemma OneRoundLess(cfg: Config, w: World, x: Answers, delay: nat, n: nat)
    requires w.mcs != [] && w.cps != [] && Within(cfg, w, delay, n + 1) && ErrorFree(x, delay)
    ensures Within(cfg, Exec(cfg, w, Round(cfg, w, x)), delay, n)
  {
    RoundProgress(cfg, w, x, delay);
  }

  lemma {:induction false} RoundsFinish(cfg: Config, w: World, xs: nat -> Answers, delay: nat, n: nat)
    requires w.mcs != [] && w.cps != [] && Within(cfg, w, delay, n)
    requires forall i :: ErrorFree(xs(i), delay)
    ensures Done(cfg, Exec(cfg, w, Schedule(cfg, w, xs, n)))
    decreases n
  {
    if n > 0 {
      var r := Round(cfg, w, xs(n));
      var v := Exec(cfg, w, r);
      OneRoundLess(cfg, w, xs(n), delay, n - 1);
      RoundsFinish(cfg, v, xs, delay, n - 1);
      ScheduleUnfolds(cfg, w, xs, n);
    }
  }

  lemma ScheduleUnfolds(cfg: Config, w: World, xs: nat -> Answers, n: nat)
    requires w.mcs != [] && w.cps != [] && n > 0
    ensures var v := Exec(cfg, w, Round(cfg, w, xs(n)));
            Exec(cfg, w, Schedule(cfg, w, xs, n)) == Exec(cfg, v, Schedule(cfg, v, xs, n - 1))
  {
    var r := Round(cfg, w, xs(n));
    ExecConcat(cfg, w, r, Schedule(cfg, Exec(cfg, w, r), xs, n - 1));
  }

  /** From every reachable healthy state, whatever passes are in flight: drop them, and as many error-free
      rounds as the rank says make both objects ready and the endpoint copied. */
  lemma Progress(cfg: Config, run: seq<Action>, xs: nat -> Answers, delay: nat)
    requires Healthy(Exec(cfg, INIT, run)) && forall i :: ErrorFree(xs(i), delay)
    ensures var w := Exec(cfg, INIT, run + [ClusterPatches(false), ControlPlanePatches(false)]);
            Done(cfg, Exec(cfg, w, Schedule(cfg, w, xs, Rank(cfg, w, delay))))
  {
    var drop := [ClusterPatches(false), ControlPlanePatches(false)];
    InitOk(cfg);
    ExecKeeps(cfg, INIT, run);
    ExecConcat(cfg, INIT, run, drop);
    var v := Exec(cfg, INIT, run);
    var w := Exec(cfg, v, drop);
    ExecTwo(cfg, v, drop[0], drop[1]);
    ExecKeeps(cfg, v, drop);
    assert Quiet(w) && Healthy(w);
    RoundsFinish(cfg, w, xs, delay, Rank(cfg, w, delay));
  }
}
