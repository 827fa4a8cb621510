/** The ordered create and delete sequences of the OCICluster and OCIManagedCluster controllers.

    A create pass runs its steps in order and stops at the first error; a delete pass does the same
    over a nearly reversed list.  A step works on a class of cloud resources.  Each class has a level:
    nothing exists, something exists (`some`), everything wanted exists (`full`).  A failing step may
    leave any effect on its own class and none on the others. */
module ClusterSaga {

  datatype Resource =
    | Drg | Vcn | InternetGateway | NatGateway | ServiceGateway | Nsg | RouteTable
    | SecurityList | Subnet | DrgVcnAttachment | DrgRpcAttachment | ApiServerLb | ApiServerNlb

  datatype Kind = SelfManaged | OkeManaged

  /** What a run keeps fixed: the flags that choose steps, and the classes with something to create. */
  datatype Config = Config(
    kind: Kind,
    skipNetworkManagement: bool,
    annotations: map<string, string>,
    loadBalancerType: string,
    desired: set<Resource>)

  datatype Cloud = Cloud(some: set<Resource>, full: set<Resource>)

  /** `touched` are the classes the failed call changed; `finished` those it changed completely. */
  datatype Outcome = Ok | Err(touched: set<Resource>, finished: set<Resource>)

  const LOAD_BALANCER_TYPE_LB: string := "lb"
  const SKIP_APISERVER_ANNOTATION: string := "cluster.x-k8s.io/skip-apiserver-lb-management"

  predicate SkipApiServerManagement(cfg: Config) {
    SKIP_APISERVER_ANNOTATION in cfg.annotations
  }

  predicate ManagesApiServer(cfg: Config) {
    cfg.kind.SelfManaged? && !SkipApiServerManagement(cfg)
  }

  predicate Applies(cfg: Config, r: Resource) {
    match r
    case ApiServerLb => ManagesApiServer(cfg) && cfg.loadBalancerType == LOAD_BALANCER_TYPE_LB
    case ApiServerNlb => ManagesApiServer(cfg) && cfg.loadBalancerType != LOAD_BALANCER_TYPE_LB
    case _ => !cfg.skipNetworkManagement
  }

  function Managed(cfg: Config): set<Resource> {
    set r | r in cfg.desired && Applies(cfg, r)
  }

  // ---- The create sequence -------------------------------------------------------------------

  const STEP_REGION_KEY: nat := 0
  const STEP_FAILURE_DOMAINS: nat := 11
  const STEP_API_SERVER: nat := 12
  const CREATE_STEPS: nat := 13

  /** The create step that works on a class.  Security lists are created inside the subnet step. */
  function CreateRank(r: Resource): nat {
    match r
    case Drg => 1
    case Vcn => 2
    case InternetGateway => 3
    case NatGateway => 4
    case ServiceGateway => 5
    case Nsg => 6
    case RouteTable => 7
    case Subnet => 8
    case SecurityList => 8
    case DrgVcnAttachment => 9
    case DrgRpcAttachment => 10
    case ApiServerLb => STEP_API_SERVER
    case ApiServerNlb => STEP_API_SERVER
  }

  predicate CreateRuns(cfg: Config, k: nat) {
    if k == STEP_API_SERVER then ManagesApiServer(cfg)
    else k == STEP_FAILURE_DOMAINS || !cfg.skipNetworkManagement
  }

  function OutcomeOf(o: seq<Outcome>, k: nat): Outcome {
    if k < |o| then o[k] else Ok
  }

  predicate CreateFails(cfg: Config, o: seq<Outcome>, k: nat) {
    CreateRuns(cfg, k) && OutcomeOf(o, k).Err?
  }

  ghost predicate IsCreateStop(cfg: Config, o: seq<Outcome>, stop: nat) {
    && stop <= CREATE_STEPS
    && (stop < CREATE_STEPS ==> CreateFails(cfg, o, stop))
    && forall j: nat :: j < stop ==> !CreateFails(cfg, o, j)
  }

  /** The first create step that runs and fails, or CREATE_STEPS. */
  ghost function CreateStop(cfg: Config, o: seq<Outcome>): (stop: nat)
    ensures IsCreateStop(cfg, o, stop)
  {
    CreateStopExists(cfg, o, 0);
    var stop: nat :| IsCreateStop(cfg, o, stop);
    stop
  }

  lemma CreateStopExists(cfg: Config, o: seq<Outcome>, k: nat)
    requires k <= CREATE_STEPS
    requires forall j: nat :: j < k ==> !CreateFails(cfg, o, j)
    ensures exists stop: nat :: IsCreateStop(cfg, o, stop)
    decreases CREATE_STEPS - k
  {
    if k == CREATE_STEPS || CreateFails(cfg, o, k) {
      assert IsCreateStop(cfg, o, k);
    } else {
      CreateStopExists(cfg, o, k + 1);
    }
  }

  lemma CreateStopIs(cfg: Config, o: seq<Outcome>, k: nat)
    requires IsCreateStop(cfg, o, k)
    ensures CreateStop(cfg, o) == k
  {
  }

  function CreatedBy(cfg: Config, k: nat): set<Resource> {
    set r | r in Managed(cfg) && CreateRank(r) < k
  }

  function CreateClass(cfg: Config, k: nat): set<Resource> {
    set r | r in Managed(cfg) && CreateRank(r) == k
  }

  function CreateStep(cfg: Config, k: nat, out: Outcome, c: Cloud): Cloud {
    match out
    case Ok => Cloud(c.some + CreateClass(cfg, k), c.full + CreateClass(cfg, k))
    case Err(touched, finished) =>
      var hit := CreateClass(cfg, k) * touched;
      Cloud(c.some + hit, c.full + hit * finished)
  }

  /** The cloud after a whole create pass: everything before the failing step is complete. */
  ghost function AfterCreate(cfg: Config, o: seq<Outcome>, c: Cloud): Cloud {
    var k := CreateStop(cfg, o);
    var done := Cloud(c.some + CreatedBy(cfg, k), c.full + CreatedBy(cfg, k));
    if k == CREATE_STEPS then done else CreateStep(cfg, k, OutcomeOf(o, k), done)
  }

  ghost predicate CreateSucceeds(cfg: Config, o: seq<Outcome>) {
    CreateStop(cfg, o) == CREATE_STEPS
  }

  // ---- The delete sequence -------------------------------------------------------------------

  const DELETE_STEPS: nat := 12

  function DeleteRank(r: Resource): nat {
    match r
    case ApiServerLb => 0
    case ApiServerNlb => 0
    case DrgRpcAttachment => 1
    case DrgVcnAttachment => 2
    case Nsg => 3
    case Subnet => 4
    case RouteTable => 5
    case SecurityList => 6
    case ServiceGateway => 7
    case NatGateway => 8
    case InternetGateway => 9
    case Vcn => 10
    case Drg => 11
  }

  predicate DeleteRuns(cfg: Config, k: nat) {
    if k == 0 then ManagesApiServer(cfg) else !cfg.skipNetworkManagement
  }

  predicate DeleteFails(cfg: Config, o: seq<Outcome>, k: nat) {
    DeleteRuns(cfg, k) && OutcomeOf(o, k).Err?
  }

  ghost predicate IsDeleteStop(cfg: Config, o: seq<Outcome>, stop: nat) {
    && stop <= DELETE_STEPS
    && (stop < DELETE_STEPS ==> DeleteFails(cfg, o, stop))
    && forall j: nat :: j < stop ==> !DeleteFails(cfg, o, j)
  }

  ghost function DeleteStop(cfg: Config, o: seq<Outcome>): (stop: nat)
    ensures IsDeleteStop(cfg, o, stop)
  {
    DeleteStopExists(cfg, o, 0);
    var stop: nat :| IsDeleteStop(cfg, o, stop);
    stop
  }

  lemma DeleteStopExists(cfg: Config, o: seq<Outcome>, k: nat)
    requires k <= DELETE_STEPS
    requires forall j: nat :: j < k ==> !DeleteFails(cfg, o, j)
    ensures exists stop: nat :: IsDeleteStop(cfg, o, stop)
    decreases DELETE_STEPS - k
  {
    if k == DELETE_STEPS || DeleteFails(cfg, o, k) {
      assert IsDeleteStop(cfg, o, k);
    } else {
      DeleteStopExists(cfg, o, k + 1);
    }
  }

  lemma DeleteStopIs(cfg: Config, o: seq<Outcome>, k: nat)
    requires IsDeleteStop(cfg, o, k)
    ensures DeleteStop(cfg, o) == k
  {
  }

  function DeletedBy(cfg: Config, k: nat): set<Resource> {
    set r | r in Managed(cfg) && DeleteRank(r) < k
  }

  function DeleteClass(cfg: Config, k: nat): set<Resource> {
    set r | r in Managed(cfg) && DeleteRank(r) == k
  }

  function DeleteStep(cfg: Config, k: nat, out: Outcome, c: Cloud): Cloud {
    match out
    case Ok => Cloud(c.some - DeleteClass(cfg, k), c.full - DeleteClass(cfg, k))
    case Err(touched, finished) =>
      var hit := DeleteClass(cfg, k) * touched;
      Cloud(c.some - hit * finished, c.full - hit)
  }

  ghost function AfterDelete(cfg: Config, o: seq<Outcome>, c: Cloud): Cloud {
    var k := DeleteStop(cfg, o);
    var done := Cloud(c.some - DeletedBy(cfg, k), c.full - DeletedBy(cfg, k));
    if k == DELETE_STEPS then done else DeleteStep(cfg, k, OutcomeOf(o, k), done)
  }

  ghost predicate DeleteSucceeds(cfg: Config, o: seq<Outcome>) {
    DeleteStop(cfg, o) == DELETE_STEPS
  }

  // ---- The passes as the controllers write them ------------------------------------------------

  /** The in-memory cluster object of a pass, together with the cloud it acts on. */
  class ClusterPass {
    const cfg: Config
    var finalizer: bool
    var ready: bool
    var cloud: Cloud

    constructor (cfg: Config, finalizer: bool, ready: bool, cloud: Cloud)
      ensures this.cfg == cfg && this.finalizer == finalizer && this.ready == ready && this.cloud == cloud
    {
      this.cfg, this.finalizer, this.ready, this.cloud := cfg, finalizer, ready, cloud;
    }

    /** Everything the pass has done before step k, if no step has failed so far. */
    ghost predicate CreatedUpTo(k: nat, o: seq<Outcome>, c: Cloud)
      requires k <= CREATE_STEPS
      reads this`cloud
    {
      && cloud == Cloud(c.some + CreatedBy(cfg, k), c.full + CreatedBy(cfg, k))
      && forall j: nat :: j < k ==> !CreateFails(cfg, o, j)
    }

    method ReconcileComponent(k: nat, o: seq<Outcome>, ghost c: Cloud) returns (ok: bool)
      requires k < CREATE_STEPS && CreateRuns(cfg, k) && CreatedUpTo(k, o, c)
      modifies this`cloud
      ensures ok == OutcomeOf(o, k).Ok?
      ensures ok ==> CreatedUpTo(k + 1, o, c)
      ensures !ok ==> cloud == AfterCreate(cfg, o, c) && !CreateSucceeds(cfg, o)
    {
      cloud := CreateStep(cfg, k, OutcomeOf(o, k), cloud);
      ok := OutcomeOf(o, k).Ok?;
      if ok {
        assert CreatedBy(cfg, k + 1) == CreatedBy(cfg, k) + CreateClass(cfg, k);
      } else {
        CreateStopIs(cfg, o, k);
      }
    }

    /** Steps that the flags leave out have no class to work on. */
    lemma PassOver(k: nat, to: nat, o: seq<Outcome>, c: Cloud)
      requires k <= to <= CREATE_STEPS && CreatedUpTo(k, o, c)
      requires forall j: nat :: k <= j < to ==> !CreateRuns(cfg, j)
      ensures CreatedUpTo(to, o, c)
    {
      assert forall r :: r in Managed(cfg) ==> CreateRuns(cfg, CreateRank(r));
      assert CreatedBy(cfg, to) == CreatedBy(cfg, k);
    }

    method ReconcileDrgAndVcn(o: seq<Outcome>, ghost c: Cloud) returns (ok: bool)
      requires !cfg.skipNetworkManagement && CreatedUpTo(STEP_REGION_KEY, o, c)
      modifies this`cloud
      ensures ok ==> CreatedUpTo(CreateRank(InternetGateway), o, c)
      ensures !ok ==> cloud == AfterCreate(cfg, o, c) && !CreateSucceeds(cfg, o)
    {
      ok := ReconcileComponent(STEP_REGION_KEY, o, c);
      if !ok { return; }
      ok := ReconcileComponent(CreateRank(Drg), o, c);
      if !ok { return; }
      ok := ReconcileComponent(CreateRank(Vcn), o, c);
    }

    method ReconcileGateways(o: seq<Outcome>, ghost c: Cloud) returns (ok: bool)
      requires !cfg.skipNetworkManagement && CreatedUpTo(CreateRank(InternetGateway), o, c)
      modifies this`cloud
      ensures ok ==> CreatedUpTo(CreateRank(Nsg), o, c)
      ensures !ok ==> cloud == AfterCreate(cfg, o, c) && !CreateSucceeds(cfg, o)
    {
      ok := ReconcileComponent(CreateRank(InternetGateway), o, c);
      if !ok { return; }
      ok := ReconcileComponent(CreateRank(NatGateway), o, c);
      if !ok { return; }
      ok := ReconcileComponent(CreateRank(ServiceGateway), o, c);
    }

    method ReconcileSubnets(o: seq<Outcome>, ghost c: Cloud) returns (ok: bool)
      requires !cfg.skipNetworkManagement && CreatedUpTo(CreateRank(Nsg), o, c)
      modifies this`cloud
      ensures ok ==> CreatedUpTo(CreateRank(DrgVcnAttachment), o, c)
      ensures !ok ==> cloud == AfterCreate(cfg, o, c) && !CreateSucceeds(cfg, o)
    {
      ok := ReconcileComponent(CreateRank(Nsg), o, c);
      if !ok { return; }
      ok := ReconcileComponent(CreateRank(RouteTable), o, c);
      if !ok { return; }
      ok := ReconcileComponent(CreateRank(Subnet), o, c);
    }

    method ReconcileAttachments(o: seq<Outcome>, ghost c: Cloud) returns (ok: bool)
      requires !cfg.skipNetworkManagement && CreatedUpTo(CreateRank(DrgVcnAttachment), o, c)
      modifies this`cloud
      ensures ok ==> CreatedUpTo(STEP_FAILURE_DOMAINS, o, c)
      ensures !ok ==> cloud == AfterCreate(cfg, o, c) && !CreateSucceeds(cfg, o)
    {
      ok := ReconcileComponent(CreateRank(DrgVcnAttachment), o, c);
      if !ok { return; }
      ok := ReconcileComponent(CreateRank(DrgRpcAttachment), o, c);
    }

    method Reconcile(o: seq<Outcome>) returns (ok: bool)
      modifies this
      ensures finalizer
      ensures ok == CreateSucceeds(cfg, o)
      ensures ready == (old(ready) || ok)
      ensures cloud == AfterCreate(cfg, o, old(cloud))
    {
      ghost var c := cloud;
      assert CreatedBy(cfg, 0) == {};
      finalizer := true;
      if !cfg.skipNetworkManagement {
        ok := ReconcileDrgAndVcn(o, c);
        if !ok { return; }
        ok := ReconcileGateways(o, c);
        if !ok { return; }
        ok := ReconcileSubnets(o, c);
        if !ok { return; }
        ok := ReconcileAttachments(o, c);
        if !ok { return; }
      } else {
        PassOver(0, STEP_FAILURE_DOMAINS, o, c);
      }
      ok := ReconcileComponent(STEP_FAILURE_DOMAINS, o, c);
      if !ok { return; }
      if ManagesApiServer(cfg) {
        ok := ReconcileComponent(STEP_API_SERVER, o, c);
        if !ok { return; }
      } else {
        PassOver(STEP_API_SERVER, CREATE_STEPS, o, c);
      }
      CreateStopIs(cfg, o, CREATE_STEPS);
      ready := true;
    }

    ghost predicate DeletedUpTo(k: nat, o: seq<Outcome>, c: Cloud)
      requires k <= DELETE_STEPS
      reads this`cloud
    {
      && cloud == Cloud(c.some - DeletedBy(cfg, k), c.full - DeletedBy(cfg, k))
      && forall j: nat :: j < k ==> !DeleteFails(cfg, o, j)
    }

    method DeleteComponent(k: nat, o: seq<Outcome>, ghost c: Cloud) returns (ok: bool)
      requires k < DELETE_STEPS && DeleteRuns(cfg, k) && DeletedUpTo(k, o, c)
      modifies this`cloud
      ensures ok == OutcomeOf(o, k).Ok?
      ensures ok ==> DeletedUpTo(k + 1, o, c)
      ensures !ok ==> cloud == AfterDelete(cfg, o, c) && !DeleteSucceeds(cfg, o)
    {
      cloud := DeleteStep(cfg, k, OutcomeOf(o, k), cloud);
      ok := OutcomeOf(o, k).Ok?;
      if ok {
        assert DeletedBy(cfg, k + 1) == DeletedBy(cfg, k) + DeleteClass(cfg, k);
      } else {
        DeleteStopIs(cfg, o, k);
      }
    }

    lemma PassOverDelete(k: nat, to: nat, o: seq<Outcome>, c: Cloud)
      requires k <= to <= DELETE_STEPS && DeletedUpTo(k, o, c)
      requires forall j: nat :: k <= j < to ==> !DeleteRuns(cfg, j)
      ensures DeletedUpTo(to, o, c)
    {
      assert forall r :: r in Managed(cfg) ==> DeleteRuns(cfg, DeleteRank(r));
      assert DeletedBy(cfg, to) == DeletedBy(cfg, k);
    }

    method DeleteAttachmentsAndSubnets(o: seq<Outcome>, ghost c: Cloud) returns (ok: bool)
      requires !cfg.skipNetworkManagement && DeletedUpTo(DeleteRank(DrgRpcAttachment), o, c)
      modifies this`cloud
      ensures ok ==> DeletedUpTo(DeleteRank(RouteTable), o, c)
      ensures !ok ==> cloud == AfterDelete(cfg, o, c) && !DeleteSucceeds(cfg, o)
    {
      ok := DeleteComponent(DeleteRank(DrgRpcAttachment), o, c);
      if !ok { return; }
      ok := DeleteComponent(DeleteRank(DrgVcnAttachment), o, c);
      if !ok { return; }
      ok := DeleteComponent(DeleteRank(Nsg), o, c);
      if !ok { return; }
      ok := DeleteComponent(DeleteRank(Subnet), o, c);
    }

    method DeleteRoutingAndGateways(o: seq<Outcome>, ghost c: Cloud) returns (ok: bool)
      requires !cfg.skipNetworkManagement && DeletedUpTo(DeleteRank(RouteTable), o, c)
      modifies this`cloud
      ensures ok ==> DeletedUpTo(DeleteRank(InternetGateway), o, c)
      ensures !ok ==> cloud == AfterDelete(cfg, o, c) && !DeleteSucceeds(cfg, o)
    {
      ok := DeleteComponent(DeleteRank(RouteTable), o, c);
      if !ok { return; }
      ok := DeleteComponent(DeleteRank(SecurityList), o, c);
      if !ok { return; }
      ok := DeleteComponent(DeleteRank(ServiceGateway), o, c);
      if !ok { return; }
      ok := DeleteComponent(DeleteRank(NatGateway), o, c);
    }

    method DeleteVcnAndDrg(o: seq<Outcome>, ghost c: Cloud) returns (ok: bool)
      requires !cfg.skipNetworkManagement && DeletedUpTo(DeleteRank(InternetGateway), o, c)
      modifies this`cloud
      ensures ok ==> DeletedUpTo(DELETE_STEPS, o, c)
      ensures !ok ==> cloud == AfterDelete(cfg, o, c) && !DeleteSucceeds(cfg, o)
    {
      ok := DeleteComponent(DeleteRank(InternetGateway), o, c);
      if !ok { return; }
      ok := DeleteComponent(DeleteRank(Vcn), o, c);
      if !ok { return; }
      ok := DeleteComponent(DeleteRank(Drg), o, c);
    }

    method ReconcileDelete(o: seq<Outcome>) returns (ok: bool)
      modifies this`finalizer, this`cloud
      ensures ok == DeleteSucceeds(cfg, o)
      ensures finalizer == (old(finalizer) && !ok)
      ensures cloud == AfterDelete(cfg, o, old(cloud))
    {
      ghost var c := cloud;
      assert DeletedBy(cfg, 0) == {};
      if ManagesApiServer(cfg) {
        ok := DeleteComponent(0, o, c);
        if !ok { return; }
      } else {
        PassOverDelete(0, 1, o, c);
      }
      if !cfg.skipNetworkManagement {
        ok := DeleteAttachmentsAndSubnets(o, c);
        if !ok { return; }
        ok := DeleteRoutingAndGateways(o, c);
        if !ok { return; }
        ok := DeleteVcnAndDrg(o, c);
        if !ok { return; }
      } else {
        PassOverDelete(1, DELETE_STEPS, o, c);
        ok := true;
      }
      DeleteStopIs(cfg, o, DELETE_STEPS);
      finalizer := false;
    }
  }

  // ---- Runs ------------------------------------------------------------------------------------

  datatype Phase = Live | Deleting | Gone

  /** The stored object and the cloud between two passes. */
  datatype State = State(phase: Phase, finalizer: bool, ready: bool, cloud: Cloud)

  const INIT := State(Live, false, false, Cloud({}, {}))

  /** `patchOk` says whether the deferred patch of the pass reached the API server. */
  datatype Event =
    | CreatePass(o: seq<Outcome>, patchOk: bool)
    | RequestDelete
    | DeletePass(o: seq<Outcome>, patchOk: bool)

  ghost function Apply(cfg: Config, s: State, e: Event): State {
    match e
    case CreatePass(o, patchOk) =>
      if !s.phase.Live? then s
      else
        var next := s.(cloud := AfterCreate(cfg, o, s.cloud));
        if patchOk then next.(finalizer := true, ready := s.ready || CreateSucceeds(cfg, o)) else next
    case RequestDelete =>
      if !s.phase.Live? then s else s.(phase := if s.finalizer then Deleting else Gone)
    case DeletePass(o, patchOk) =>
      if !s.phase.Deleting? then s
      else
        var next := s.(cloud := AfterDelete(cfg, o, s.cloud));
        if patchOk && DeleteSucceeds(cfg, o) then next.(phase := Gone, finalizer := false) else next
  }

  ghost function Exec(cfg: Config, run: seq<Event>): State {
    if run == [] then INIT else Apply(cfg, Exec(cfg, run[..|run| - 1]), run[|run| - 1])
  }

  lemma ExecOne(cfg: Config, e: Event)
    ensures Exec(cfg, [e]) == Apply(cfg, INIT, e)
  {
  }

  lemma ExecThree(cfg: Config, e: Event, f: Event, g: Event)
    ensures Exec(cfg, [e]) == Apply(cfg, INIT, e)
    ensures Exec(cfg, [e, f]) == Apply(cfg, Exec(cfg, [e]), f)
    ensures Exec(cfg, [e, f, g]) == Apply(cfg, Exec(cfg, [e, f]), g)
  {
    assert [e][..0] == [] && [e, f][..1] == [e] && [e, f, g][..2] == [e, f];
  }

  /** b is created in an earlier step than a and deleted in a later one. */
  predicate Respects(a: Resource, b: Resource) {
    CreateRank(b) < CreateRank(a) && DeleteRank(a) < DeleteRank(b)
  }

  /** As long as anything of a exists, everything of b does. */
  predicate Kept(c: Cloud, a: Resource, b: Resource) {
    a in c.some ==> b in c.full
  }

  ghost predicate Closed(cfg: Config, c: Cloud) {
    && c.some <= Managed(cfg)
    && c.full <= c.some
    && forall a, b :: a in Managed(cfg) && b in Managed(cfg) && Respects(a, b) ==> Kept(c, a, b)
  }

  lemma CreateKeepsClosed(cfg: Config, o: seq<Outcome>, c: Cloud)
    requires Closed(cfg, c)
    ensures Closed(cfg, AfterCreate(cfg, o, c))
  {
  }

  lemma DeleteKeepsClosed(cfg: Config, o: seq<Outcome>, c: Cloud)
    requires Closed(cfg, c)
    ensures Closed(cfg, AfterDelete(cfg, o, c))
    ensures DeleteSucceeds(cfg, o) ==> AfterDelete(cfg, o, c).some == {}
  {
  }

  lemma {:induction false} ReachableClosed(cfg: Config, run: seq<Event>)
    ensures Closed(cfg, Exec(cfg, run).cloud)
  {
    if run != [] {
      var before, e := run[..|run| - 1], run[|run| - 1];
      ReachableClosed(cfg, before);
      var c := Exec(cfg, before).cloud;
      match e
      case CreatePass(o, _) => CreateKeepsClosed(cfg, o, c);
      case RequestDelete =>
      case DeletePass(o, _) => DeleteKeepsClosed(cfg, o, c);
    }
  }

  /** Over every run, with failures anywhere and patches lost anywhere, the existing resources stay
      closed under any dependency relation that both sequences respect. */
  lemma DependenciesKept(cfg: Config, run: seq<Event>, dep: (Resource, Resource) -> bool)
    requires forall a, b :: a in Managed(cfg) && b in Managed(cfg) && dep(a, b) ==> Respects(a, b)
    ensures forall a, b :: a in Managed(cfg) && b in Managed(cfg) && dep(a, b) ==> Kept(Exec(cfg, run).cloud, a, b)
  {
    ReachableClosed(cfg, run);
  }

  /** The references that the classes hold on each other.  A subnet's reference to its own security list is not
      among them: both classes are made in one step, subnet by subnet (see module SubnetStep). */
  predicate OciReference(a: Resource, b: Resource) {
    match a
    case InternetGateway => b == Vcn
    case NatGateway => b == Vcn
    case ServiceGateway => b == Vcn
    case Nsg => b == Vcn
    case SecurityList => b == Vcn
    case RouteTable => b in {Vcn, InternetGateway, NatGateway, ServiceGateway, Drg}
    case Subnet => b in {Vcn, RouteTable}
    case DrgVcnAttachment => b in {Drg, Vcn}
    case DrgRpcAttachment => b == Drg
    case ApiServerLb => b in {Subnet, Nsg}
    case ApiServerNlb => b in {Subnet, Nsg}
    case _ => false
  }

  lemma OciReferencesKept(cfg: Config, run: seq<Event>)
    ensures forall a, b | a in Managed(cfg) && b in Managed(cfg) && OciReference(a, b) ::
              Kept(Exec(cfg, run).cloud, a, b)
  {
    DependenciesKept(cfg, run, OciReference);
  }

  function AllOk(n: nat): (o: seq<Outcome>)
    ensures |o| == n && forall k: nat :: OutcomeOf(o, k) == Ok
  {
    seq(n, _ => Ok)
  }

  function FailingAt(n: nat, bad: Outcome): (o: seq<Outcome>)
    ensures OutcomeOf(o, n) == bad && forall k: nat :: k != n ==> OutcomeOf(o, k) == Ok
  {
    AllOk(n) + [bad]
  }

  /** A create pass that fails inside a's step leaves part of a and none of the later classes. */
  lemma StoppedCreate(cfg: Config, a: Resource, b: Resource)
    requires a in Managed(cfg) && b in Managed(cfg) && CreateRank(a) <= CreateRank(b)
    ensures exists run :: !Kept(Exec(cfg, run).cloud, a, b)
  {
    var o := FailingAt(CreateRank(a), Err({a}, {}));
    var e := CreatePass(o, true);
    var c := AfterCreate(cfg, o, INIT.cloud);
    assert !Kept(c, a, b) by {
      CreateStopIs(cfg, o, CreateRank(a));
    }
    assert Exec(cfg, [e]).cloud == c by {
      ExecOne(cfg, e);
    }
    assert !Kept(Exec(cfg, [e]).cloud, a, b);
  }

  lemma DeleteStoppedIn(cfg: Config, a: Resource, b: Resource, o: seq<Outcome>, c: Cloud)
    requires b in Managed(cfg) && a in c.some && DeleteRank(b) <= DeleteRank(a)
    requires o == FailingAt(DeleteRank(b), Err({b}, {}))
    ensures !Kept(AfterDelete(cfg, o, c), a, b)
  {
    DeleteStopIs(cfg, o, DeleteRank(b));
  }

  /** A delete pass that fails inside b's step leaves a behind when a's step is not earlier. */
  lemma StoppedDelete(cfg: Config, a: Resource, b: Resource)
    requires a in Managed(cfg) && b in Managed(cfg) && DeleteRank(b) <= DeleteRank(a)
    ensures exists run :: !Kept(Exec(cfg, run).cloud, a, b)
  {
    var ok, o := AllOk(0), FailingAt(DeleteRank(b), Err({b}, {}));
    var e, f := CreatePass(ok, true), DeletePass(o, true);
    var created := AfterCreate(cfg, ok, INIT.cloud);
    assert a in created.some by {
      CreateStopIs(cfg, ok, CREATE_STEPS);
    }
    var c := AfterDelete(cfg, o, created);
    DeleteStoppedIn(cfg, a, b, o, created);
    assert Exec(cfg, [e, RequestDelete, f]).cloud == c by {
      ExecThree(cfg, e, RequestDelete, f);
    }
    assert !Kept(Exec(cfg, [e, RequestDelete, f]).cloud, a, b);
  }

  /** The two sequences keep a dependency in every run exactly when they respect it. */
  lemma KeptIffRespected(cfg: Config, a: Resource, b: Resource)
    requires a in Managed(cfg) && b in Managed(cfg)
    ensures (forall run :: Kept(Exec(cfg, run).cloud, a, b)) <==> Respects(a, b)
  {
    if Respects(a, b) {
      forall run ensures Kept(Exec(cfg, run).cloud, a, b) {
        ReachableClosed(cfg, run);
      }
    } else if CreateRank(a) <= CreateRank(b) {
      StoppedCreate(cfg, a, b);
    } else {
      StoppedDelete(cfg, a, b);
    }
  }

  /** The finalizer guards whatever exists. */
  predicate Guarded(s: State) {
    && (s.cloud.some != {} ==> s.finalizer && !s.phase.Gone?)
    && (s.phase.Deleting? ==> s.finalizer)
  }

  /** Every create pass that finds the object without its finalizer gets its patch through. */
  ghost predicate FinalizerPatched(cfg: Config, run: seq<Event>) {
    forall i :: 0 <= i < |run| ==>
      run[i].CreatePass? && !Exec(cfg, run[..i]).finalizer ==> run[i].patchOk
  }

  lemma {:induction false} FinalizerGuards(cfg: Config, run: seq<Event>)
    requires FinalizerPatched(cfg, run)
    ensures Guarded(Exec(cfg, run))
  {
    if run != [] {
      var n := |run| - 1;
      var before := run[..n];
      forall i | 0 <= i < |before| && before[i].CreatePass? && !Exec(cfg, before[..i]).finalizer
        ensures before[i].patchOk
      {
        assert before[..i] == run[..i];
      }
      FinalizerGuards(cfg, before);
      ReachableClosed(cfg, before);
      if run[n].DeletePass? {
        DeleteKeepsClosed(cfg, run[n].o, Exec(cfg, before).cloud);
      }
    }
  }

  /** A create pass keeps the guard, however it ends and whether or not its patch is stored, exactly when the
      finalizer is stored already or there is nothing to manage. */
  lemma GuardIff(cfg: Config, s: State)
    requires s.phase.Live? && Guarded(s) && Closed(cfg, s.cloud)
    ensures (forall o, patchOk :: Guarded(Apply(cfg, s, CreatePass(o, patchOk)))) <==> s.finalizer || Managed(cfg) == {}
  {
    if s.finalizer || Managed(cfg) == {} {
      forall o, patchOk ensures Guarded(Apply(cfg, s, CreatePass(o, patchOk))) {
        CreateKeepsClosed(cfg, o, s.cloud);
      }
    } else {
      var r :| r in Managed(cfg);
      CreateStopIs(cfg, [], CREATE_STEPS);
      assert r in AfterCreate(cfg, [], s.cloud).some;
      assert !Guarded(Apply(cfg, s, CreatePass([], false)));
    }
  }

  /** A lost first patch followed by a delete request orphans the resources of the pass. */
  lemma LostPatchOrphans(cfg: Config, r: Resource)
    requires r in Managed(cfg)
    ensures var s := Exec(cfg, [CreatePass([], false), RequestDelete]); s.phase.Gone? && r in s.cloud.some
  {
    CreateStopIs(cfg, [], CREATE_STEPS);
    ExecThree(cfg, CreatePass([], false), RequestDelete, RequestDelete);
  }

  // ---- What a pass is for ------------------------------------------------------------------------------

  /** The cluster's API server gets a load balancer from the controller. */
  predicate WantsLb(cfg: Config) {
    cfg.kind.SelfManaged? && "cluster.x-k8s.io/skip-apiserver-lb-management" !in cfg.annotations
  }

  /** A successful create pass makes a load balancer exactly for a self-managed cluster without the annotation whose
      type is "lb", and a network load balancer exactly for one of another type. */
  lemma CreateChoosesLb(cfg: Config, o: seq<Outcome>, c: Cloud)
    requires CreateSucceeds(cfg, o) && {ApiServerLb, ApiServerNlb} <= cfg.desired
    requires ApiServerLb !in c.full && ApiServerNlb !in c.full
    ensures ApiServerLb in AfterCreate(cfg, o, c).full <==> WantsLb(cfg) && cfg.loadBalancerType == "lb"
    ensures ApiServerNlb in AfterCreate(cfg, o, c).full <==> WantsLb(cfg) && cfg.loadBalancerType != "lb"
  {
  }

  /** A successful delete pass removes the same one. */
  lemma DeleteChoosesLb(cfg: Config, o: seq<Outcome>, c: Cloud)
    requires DeleteSucceeds(cfg, o) && {ApiServerLb, ApiServerNlb} <= cfg.desired
    requires ApiServerLb in c.some && ApiServerNlb in c.some
    ensures ApiServerLb !in AfterDelete(cfg, o, c).some <==> WantsLb(cfg) && cfg.loadBalancerType == "lb"
    ensures ApiServerNlb !in AfterDelete(cfg, o, c).some <==> WantsLb(cfg) && cfg.loadBalancerType != "lb"
  {
  }

  predicate Untouched(r: Resource, c: Cloud, d: Cloud) {
    (r in c.some <==> r in d.some) && (r in c.full <==> r in d.full)
  }

  /** What a pass leaves alone, however it ends: both load balancers with the annotation or for an OKE cluster, and
      everything else with network management skipped. */
  lemma LeavesAlone(cfg: Config, o: seq<Outcome>, c: Cloud, r: Resource)
    requires if r in {ApiServerLb, ApiServerNlb} then !WantsLb(cfg) else cfg.skipNetworkManagement
    ensures Untouched(r, c, AfterCreate(cfg, o, c)) && Untouched(r, c, AfterDelete(cfg, o, c))
  {
    assert r !in Managed(cfg);
  }

  /** A successful create pass makes all of the network that is wanted, unless its management is skipped, and a
      successful delete pass removes it. */
  lemma NetworkMadeAndRemoved(cfg: Config, o: seq<Outcome>, c: Cloud, r: Resource)
    requires !cfg.skipNetworkManagement && r in cfg.desired && r !in {ApiServerLb, ApiServerNlb}
    ensures CreateSucceeds(cfg, o) ==> r in AfterCreate(cfg, o, c).full
    ensures DeleteSucceeds(cfg, o) ==> r !in AfterDelete(cfg, o, c).some
  {
  }

  /** Step k of a create pass is left out: the load balancer where none is wanted, and all but the failure domains
      with network management skipped. */
  predicate LeftOutOfCreate(cfg: Config, k: nat) {
    if k == 12 then !WantsLb(cfg) else k != 11 && cfg.skipNetworkManagement
  }

  predicate LeftOutOfDelete(cfg: Config, k: nat) {
    if k == 0 then !WantsLb(cfg) else cfg.skipNetworkManagement
  }

  /** A pass succeeds exactly when every step succeeds that is not left out. */
  lemma SucceedsIff(cfg: Config, o: seq<Outcome>)
    ensures CreateSucceeds(cfg, o) <==> forall k: nat | k < 13 :: OutcomeOf(o, k).Ok? || LeftOutOfCreate(cfg, k)
    ensures DeleteSucceeds(cfg, o) <==> forall k: nat | k < 12 :: OutcomeOf(o, k).Ok? || LeftOutOfDelete(cfg, k)
  {
    assert forall k: nat | k < 13 :: CreateFails(cfg, o, k) <==> !(OutcomeOf(o, k).Ok? || LeftOutOfCreate(cfg, k));
    assert forall k: nat | k < 12 :: DeleteFails(cfg, o, k) <==> !(OutcomeOf(o, k).Ok? || LeftOutOfDelete(cfg, k));
    if !CreateSucceeds(cfg, o) {
      assert CreateFails(cfg, o, CreateStop(cfg, o));
    }
    if !DeleteSucceeds(cfg, o) {
      assert DeleteFails(cfg, o, DeleteStop(cfg, o));
    }
  }

  /** The pairs that are deleted in the order in which they are created. */
  predicate NotMirrored(a: Resource, b: Resource) {
    || (a == Nsg && b in {Subnet, RouteTable, SecurityList})
    || (a == RouteTable && b == SecurityList)
  }

  /** Deletion mirrors creation but for these pairs, and but for classes of one and the same step. */
  lemma MirroredExcept(a: Resource, b: Resource)
    requires CreateRank(a) < CreateRank(b)
    ensures DeleteRank(a) < DeleteRank(b) <==> NotMirrored(a, b)
    ensures DeleteRank(a) != DeleteRank(b)
  {
  }

  /** The order of creation. */
  lemma CreationOrder()
    ensures
      var order := [Drg, Vcn, InternetGateway, NatGateway, ServiceGateway, Nsg, RouteTable, Subnet, DrgVcnAttachment,
        DrgRpcAttachment, ApiServerLb];
      forall i, j :: 0 <= i < j < |order| ==> CreateRank(order[i]) < CreateRank(order[j])
    ensures CreateRank(SecurityList) == CreateRank(Subnet) && CreateRank(ApiServerNlb) == CreateRank(ApiServerLb)
  {
  }
}
