/** The defaults of an OCICluster as functions of its spec: what the mutating webhook fills in and appends. */
module Defaulting {
  import opened Optional
  import opened ApiTypes
  import opened Validation

  const PUBLIC: string := "public"
  const VISIBILITY_INHERITED: string := "Inherited"

  const VCN_DEFAULT_CIDR: string := "10.0.0.0/16"
  const CONTROL_PLANE_ENDPOINT_CIDR: string := "10.0.0.8/29"
  const CONTROL_PLANE_CIDR: string := "10.0.0.0/29"
  const WORKER_CIDR: string := "10.0.64.0/20"
  const SERVICE_LB_CIDR: string := "10.0.0.32/27"
  const ANYWHERE: string := "0.0.0.0/0"

  // ---- Subnets -----------------------------------------------------------------------------------

  function DefaultCidr(role: string): (cidr: string)
    requires role in CLUSTER_ROLES
  {
    if role == CONTROL_PLANE_ENDPOINT_ROLE then CONTROL_PLANE_ENDPOINT_CIDR
    else if role == CONTROL_PLANE_ROLE then CONTROL_PLANE_CIDR
    else if role == SERVICE_LB_ROLE then SERVICE_LB_CIDR
    else WORKER_CIDR
  }

  /** The default names happen to be the names of the roles. */
  function DefaultName(role: string): string {
    role
  }

  function DefaultSubnet(role: string): Subnet
    requires role in CLUSTER_ROLES
  {
    var kind := if role == CONTROL_PLANE_ENDPOINT_ROLE || role == SERVICE_LB_ROLE then PUBLIC else PRIVATE;
    Subnet(role, None, DefaultName(role), false, DefaultCidr(role), kind, None, None, None)
  }

  predicate Plays(subnet: Option<Subnet>, role: string) {
    subnet.Some? && subnet.value.role == role
  }

  predicate HasSubnet(subnets: seq<Option<Subnet>>, role: string) {
    exists i :: 0 <= i < |subnets| && Plays(subnets[i], role)
  }

  predicate IsFirst(subnets: seq<Option<Subnet>>, i: nat, role: string)
    requires i < |subnets|
  {
    Plays(subnets[i], role) && forall j :: 0 <= j < i ==> !Plays(subnets[j], role)
  }

  /** The subnets whose empty CIDR is filled: the first of each role, and every worker subnet. */
  predicate Targeted(subnets: seq<Option<Subnet>>, i: nat)
    requires i < |subnets|
  {
    && subnets[i].Some? && subnets[i].value.role in CLUSTER_ROLES
    && (subnets[i].value.role == WORKER_ROLE || IsFirst(subnets, i, subnets[i].value.role))
  }

  function Fill(subnet: Subnet): Subnet
    requires subnet.role in CLUSTER_ROLES
  {
    if subnet.cidr == "" then subnet.(cidr := DefaultCidr(subnet.role)) else subnet
  }

  function FilledEntry(subnets: seq<Option<Subnet>>, i: nat): Option<Subnet>
    requires i < |subnets|
  {
    if Targeted(subnets, i) then Some(Fill(subnets[i].value)) else subnets[i]
  }

  function Filled(subnets: seq<Option<Subnet>>): seq<Option<Subnet>> {
    seq(|subnets|, i requires 0 <= i < |subnets| => FilledEntry(subnets, i))
  }

  function MissingSubnet(subnets: seq<Option<Subnet>>, role: string): seq<Option<Subnet>>
    requires role in CLUSTER_ROLES
  {
    if HasSubnet(subnets, role) then [] else [Some(DefaultSubnet(role))]
  }

  function MissingSubnets(subnets: seq<Option<Subnet>>): seq<Option<Subnet>> {
    MissingSubnet(subnets, CONTROL_PLANE_ENDPOINT_ROLE) + MissingSubnet(subnets, CONTROL_PLANE_ROLE)
    + MissingSubnet(subnets, SERVICE_LB_ROLE) + MissingSubnet(subnets, WORKER_ROLE)
  }

  function DefaultSubnets(subnets: seq<Option<Subnet>>): seq<Option<Subnet>> {
    Filled(subnets) + MissingSubnets(subnets)
  }

  predicate SubnetsSettled(subnets: seq<Option<Subnet>>) {
    && (forall i :: 0 <= i < |subnets| && Targeted(subnets, i) ==> subnets[i].value.cidr != "")
    && forall role | role in CLUSTER_ROLES :: HasSubnet(subnets, role)
  }

  // ---- Network security groups ---------------------------------------------------------------------

  function Ports(min: int, max: int): Option<PortOptions> {
    Some(PortOptions(Some(PortRange(Some(max), Some(min))), None))
  }

  function Tcp(peer: string, min: int, max: int): Rule {
    Rule(Some(peer), CIDR_BLOCK, Some("6"), None, Ports(min, max), None, None, None)
  }

  function Plain(peer: string, protocol: string): Rule {
    Rule(Some(peer), CIDR_BLOCK, Some(protocol), None, None, None, None, None)
  }

  function PathDiscovery(): Rule {
    Rule(Some(VCN_DEFAULT_CIDR), CIDR_BLOCK, Some("1"), Some(IcmpOptions(Some(3), Some(4))), None, None, None, None)
  }

  function ControlPlaneIngress(): seq<Rule> {
    [Tcp(CONTROL_PLANE_ENDPOINT_CIDR, 6443, 6443), Tcp(CONTROL_PLANE_CIDR, 6443, 6443),
     Tcp(WORKER_CIDR, 6443, 6443), Tcp(CONTROL_PLANE_CIDR, 2379, 2379), Tcp(CONTROL_PLANE_CIDR, 2380, 2380),
     Tcp(CONTROL_PLANE_CIDR, 179, 179), Tcp(WORKER_CIDR, 179, 179), Plain(CONTROL_PLANE_CIDR, "4"),
     Plain(WORKER_CIDR, "4"), PathDiscovery(), Tcp(ANYWHERE, 22, 22), Tcp(CONTROL_PLANE_CIDR, 10250, 10250)]
  }

  function WorkerIngress(): seq<Rule> {
    [Tcp(ANYWHERE, 22, 22), PathDiscovery(), Tcp(CONTROL_PLANE_CIDR, 10250, 10250), Tcp(WORKER_CIDR, 10250, 10250),
     Tcp(CONTROL_PLANE_CIDR, 179, 179), Tcp(WORKER_CIDR, 179, 179), Plain(CONTROL_PLANE_CIDR, "4"),
     Plain(WORKER_CIDR, "4"), Tcp(WORKER_CIDR, 30000, 32767)]
  }

  /** The tables of default rules, descriptions apart. */
  function DefaultIngress(role: string): seq<Rule>
    requires role in CLUSTER_ROLES
  {
    if role == CONTROL_PLANE_ENDPOINT_ROLE then [Tcp(ANYWHERE, 6443, 6443), PathDiscovery()]
    else if role == CONTROL_PLANE_ROLE then ControlPlaneIngress()
    else if role == SERVICE_LB_ROLE then [PathDiscovery(), Tcp(ANYWHERE, 80, 80), Tcp(ANYWHERE, 443, 443)]
    else WorkerIngress()
  }

  function DefaultEgress(role: string): seq<Rule>
    requires role in CLUSTER_ROLES
  {
    if role == CONTROL_PLANE_ENDPOINT_ROLE then [Tcp(CONTROL_PLANE_CIDR, 6443, 6443)]
    else if role == SERVICE_LB_ROLE then [Tcp(WORKER_CIDR, 30000, 32767)]
    else [Plain(ANYWHERE, "all")]
  }

  function DefaultNsg(role: string): HubNsg
    requires role in CLUSTER_ROLES
  {
    HubNsg(None, DefaultName(role), role, Some(DefaultEgress(role)), Some(DefaultIngress(role)))
  }

  function Listed(list: Option<seq<Option<HubNsg>>>): seq<Option<HubNsg>> {
    if list.Some? then list.value else []
  }

  predicate HasNsg(list: Option<seq<Option<HubNsg>>>, role: string) {
    exists i :: 0 <= i < |Listed(list)| && Listed(list)[i].Some? && Listed(list)[i].value.role == role
  }

  predicate HasSecurityList(subnets: seq<Option<Subnet>>, role: string) {
    exists i :: 0 <= i < |subnets| && Plays(subnets[i], role) && subnets[i].value.securityList.Some?
  }

  predicate Guarded(list: Option<seq<Option<HubNsg>>>, subnets: seq<Option<Subnet>>, role: string) {
    HasNsg(list, role) || HasSecurityList(subnets, role)
  }

  function MissingNsg(
      list: Option<seq<Option<HubNsg>>>, subnets: seq<Option<Subnet>>, role: string): seq<Option<HubNsg>>
    requires role in CLUSTER_ROLES
  {
    if Guarded(list, subnets, role) then [] else [Some(DefaultNsg(role))]
  }

  function MissingNsgs(list: Option<seq<Option<HubNsg>>>, subnets: seq<Option<Subnet>>): seq<Option<HubNsg>> {
    MissingNsg(list, subnets, CONTROL_PLANE_ENDPOINT_ROLE) + MissingNsg(list, subnets, CONTROL_PLANE_ROLE)
    + MissingNsg(list, subnets, WORKER_ROLE) + MissingNsg(list, subnets, SERVICE_LB_ROLE)
  }

  /** Appending nothing leaves a nil list nil. */
  function Appended(list: Option<seq<Option<HubNsg>>>, more: seq<Option<HubNsg>>): Option<seq<Option<HubNsg>>> {
    if more == [] then list else Some(Listed(list) + more)
  }

  function DefaultNsgs(nsgs: HubNsgs, subnets: seq<Option<Subnet>>): HubNsgs {
    if nsgs.skip then nsgs else nsgs.(list := Appended(nsgs.list, MissingNsgs(nsgs.list, subnets)))
  }

  predicate NsgsSettled(nsgs: HubNsgs, subnets: seq<Option<Subnet>>) {
    nsgs.skip || forall role | role in CLUSTER_ROLES :: Guarded(nsgs.list, subnets, role)
  }

  // ---- The whole spec --------------------------------------------------------------------------------

  function DefaultVisibility(visibility: string): string {
    if visibility == "" then VISIBILITY_INHERITED else visibility
  }

  function DefaultVcn(v: HubVcn): HubVcn {
    var subnets := DefaultSubnets(v.fields.subnets);
    v.(fields := v.fields.(subnets := subnets), networkSecurityGroup := DefaultNsgs(v.networkSecurityGroup, subnets))
  }

  function DefaultNetwork(n: HubNetwork): HubNetwork {
    var lb := n.apiServerLb.fields;
    n.(vcn := if n.skipNetworkManagement then n.vcn else DefaultVcn(n.vcn),
       apiServerLb := n.apiServerLb.(fields := lb.(networkVisibility := DefaultVisibility(lb.networkVisibility))))
  }

  /** `uuid` is the fresh identifier a spec without one is given. */
  function DefaultSpec(spec: HubSpec, uuid: string): HubSpec {
    var id := if spec.fields.resourceIdentifier == "" then uuid else spec.fields.resourceIdentifier;
    spec.(fields := spec.fields.(resourceIdentifier := id), network := DefaultNetwork(spec.network))
  }

  /** There is nothing left to default. */
  predicate Settled(spec: HubSpec) {
    && spec.fields.resourceIdentifier != ""
    && spec.network.apiServerLb.fields.networkVisibility != ""
    && (spec.network.skipNetworkManagement ||
        (SubnetsSettled(spec.network.vcn.fields.subnets) &&
         NsgsSettled(spec.network.vcn.networkSecurityGroup, spec.network.vcn.fields.subnets)))
  }

  // ---- The laws ------------------------------------------------------------------------------------

  lemma FilledKeeps(subnets: seq<Option<Subnet>>, i: nat)
    requires i < |subnets|
    ensures var d := DefaultSubnets(subnets);
      && i < |d| && d[i] == FilledEntry(subnets, i)
      && (forall role :: Plays(d[i], role) <==> Plays(subnets[i], role))
      && (d[i].Some? ==> d[i] == Some(subnets[i].value.(cidr := d[i].value.cidr)))
      && (d[i] != subnets[i] ==> subnets[i].value.cidr == "")
  {
  }

  lemma AppendedIsDefault(subnets: seq<Option<Subnet>>, i: nat)
    requires |subnets| <= i < |DefaultSubnets(subnets)|
    ensures exists role | role in CLUSTER_ROLES ::
      !HasSubnet(subnets, role) && DefaultSubnets(subnets)[i] == Some(DefaultSubnet(role))
  {
  }

  lemma MissingAt(subnets: seq<Option<Subnet>>, role: string) returns (i: nat)
    requires role in CLUSTER_ROLES && !HasSubnet(subnets, role)
    ensures i < |MissingSubnets(subnets)| && MissingSubnets(subnets)[i] == Some(DefaultSubnet(role))
  {
    assert MissingSubnet(subnets, role) == [Some(DefaultSubnet(role))];
    assert Some(DefaultSubnet(role)) in MissingSubnets(subnets);
    i :| 0 <= i < |MissingSubnets(subnets)| && MissingSubnets(subnets)[i] == Some(DefaultSubnet(role));
  }

  lemma EveryRoleHasSubnet(subnets: seq<Option<Subnet>>, role: string)
    requires role in CLUSTER_ROLES
    ensures HasSubnet(DefaultSubnets(subnets), role)
  {
    var d := DefaultSubnets(subnets);
    if HasSubnet(subnets, role) {
      var i :| 0 <= i < |subnets| && Plays(subnets[i], role);
      FilledKeeps(subnets, i);
      assert Plays(d[i], role);
    } else {
      var i := MissingAt(subnets, role);
      assert d[|subnets| + i] == Some(DefaultSubnet(role));
      assert Plays(d[|subnets| + i], role);
    }
  }

  lemma DefaultSubnetsSettle(subnets: seq<Option<Subnet>>)
    ensures SubnetsSettled(DefaultSubnets(subnets))
  {
    var d := DefaultSubnets(subnets);
    forall role | role in CLUSTER_ROLES ensures HasSubnet(d, role) {
      EveryRoleHasSubnet(subnets, role);
    }
    forall i | 0 <= i < |d| && Targeted(d, i) ensures d[i].value.cidr != "" {
      if i < |subnets| {
        forall j | 0 <= j <= i ensures forall role :: Plays(d[j], role) <==> Plays(subnets[j], role) {
          FilledKeeps(subnets, j);
        }
        FilledKeeps(subnets, i);
        assert Plays(d[i], d[i].value.role);
        assert Targeted(subnets, i);
      } else {
        AppendedIsDefault(subnets, i);
      }
    }
  }

  lemma SettledSubnetsStay(subnets: seq<Option<Subnet>>)
    ensures DefaultSubnets(subnets) == subnets <==> SubnetsSettled(subnets)
  {
  }

  lemma SettledNsgsStay(nsgs: HubNsgs, subnets: seq<Option<Subnet>>)
    ensures DefaultNsgs(nsgs, subnets) == nsgs <==> NsgsSettled(nsgs, subnets)
  {
  }

  lemma EveryRoleGuarded(nsgs: HubNsgs, subnets: seq<Option<Subnet>>, role: string)
    requires role in CLUSTER_ROLES && !nsgs.skip
    ensures Guarded(DefaultNsgs(nsgs, subnets).list, subnets, role)
  {
    var more := MissingNsgs(nsgs.list, subnets);
    var d := DefaultNsgs(nsgs, subnets).list;
    assert more != [] ==> Listed(d) == Listed(nsgs.list) + more;
    if HasNsg(nsgs.list, role) {
      var i :| 0 <= i < |Listed(nsgs.list)| && Listed(nsgs.list)[i].Some? && Listed(nsgs.list)[i].value.role == role;
      assert Listed(d)[i] == Listed(nsgs.list)[i];
    } else if !HasSecurityList(subnets, role) {
      assert Some(DefaultNsg(role)) in more;
      var i :| 0 <= i < |more| && more[i] == Some(DefaultNsg(role));
      assert Listed(d)[|Listed(nsgs.list)| + i] == Some(DefaultNsg(role));
    }
  }

  /** Defaulting leaves nothing to default: in particular each role has a subnet, and an NSG or a security list. */
  lemma DefaultSettles(spec: HubSpec, uuid: string)
    requires uuid != ""
    ensures Settled(DefaultSpec(spec, uuid))
  {
    var v := spec.network.vcn;
    DefaultSubnetsSettle(v.fields.subnets);
    if !v.networkSecurityGroup.skip {
      forall role | role in CLUSTER_ROLES
        ensures Guarded(
          DefaultNsgs(v.networkSecurityGroup, DefaultSubnets(v.fields.subnets)).list,
          DefaultSubnets(v.fields.subnets), role)
      {
        EveryRoleGuarded(v.networkSecurityGroup, DefaultSubnets(v.fields.subnets), role);
      }
    }
  }

  /** The settled specs are exactly the fixed points. */
  lemma SettledIff(spec: HubSpec, uuid: string)
    requires uuid != ""
    ensures DefaultSpec(spec, uuid) == spec <==> Settled(spec)
  {
    SettledSubnetsStay(spec.network.vcn.fields.subnets);
    SettledNsgsStay(spec.network.vcn.networkSecurityGroup, spec.network.vcn.fields.subnets);
    if DefaultSpec(spec, uuid) == spec {
      DefaultSettles(spec, uuid);
    }
  }

  lemma DefaultIdempotent(spec: HubSpec, uuid: string, other: string)
    requires uuid != "" && other != ""
    ensures DefaultSpec(DefaultSpec(spec, uuid), other) == DefaultSpec(spec, uuid)
  {
    DefaultSettles(spec, uuid);
    SettledIff(DefaultSpec(spec, uuid), other);
  }

  // ---- Role by role --------------------------------------------------------------------------------

  predicate AppendedAs(subnets: seq<Option<Subnet>>, role: string, cidr: string, kind: string) {
    exists i :: |subnets| <= i < |DefaultSubnets(subnets)| &&
      DefaultSubnets(subnets)[i] == Some(Subnet(role, None, role, false, cidr, kind, None, None, None))
  }

  /** A missing role gets a subnet of its own name, block and type, and no other role does. */
  lemma AppendedByRole(subnets: seq<Option<Subnet>>)
    ensures AppendedAs(subnets, "control-plane-endpoint", "10.0.0.8/29", "public") <==>
      !HasSubnet(subnets, "control-plane-endpoint")
    ensures AppendedAs(subnets, "control-plane", "10.0.0.0/29", "private") <==> !HasSubnet(subnets, "control-plane")
    ensures AppendedAs(subnets, "service-lb", "10.0.0.32/27", "public") <==> !HasSubnet(subnets, "service-lb")
    ensures AppendedAs(subnets, "worker", "10.0.64.0/20", "private") <==> !HasSubnet(subnets, "worker")
  {
    forall role, cidr, kind | role in CLUSTER_ROLES && AppendedAs(subnets, role, cidr, kind)
      ensures !HasSubnet(subnets, role)
    {
      var i :| |subnets| <= i < |DefaultSubnets(subnets)| &&
        DefaultSubnets(subnets)[i] == Some(Subnet(role, None, role, false, cidr, kind, None, None, None));
      AppendedIsDefault(subnets, i);
    }
    forall role | role in CLUSTER_ROLES && !HasSubnet(subnets, role)
      ensures AppendedAs(subnets, role, DefaultSubnet(role).cidr, DefaultSubnet(role).kind)
    {
      var k := MissingAt(subnets, role);
      assert DefaultSubnets(subnets)[|subnets| + k] == Some(DefaultSubnet(role));
    }
  }

  predicate EarlierOfRole(subnets: seq<Option<Subnet>>, i: nat, role: string)
    requires i <= |subnets|
  {
    exists j :: 0 <= j < i && Plays(subnets[j], role)
  }

  /** An empty CIDR is filled for every worker subnet and for the first of each other role that has a default, with
      the block of the role, and stays empty elsewhere. */
  lemma FilledByRole(subnets: seq<Option<Subnet>>, i: nat)
    requires i < |subnets| && subnets[i].Some? && subnets[i].value.cidr == ""
    ensures i < |DefaultSubnets(subnets)| && DefaultSubnets(subnets)[i].Some?
    ensures var role := subnets[i].value.role;
      DefaultSubnets(subnets)[i].value.cidr ==
        if role == "worker" then "10.0.64.0/20"
        else if EarlierOfRole(subnets, i, role) then ""
        else if role == "control-plane-endpoint" then "10.0.0.8/29"
        else if role == "control-plane" then "10.0.0.0/29"
        else if role == "service-lb" then "10.0.0.32/27"
        else ""
  {
    FilledKeeps(subnets, i);
  }
}
