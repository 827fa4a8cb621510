/** Admission of an OCICluster: defaulting and then validating a request, and what holds of the stored object
    over every history of requests. */
module Admission {
  import opened Optional
  import opened ApiTypes
  import opened Cidr
  import opened Validation
  import opened Defaulting

  // ---- Default, then validate --------------------------------------------------------------------

  /** The CIDRs that occur in the defaults parse to the blocks they denote. */
  predicate KnowsDefaults(env: Env) {
    && env.parse(VCN_DEFAULT_CIDR) == Some(V4Block(10, 0, 0, 0, 16))
    && env.parse(CONTROL_PLANE_ENDPOINT_CIDR) == Some(V4Block(10, 0, 0, 8, 29))
    && env.parse(CONTROL_PLANE_CIDR) == Some(V4Block(10, 0, 0, 0, 29))
    && env.parse(WORKER_CIDR) == Some(V4Block(10, 0, 64, 0, 20))
    && env.parse(SERVICE_LB_CIDR) == Some(V4Block(10, 0, 0, 32, 27))
    && env.parse(ANYWHERE) == Some(V4Block(0, 0, 0, 0, 0))
  }

  /** The VCN has room for the default subnet of the role. */
  predicate Fits(env: Env, vcnCidr: string, role: string)
    requires role in CLUSTER_ROLES
  {
    SubnetCidrOk(env, DefaultCidr(role), vcnCidr)
  }

  predicate NameTaken(subnets: seq<Option<Subnet>>, name: string) {
    exists i :: 0 <= i < |subnets| && subnets[i].Some? && subnets[i].value.name == name
  }

  /** The defaults that will be used fit into the VCN, and no subnet bears the name of one to be appended. */
  predicate DefaultsFit(env: Env, subnets: seq<Option<Subnet>>, vcnCidr: string) {
    && (forall role | role in CLUSTER_ROLES && !HasSubnet(subnets, role) ::
          Fits(env, vcnCidr, role) && !NameTaken(subnets, DefaultName(role)))
    && (forall i | 0 <= i < |subnets| && Targeted(subnets, i) && subnets[i].value.cidr == "" ::
          Fits(env, vcnCidr, subnets[i].value.role))
  }

  lemma DefaultNamesHaveNoSpace(role: string)
    requires role in CLUSTER_ROLES
    ensures !HasSpace(DefaultName(role)) && DefaultName(role) != ""
  {
  }

  lemma FilledEntryOk(env: Env, subnets: seq<Option<Subnet>>, vcnCidr: string, i: nat)
    requires i < |subnets| && subnets[i].Some?
    ensures SubnetOk(env, VALID_ROLES, FilledEntry(subnets, i).value, vcnCidr) <==>
      SubnetOk(env, VALID_ROLES, subnets[i].value, vcnCidr) &&
      (Targeted(subnets, i) && subnets[i].value.cidr == "" ==> Fits(env, vcnCidr, subnets[i].value.role))
  {
  }

  lemma AppendedOk(env: Env, vcnCidr: string, role: string)
    requires role in CLUSTER_ROLES
    ensures SubnetOk(env, VALID_ROLES, DefaultSubnet(role), vcnCidr) <==> Fits(env, vcnCidr, role)
  {
    DefaultNamesHaveNoSpace(role);
  }

  lemma AppendedAt(subnets: seq<Option<Subnet>>, role: string) returns (i: nat)
    requires role in CLUSTER_ROLES && !HasSubnet(subnets, role)
    ensures |subnets| <= i < |DefaultSubnets(subnets)| && DefaultSubnets(subnets)[i] == Some(DefaultSubnet(role))
  {
    var k := MissingAt(subnets, role);
    i := |subnets| + k;
  }

  lemma DefaultNoNil(subnets: seq<Option<Subnet>>)
    ensures NoNil(DefaultSubnets(subnets)) <==> NoNil(subnets)
  {
    var d := DefaultSubnets(subnets);
    forall i | 0 <= i < |d| ensures i < |subnets| ==> (d[i].Some? <==> subnets[i].Some?) {
      if i < |subnets| {
        FilledKeeps(subnets, i);
      }
    }
    forall i | |subnets| <= i < |d| ensures d[i].Some? {
      AppendedIsDefault(subnets, i);
    }
  }

  lemma UserSubnetsOk(env: Env, subnets: seq<Option<Subnet>>, vcnCidr: string)
    requires NoNil(subnets) && NoNil(DefaultSubnets(subnets))
    ensures var d := DefaultSubnets(subnets);
      (forall i :: 0 <= i < |subnets| ==> SubnetOk(env, VALID_ROLES, d[i].value, vcnCidr)) <==>
      && (forall i :: 0 <= i < |subnets| ==> SubnetOk(env, VALID_ROLES, subnets[i].value, vcnCidr))
      && (forall i | 0 <= i < |subnets| && Targeted(subnets, i) && subnets[i].value.cidr == "" ::
            Fits(env, vcnCidr, subnets[i].value.role))
  {
    forall i | 0 <= i < |subnets|
      ensures SubnetOk(env, VALID_ROLES, DefaultSubnets(subnets)[i].value, vcnCidr) <==>
        SubnetOk(env, VALID_ROLES, subnets[i].value, vcnCidr) &&
        (Targeted(subnets, i) && subnets[i].value.cidr == "" ==> Fits(env, vcnCidr, subnets[i].value.role))
    {
      FilledKeeps(subnets, i);
      FilledEntryOk(env, subnets, vcnCidr, i);
    }
  }

  lemma AppendedSubnetsOk(env: Env, subnets: seq<Option<Subnet>>, vcnCidr: string)
    requires NoNil(DefaultSubnets(subnets))
    ensures var d := DefaultSubnets(subnets);
      (forall i :: |subnets| <= i < |d| ==> SubnetOk(env, VALID_ROLES, d[i].value, vcnCidr)) <==>
      (forall role | role in CLUSTER_ROLES && !HasSubnet(subnets, role) :: Fits(env, vcnCidr, role))
  {
    var d := DefaultSubnets(subnets);
    forall role | role in CLUSTER_ROLES
      ensures SubnetOk(env, VALID_ROLES, DefaultSubnet(role), vcnCidr) <==> Fits(env, vcnCidr, role)
    {
      AppendedOk(env, vcnCidr, role);
    }
    if forall i :: |subnets| <= i < |d| ==> SubnetOk(env, VALID_ROLES, d[i].value, vcnCidr) {
      forall role | role in CLUSTER_ROLES && !HasSubnet(subnets, role) ensures Fits(env, vcnCidr, role) {
        var i := AppendedAt(subnets, role);
        assert SubnetOk(env, VALID_ROLES, d[i].value, vcnCidr);
      }
    } else {
      var i :| |subnets| <= i < |d| && !SubnetOk(env, VALID_ROLES, d[i].value, vcnCidr);
      AppendedIsDefault(subnets, i);
    }
  }

  lemma AppendedDiffer(subnets: seq<Option<Subnet>>, i: nat, j: nat)
    requires |subnets| <= i < j < |DefaultSubnets(subnets)|
    requires DefaultSubnets(subnets)[i].Some? && DefaultSubnets(subnets)[j].Some?
    ensures DefaultSubnets(subnets)[i].value.name != DefaultSubnets(subnets)[j].value.name
  {
    var m := MissingSubnets(subnets);
    assert DefaultSubnets(subnets)[i] == m[i - |subnets|] && DefaultSubnets(subnets)[j] == m[j - |subnets|];
  }

  lemma NamesStayDifferent(subnets: seq<Option<Subnet>>)
    requires NoNil(subnets) && NoNil(DefaultSubnets(subnets))
    ensures NamesDiffer(DefaultSubnets(subnets)) <==>
      && NamesDiffer(subnets)
      && forall role | role in CLUSTER_ROLES && !HasSubnet(subnets, role) :: !NameTaken(subnets, DefaultName(role))
  {
    var d := DefaultSubnets(subnets);
    forall i | 0 <= i < |subnets| ensures d[i].value.name == subnets[i].value.name {
      FilledKeeps(subnets, i);
    }
    if NamesDiffer(d) {
      forall role | role in CLUSTER_ROLES && !HasSubnet(subnets, role) ensures !NameTaken(subnets, DefaultName(role)) {
        var k := AppendedAt(subnets, role);
        DefaultNamesHaveNoSpace(role);
        forall i | 0 <= i < |subnets| ensures subnets[i].value.name != DefaultName(role) {
          assert d[i].value.name != "" ==> d[i].value.name != d[k].value.name;
        }
      }
    } else {
      var i, j :| 0 <= i < j < |d| && d[i].value.name != "" && d[i].value.name == d[j].value.name;
      if |subnets| <= i {
        AppendedDiffer(subnets, i, j);
      } else if |subnets| <= j {
        AppendedIsDefault(subnets, j);
        assert NameTaken(subnets, d[j].value.name);
      }
    }
  }

  /** The subnets pass after defaulting exactly when they pass before and the defaults fit. */
  lemma DefaultSubnetsOk(env: Env, subnets: seq<Option<Subnet>>, vcnCidr: string)
    ensures SubnetsOk(env, VALID_ROLES, DefaultSubnets(subnets), vcnCidr) <==>
      SubnetsOk(env, VALID_ROLES, subnets, vcnCidr) && DefaultsFit(env, subnets, vcnCidr)
  {
    DefaultNoNil(subnets);
    if NoNil(subnets) {
      UserSubnetsOk(env, subnets, vcnCidr);
      AppendedSubnetsOk(env, subnets, vcnCidr);
      NamesStayDifferent(subnets);
    }
  }

  predicate RuleOk(env: Env, r: Rule) {
    RuleComplete(r) && RuleParses(env, r)
  }

  lemma TableOk(env: Env, rules: seq<Rule>)
    requires forall r :: r in rules ==> RuleOk(env, r)
    ensures RulesOk(env, Some(rules))
  {
    forall i | 0 <= i < |rules| ensures RuleOk(env, rules[i]) {
      assert rules[i] in rules;
    }
  }

  const DEFAULT_PEERS: seq<string> := [CONTROL_PLANE_ENDPOINT_CIDR, CONTROL_PLANE_CIDR, WORKER_CIDR, ANYWHERE]

  lemma PeersParse(env: Env)
    requires KnowsDefaults(env)
    ensures forall peer, min, max | peer in DEFAULT_PEERS :: RuleOk(env, Tcp(peer, min, max))
    ensures forall peer, protocol | peer in DEFAULT_PEERS :: RuleOk(env, Plain(peer, protocol))
    ensures RuleOk(env, PathDiscovery())
  {
  }

  lemma ControlPlaneIngressOk(env: Env, r: Rule)
    requires KnowsDefaults(env) && r in ControlPlaneIngress()
    ensures RuleOk(env, r)
  {
    PeersParse(env);
  }

  lemma WorkerIngressOk(env: Env, r: Rule)
    requires KnowsDefaults(env) && r in WorkerIngress()
    ensures RuleOk(env, r)
  {
    PeersParse(env);
  }

  lemma IngressOk(env: Env, role: string)
    requires KnowsDefaults(env) && role in CLUSTER_ROLES
    ensures forall r :: r in DefaultIngress(role) ==> RuleOk(env, r)
  {
    PeersParse(env);
    forall r | r in DefaultIngress(role) ensures RuleOk(env, r) {
      if role == CONTROL_PLANE_ROLE {
        ControlPlaneIngressOk(env, r);
      } else if role == WORKER_ROLE {
        WorkerIngressOk(env, r);
      }
    }
  }

  lemma EgressOk(env: Env, role: string)
    requires KnowsDefaults(env) && role in CLUSTER_ROLES
    ensures forall r :: r in DefaultEgress(role) ==> RuleOk(env, r)
  {
  }

  lemma DefaultNsgOk(env: Env, role: string)
    requires KnowsDefaults(env) && role in CLUSTER_ROLES
    ensures NsgOk(env, VALID_ROLES, DefaultNsg(role))
  {
    IngressOk(env, role);
    EgressOk(env, role);
    TableOk(env, DefaultIngress(role));
    TableOk(env, DefaultEgress(role));
  }

  lemma MissingNsgIs(list: Option<seq<Option<HubNsg>>>, subnets: seq<Option<Subnet>>, i: nat) returns (role: string)
    requires i < |MissingNsgs(list, subnets)|
    ensures role in CLUSTER_ROLES && MissingNsgs(list, subnets)[i] == Some(DefaultNsg(role))
  {
    var n := MissingNsgs(list, subnets)[i];
    role := if n == Some(DefaultNsg(CONTROL_PLANE_ENDPOINT_ROLE)) then CONTROL_PLANE_ENDPOINT_ROLE
            else if n == Some(DefaultNsg(CONTROL_PLANE_ROLE)) then CONTROL_PLANE_ROLE
            else if n == Some(DefaultNsg(WORKER_ROLE)) then WORKER_ROLE else SERVICE_LB_ROLE;
  }

  lemma AppendedNsgsOk(env: Env, roles: seq<string>, list: Option<seq<Option<HubNsg>>>, more: seq<Option<HubNsg>>)
    requires forall i :: 0 <= i < |more| ==> more[i].Some? && NsgOk(env, roles, more[i].value)
    ensures NsgsOk(env, roles, Appended(list, more)) <==> NsgsOk(env, roles, list)
  {
    if more != [] {
      var all, some := Listed(list) + more, Listed(list);
      assert Appended(list, more) == Some(all);
      assert forall i :: 0 <= i < |some| ==> all[i] == some[i];
      assert forall i :: |some| <= i < |all| ==> all[i] == more[i - |some|];
      assert NoNil(all) <==> NoNil(some);
      assert NsgsOk(env, roles, Some(all)) <==> NsgsOk(env, roles, Some(some));
    }
  }

  /** Appending default NSGs does not change the verdict on the list. */
  lemma DefaultNsgsOk(env: Env, nsgs: HubNsgs, subnets: seq<Option<Subnet>>)
    requires KnowsDefaults(env)
    ensures NsgsOk(env, VALID_ROLES, DefaultNsgs(nsgs, subnets).list) <==> NsgsOk(env, VALID_ROLES, nsgs.list)
  {
    var more := MissingNsgs(nsgs.list, subnets);
    forall i | 0 <= i < |more| ensures more[i].Some? && NsgOk(env, VALID_ROLES, more[i].value) {
      var role := MissingNsgIs(nsgs.list, subnets, i);
      DefaultNsgOk(env, role);
    }
    AppendedNsgsOk(env, VALID_ROLES, nsgs.list, more);
  }

  lemma DefaultVisibilityOk(n: HubNetwork)
    ensures VisibilityOk(DefaultNetwork(n)) <==> VisibilityOk(n)
  {
    var s := n.vcn.fields.subnets;
    var d := DefaultSubnets(s);
    if PrivateEndpoint(s) {
      var i :| 0 <= i < |s| && s[i].Some? &&
        s[i].value.role == CONTROL_PLANE_ENDPOINT_ROLE && s[i].value.kind == PRIVATE;
      FilledKeeps(s, i);
      assert PrivateEndpoint(d);
    } else if PrivateEndpoint(d) {
      var i :| 0 <= i < |d| && d[i].Some? &&
        d[i].value.role == CONTROL_PLANE_ENDPOINT_ROLE && d[i].value.kind == PRIVATE;
      if i < |s| {
        FilledKeeps(s, i);
      } else {
        AppendedIsDefault(s, i);
      }
    }
  }

  /** A defaulted network spec passes validation exactly when the spec as submitted does and, unless network
      management is skipped, the defaults that will be used fit into the VCN and find their names free. */
  lemma DefaultThenValidate(env: Env, n: HubNetwork)
    requires KnowsDefaults(env)
    ensures Accepts(env, VALID_ROLES, DefaultNetwork(n)) <==>
      && Accepts(env, VALID_ROLES, n)
      && (n.skipNetworkManagement || DefaultsFit(env, n.vcn.fields.subnets, n.vcn.fields.cidr))
  {
    DefaultVisibilityOk(n);
    DefaultSubnetsOk(env, n.vcn.fields.subnets, n.vcn.fields.cidr);
    DefaultNsgsOk(env, n.vcn.networkSecurityGroup, DefaultSubnets(n.vcn.fields.subnets));
  }

  /** A VCN without CIDR, or with one that contains 10.0.0.0/16, has room for the default of every role. */
  lemma RoomForDefaults(env: Env, vcnCidr: string, role: string)
    requires KnowsDefaults(env) && role in CLUSTER_ROLES
    requires vcnCidr == "" ||
      (Parses(env, vcnCidr) && Within(V4Block(10, 0, 0, 0, 16), env.parse(vcnCidr).value))
    ensures Fits(env, vcnCidr, role)
  {
  }

  // ---- Skip flags and IPv6 -------------------------------------------------------------------------

  /** A skipped VCN must be named and skips its gateways, its route table and every subnet, each of which must be
      named; otherwise no subnet is skipped.  Identifiers are pointers that the code compares with new ones: none
      ever equals the empty string, so that a subnet without an identifier, too, must be skipped. */
  predicate SkipsOk(v: HubVcn) {
    if v.fields.skip then
      && v.fields.id.Some?
      && v.internetGateway.skip && v.serviceGateway.skip && v.natGateway.skip && v.routeTable.skip
      && SubnetsSkipped(v.fields.subnets)
    else NoneSkipped(v.fields.subnets)
  }

  predicate SubnetsSkipped(subnets: seq<Option<Subnet>>) {
    forall i :: 0 <= i < |subnets| && subnets[i].Some? ==> subnets[i].value.skip && subnets[i].value.id.Some?
  }

  predicate NoneSkipped(subnets: seq<Option<Subnet>>) {
    forall i :: 0 <= i < |subnets| && subnets[i].Some? ==> !subnets[i].value.skip
  }

  function FirstSubnet(subnets: seq<Option<Subnet>>, role: string): Option<Subnet> {
    if subnets == [] then None
    else if Plays(subnets[0], role) then subnets[0]
    else FirstSubnet(subnets[1..], role)
  }

  predicate Hextet(s: Option<Subnet>) {
    s.Some? && s.value.ipv6Hextet.Some?
  }

  /** The hextets are looked at only if the three single roles all have a subnet. */
  predicate HextetSeen(subnets: seq<Option<Subnet>>) {
    && FirstSubnet(subnets, CONTROL_PLANE_ENDPOINT_ROLE).Some?
    && FirstSubnet(subnets, CONTROL_PLANE_ROLE).Some?
    && FirstSubnet(subnets, SERVICE_LB_ROLE).Some?
    && HextetAssigned(subnets)
  }

  predicate HextetAssigned(subnets: seq<Option<Subnet>>) {
    exists role | role in CLUSTER_ROLES :: Hextet(FirstSubnet(subnets, role))
  }

  predicate Ipv6Ok(v: HubVcn) {
    HextetSeen(v.fields.subnets) ==> v.fields.isIpv6Enabled.Some?
  }

  method ValidateSubnetSkips(subnets: seq<Option<Subnet>>, skip: bool) returns (errs: seq<FieldError>)
    requires NoNil(subnets)
    ensures errs == [] <==> if skip then SubnetsSkipped(subnets) else NoneSkipped(subnets)
  {
    errs := [];
    for i := 0 to |subnets|
      invariant errs == [] <==> forall j :: 0 <= j < i ==>
        if skip then subnets[j].value.skip && subnets[j].value.id.Some? else !subnets[j].value.skip
    {
      var s := subnets[i].value;
      if skip {
        if s.skip && s.id.None? {
          errs := errs + [Invalid("subnet.ID", i)];
        }
        if !s.skip {
          errs := errs + [Invalid("subnet.Skip", i)];
        }
      } else if s.skip {
        errs := errs + [Invalid("subnet.Skip", i)];
      }
    }
  }

  method ValidateSkips(v: HubVcn) returns (errs: seq<FieldError>)
    requires NoNil(v.fields.subnets)
    ensures errs == [] <==> SkipsOk(v)
  {
    errs := [];
    if v.fields.skip {
      if v.fields.id.None? {
        errs := errs + [Invalid("Vcn.ID", 0)];
      }
      if !v.internetGateway.skip {
        errs := errs + [Invalid("InternetGateway.Skip", 0)];
      }
      if !v.serviceGateway.skip {
        errs := errs + [Invalid("ServiceGateway.Skip", 0)];
      }
      if !v.natGateway.skip {
        errs := errs + [Invalid("NATGateway.Skip", 0)];
      }
      if !v.routeTable.skip {
        errs := errs + [Invalid("RouteTable.Skip", 0)];
      }
    }
    var more := ValidateSubnetSkips(v.fields.subnets, v.fields.skip);
    errs := errs + more;
  }

  method ValidateIpv6(v: HubVcn) returns (errs: seq<FieldError>)
    ensures errs == [] <==> Ipv6Ok(v)
  {
    var endpoint := FirstSubnet(v.fields.subnets, CONTROL_PLANE_ENDPOINT_ROLE);
    var machine := FirstSubnet(v.fields.subnets, CONTROL_PLANE_ROLE);
    var service := FirstSubnet(v.fields.subnets, SERVICE_LB_ROLE);
    var node := FirstSubnet(v.fields.subnets, WORKER_ROLE);
    var hextets: seq<Option<string>> := [];
    if endpoint.Some? && machine.Some? && service.Some? {
      hextets := [endpoint.value.ipv6Hextet, machine.value.ipv6Hextet, service.value.ipv6Hextet];
      if node.Some? {
        hextets := hextets + [node.value.ipv6Hextet];
      }
    }
    var found := false;
    for i := 0 to |hextets|
      invariant found <==> exists j :: 0 <= j < i && hextets[j].Some?
    {
      if hextets[i].Some? {
        found := true;
      }
    }
    assert HextetAssigned(v.fields.subnets) <==> Hextet(endpoint) || Hextet(machine) || Hextet(service) || Hextet(node);
    assert hextets != [] ==>
      hextets[0] == endpoint.value.ipv6Hextet && hextets[1] == machine.value.ipv6Hextet
      && hextets[2] == service.value.ipv6Hextet && (node.Some? ==> hextets[3] == node.value.ipv6Hextet);
    assert found <==> HextetSeen(v.fields.subnets);
    errs := if found && v.fields.isIpv6Enabled.None? then [Invalid("IsIpv6Enabled", 0)] else [];
  }

  lemma UserSkipsStay(subnets: seq<Option<Subnet>>)
    ensures var d := DefaultSubnets(subnets);
      && |d| >= |subnets|
      && (forall i :: 0 <= i < |subnets| ==> d[i].Some? == subnets[i].Some?)
      && (forall i :: 0 <= i < |subnets| && subnets[i].Some? ==>
            d[i].value.skip == subnets[i].value.skip && d[i].value.id == subnets[i].value.id)
      && (forall i :: |subnets| <= i < |d| ==> d[i].Some? && !d[i].value.skip)
  {
    var d := DefaultSubnets(subnets);
    forall i | 0 <= i < |subnets|
      ensures d[i].Some? == subnets[i].Some?
      ensures subnets[i].Some? ==> d[i].value.skip == subnets[i].value.skip && d[i].value.id == subnets[i].value.id
    {
      FilledKeeps(subnets, i);
    }
    forall i | |subnets| <= i < |d| ensures d[i].Some? && !d[i].value.skip {
      AppendedIsDefault(subnets, i);
    }
  }

  lemma SkippedAfter(subnets: seq<Option<Subnet>>)
    ensures var d := DefaultSubnets(subnets);
      && (SubnetsSkipped(d) <==> SubnetsSkipped(subnets) && |d| == |subnets|)
      && (NoneSkipped(d) <==> NoneSkipped(subnets))
  {
    var d := DefaultSubnets(subnets);
    UserSkipsStay(subnets);
    if |d| > |subnets| {
      assert d[|subnets|].Some? && !d[|subnets|].value.skip;
    }
  }

  lemma AppendsIff(subnets: seq<Option<Subnet>>)
    ensures |DefaultSubnets(subnets)| == |subnets| <==> forall role | role in CLUSTER_ROLES :: HasSubnet(subnets, role)
  {
    if role :| role in CLUSTER_ROLES && !HasSubnet(subnets, role) {
      var i := AppendedAt(subnets, role);
    } else {
      assert MissingSubnets(subnets) == [];
    }
  }

  /** Under a skipped VCN every subnet must be skipped, and no default is: defaulting keeps the verdict on the
      Skip flags exactly when it appends nothing to a skipped VCN. */
  lemma DefaultThenSkips(v: HubVcn)
    ensures SkipsOk(DefaultVcn(v)) <==>
      SkipsOk(v) && (v.fields.skip ==> forall role | role in CLUSTER_ROLES :: HasSubnet(v.fields.subnets, role))
  {
    SkippedAfter(v.fields.subnets);
    AppendsIff(v.fields.subnets);
  }

  lemma {:induction false} FirstSubnetIs(subnets: seq<Option<Subnet>>, role: string, i: nat)
    requires i < |subnets| && IsFirst(subnets, i, role)
    ensures FirstSubnet(subnets, role) == subnets[i]
  {
    if i > 0 {
      assert !Plays(subnets[0], role);
      FirstSubnetIs(subnets[1..], role, i - 1);
    }
  }

  lemma {:induction false} FirstSubnetExists(subnets: seq<Option<Subnet>>, role: string)
    ensures FirstSubnet(subnets, role).Some? <==> HasSubnet(subnets, role)
    ensures HasSubnet(subnets, role) ==> exists i :: 0 <= i < |subnets| && IsFirst(subnets, i, role)
  {
    if subnets != [] && !Plays(subnets[0], role) {
      FirstSubnetExists(subnets[1..], role);
      if HasSubnet(subnets, role) {
        var k :| 0 <= k < |subnets| && Plays(subnets[k], role);
        assert subnets[1..][k - 1] == subnets[k];
        var i :| 0 <= i < |subnets[1..]| && IsFirst(subnets[1..], i, role);
        assert IsFirst(subnets, i + 1, role);
      }
    } else if subnets != [] {
      assert IsFirst(subnets, 0, role);
    }
  }

  /** A hextet is assigned exactly when the first subnet of one of the four roles has one. */
  lemma HextetAssignedIff(subnets: seq<Option<Subnet>>)
    ensures HextetAssigned(subnets) <==>
      exists i | 0 <= i < |subnets| :: FirstWithHextet(subnets, i)
  {
    if HextetAssigned(subnets) {
      var role :| role in CLUSTER_ROLES && Hextet(FirstSubnet(subnets, role));
      FirstSubnetExists(subnets, role);
      var i :| 0 <= i < |subnets| && IsFirst(subnets, i, role);
      FirstSubnetIs(subnets, role, i);
      assert FirstWithHextet(subnets, i);
    }
    forall i | 0 <= i < |subnets| && FirstWithHextet(subnets, i) ensures HextetAssigned(subnets) {
      FirstSubnetIs(subnets, subnets[i].value.role, i);
    }
  }

  predicate FirstWithHextet(subnets: seq<Option<Subnet>>, i: nat)
    requires i < |subnets|
  {
    && subnets[i].Some? && subnets[i].value.ipv6Hextet.Some?
    && subnets[i].value.role in ["control-plane", "control-plane-endpoint", "worker", "service-lb"]
    && forall j :: 0 <= j < i ==> !Plays(subnets[j], subnets[i].value.role)
  }

  /** A default has no hextet, and filling a CIDR changes none. */
  lemma DefaultHextet(subnets: seq<Option<Subnet>>, role: string)
    requires role in CLUSTER_ROLES
    ensures FirstSubnet(DefaultSubnets(subnets), role).Some?
    ensures Hextet(FirstSubnet(DefaultSubnets(subnets), role)) <==> Hextet(FirstSubnet(subnets, role))
  {
    var d := DefaultSubnets(subnets);
    EveryRoleHasSubnet(subnets, role);
    FirstSubnetExists(subnets, role);
    FirstSubnetExists(d, role);
    var i :| 0 <= i < |d| && IsFirst(d, i, role);
    FirstSubnetIs(d, role, i);
    forall j | 0 <= j < |subnets| ensures Plays(d[j], role) <==> Plays(subnets[j], role) {
      FilledKeeps(subnets, j);
    }
    if i < |subnets| {
      FilledKeeps(subnets, i);
      FirstSubnetIs(subnets, role, i);
    } else {
      AppendedIsDefault(subnets, i);
    }
  }

  /** Defaulting brings the hextets into view: afterwards any first subnet with a hextet demands IPv6. */
  lemma DefaultThenIpv6(v: HubVcn)
    ensures Ipv6Ok(DefaultVcn(v)) <==> (HextetAssigned(v.fields.subnets) ==> v.fields.isIpv6Enabled.Some?)
  {
    forall role | role in CLUSTER_ROLES
      ensures FirstSubnet(DefaultSubnets(v.fields.subnets), role).Some?
      ensures
        Hextet(FirstSubnet(DefaultSubnets(v.fields.subnets), role)) <==> Hextet(FirstSubnet(v.fields.subnets, role))
    {
      DefaultHextet(v.fields.subnets, role);
    }
  }

  // ---- Histories ---------------------------------------------------------------------------------

  datatype OciCluster = OciCluster(name: string, spec: HubSpec)

  predicate LowerAlnum(c: char) {
    'a' <= c <= 'z' || '0' <= c <= '9'
  }

  /** Two to 44 lower-case letters, digits and hyphens, no hyphen at either end. */
  predicate ClusterNameOk(name: string) {
    && 2 <= |name| <= 44 && LowerAlnum(name[0]) && LowerAlnum(name[|name| - 1])
    && forall c :: c in name ==> LowerAlnum(c) || c == '-'
  }

  predicate ValidOcid(ocid: string) {
    |ocid| >= 4 && ocid[..4] == "ocid"
  }

  predicate ValidRegion(region: string) {
    !HasSpace(region)
  }

  predicate ValidCluster(env: Env, c: OciCluster) {
    && Accepts(env, VALID_ROLES, c.spec.network)
    && ClusterNameOk(c.name)
    && ValidOcid(c.spec.fields.compartmentId)
    && c.spec.fields.resourceIdentifier != ""
    && ValidRegion(c.spec.fields.region)
  }

  /** What the load balancer's visibility amounts to; objects from before the field have it empty. */
  function Visibility(c: OciCluster): string {
    DefaultVisibility(c.spec.network.apiServerLb.fields.networkVisibility)
  }

  /** The fields an update must leave alone. */
  predicate SameIdentity(a: OciCluster, b: OciCluster) {
    && a.spec.fields.region == b.spec.fields.region
    && a.spec.fields.resourceIdentifier == b.spec.fields.resourceIdentifier
    && a.spec.fields.compartmentId == b.spec.fields.compartmentId
    && Visibility(a) == Visibility(b)
  }

  predicate HasNoNil(c: OciCluster) {
    NoNil(c.spec.network.vcn.fields.subnets) && NoNil(Listed(c.spec.network.vcn.networkSecurityGroup.list))
  }

  method Validate(env: Env, c: OciCluster) returns (errs: seq<FieldError>)
    requires HasNoNil(c)
    ensures errs == [] <==> ValidCluster(env, c)
  {
    errs := ValidateNetworkSpec(env, VALID_ROLES, c.spec.network);
    if !ClusterNameOk(c.name) {
      errs := errs + [Invalid("name", 0)];
    }
    if |c.spec.fields.compartmentId| <= 0 {
      errs := errs + [Invalid("compartmentId", 0)];
    }
    if |c.spec.fields.compartmentId| > 0 && !ValidOcid(c.spec.fields.compartmentId) {
      errs := errs + [Invalid("compartmentId", 0)];
    }
    if |c.spec.fields.resourceIdentifier| <= 0 {
      errs := errs + [Invalid("ociResourceIdentifier", 0)];
    }
    if !ValidRegion(c.spec.fields.region) {
      errs := errs + [Invalid("region", 0)];
    }
  }

  predicate CreateOk(env: Env, c: OciCluster) {
    Ipv6Ok(c.spec.network.vcn) && SkipsOk(c.spec.network.vcn) && ValidCluster(env, c)
  }

  predicate UpdateOk(env: Env, stored: OciCluster, c: OciCluster) {
    SameIdentity(stored, c) && SkipsOk(c.spec.network.vcn) && ValidCluster(env, c)
  }

  method ValidateCreate(env: Env, c: OciCluster) returns (errs: seq<FieldError>)
    requires HasNoNil(c)
    ensures errs == [] <==> CreateOk(env, c)
  {
    errs := ValidateIpv6(c.spec.network.vcn);
    var more := ValidateSkips(c.spec.network.vcn);
    errs := errs + more;
    more := Validate(env, c);
    errs := errs + more;
  }

  method ValidateUpdate(env: Env, stored: OciCluster, c: OciCluster) returns (errs: seq<FieldError>)
    requires HasNoNil(c)
    ensures errs == [] <==> UpdateOk(env, stored, c)
  {
    errs := [];
    if c.spec.fields.region != stored.spec.fields.region {
      errs := errs + [Invalid("region", 0)];
    }
    if c.spec.fields.resourceIdentifier != stored.spec.fields.resourceIdentifier {
      errs := errs + [Invalid("ociResourceIdentifier", 0)];
    }
    if c.spec.fields.compartmentId != stored.spec.fields.compartmentId {
      errs := errs + [Invalid("compartmentId", 0)];
    }
    if Visibility(c) != Visibility(stored) {
      errs := errs + [Invalid("networkVisibility", 0)];
    }
    var more := ValidateSkips(c.spec.network.vcn);
    errs := errs + more;
    more := Validate(env, c);
    errs := errs + more;
  }

  /** A request to create or update; `uuid` is the identifier drawn for it in case it has none. */
  datatype Request = Create(c: OciCluster, uuid: string) | Update(c: OciCluster, uuid: string)

  function Defaulted(c: OciCluster, uuid: string): OciCluster {
    c.(spec := DefaultSpec(c.spec, uuid))
  }

  function Admit(env: Env, stored: Option<OciCluster>, r: Request): Option<OciCluster> {
    var c := Defaulted(r.c, r.uuid);
    match r
    case Create(_, _) => if stored.None? && CreateOk(env, c) then Some(c) else stored
    case Update(_, _) => if stored.Some? && UpdateOk(env, stored.value, c) then Some(c) else stored
  }

  function History(env: Env, stored: Option<OciCluster>, rs: seq<Request>): Option<OciCluster> {
    if rs == [] then stored else Admit(env, History(env, stored, rs[..|rs| - 1]), rs[|rs| - 1])
  }

  function OrInherited(visibility: string): string {
    if visibility == "" then "Inherited" else visibility
  }

  /** Whatever is stored, even an object from before defaulting existed, keeps its region, compartment,
      identifier and effective visibility through every history of requests. */
  lemma {:induction false} IdentityLasts(env: Env, stored: OciCluster, rs: seq<Request>)
    ensures var h := History(env, Some(stored), rs);
      && h.Some? && SameIdentity(stored, h.value)
      && h.value.spec.fields.region == stored.spec.fields.region
      && h.value.spec.fields.compartmentId == stored.spec.fields.compartmentId
      && h.value.spec.fields.resourceIdentifier == stored.spec.fields.resourceIdentifier
      && OrInherited(h.value.spec.network.apiServerLb.fields.networkVisibility) ==
           OrInherited(stored.spec.network.apiServerLb.fields.networkVisibility)
  {
    if rs != [] {
      IdentityLasts(env, stored, rs[..|rs| - 1]);
    }
  }

  /** An update that blanks the identifier is refused: the identifier drawn for it is not the stored one. */
  lemma BlankIdentifierRefused(env: Env, stored: OciCluster, c: OciCluster, uuid: string)
    requires c.spec.fields.resourceIdentifier == "" && uuid != stored.spec.fields.resourceIdentifier
    ensures Admit(env, Some(stored), Update(c, uuid)) == Some(stored)
  {
  }

  ghost predicate Sound(env: Env, c: OciCluster) {
    ValidCluster(env, c) && SkipsOk(c.spec.network.vcn) && Settled(c.spec)
  }

  /** Every object that came in through admission is valid, needs no further defaults, and is never public with
      a private control-plane-endpoint subnet. */
  lemma {:induction false} AdmittedSound(env: Env, rs: seq<Request>)
    requires forall i :: 0 <= i < |rs| ==> rs[i].uuid != ""
    ensures var h := History(env, None, rs); h.Some? ==>
      Sound(env, h.value) &&
      !(Visibility(h.value) == VISIBILITY_PUBLIC && PrivateEndpoint(h.value.spec.network.vcn.fields.subnets))
  {
    if rs != [] {
      var n := |rs| - 1;
      AdmittedSound(env, rs[..n]);
      DefaultSettles(rs[n].c.spec, rs[n].uuid);
    }
  }

  /** Submitting a stored object again, as every controller does, is accepted and changes nothing. */
  lemma ResubmissionAccepted(env: Env, rs: seq<Request>, uuid: string)
    requires (forall i :: 0 <= i < |rs| ==> rs[i].uuid != "") && uuid != ""
    requires History(env, None, rs).Some?
    ensures var c := History(env, None, rs).value;
      UpdateOk(env, c, Defaulted(c, uuid)) && Defaulted(c, uuid) == c
  {
    AdmittedSound(env, rs);
    SettledIff(History(env, None, rs).value.spec, uuid);
  }

  /** What a submitted network spec needs so that defaulting does not spoil it. */
  predicate SurvivesDefaults(env: Env, n: HubNetwork) {
    n.skipNetworkManagement ||
    (&& DefaultsFit(env, n.vcn.fields.subnets, n.vcn.fields.cidr)
     && (n.vcn.fields.skip ==> forall role | role in CLUSTER_ROLES :: HasSubnet(n.vcn.fields.subnets, role)))
  }

  /** An update is admitted exactly when the object as submitted keeps the immutable fields, passes as it is and
      survives its defaults: they fit, and none is appended to a skipped VCN. */
  lemma UpdateAcceptedIff(env: Env, stored: OciCluster, c: OciCluster, uuid: string)
    requires KnowsDefaults(env) && uuid != "" && uuid != stored.spec.fields.resourceIdentifier
    ensures UpdateOk(env, stored, Defaulted(c, uuid)) <==>
      && SameIdentity(stored, c) && ValidCluster(env, c) && SkipsOk(c.spec.network.vcn)
      && SurvivesDefaults(env, c.spec.network)
  {
    DefaultThenValidate(env, c.spec.network);
    DefaultThenSkips(c.spec.network.vcn);
  }

  /** So an object from before admission can be submitted again exactly when it passes and survives. */
  lemma OldObjectAccepted(env: Env, c: OciCluster, uuid: string)
    requires KnowsDefaults(env) && uuid != "" && uuid != c.spec.fields.resourceIdentifier
    ensures UpdateOk(env, c, Defaulted(c, uuid)) <==>
      ValidCluster(env, c) && SkipsOk(c.spec.network.vcn) && SurvivesDefaults(env, c.spec.network)
  {
    UpdateAcceptedIff(env, c, c, uuid);
  }

  function WithIdentifier(c: OciCluster, uuid: string): OciCluster {
    if c.spec.fields.resourceIdentifier != "" then c
    else c.(spec := c.spec.(fields := c.spec.fields.(resourceIdentifier := uuid)))
  }

  /** A new cluster is admitted exactly when, given an identifier, it is valid as submitted, survives its
      defaults, and enables IPv6 if any subnet it puts first for a role has a hextet. */
  lemma CreateAcceptedIff(env: Env, c: OciCluster, uuid: string)
    requires KnowsDefaults(env) && uuid != ""
    ensures CreateOk(env, Defaulted(c, uuid)) <==>
      && ValidCluster(env, WithIdentifier(c, uuid)) && SkipsOk(c.spec.network.vcn)
      && SurvivesDefaults(env, c.spec.network)
      && (if c.spec.network.skipNetworkManagement then Ipv6Ok(c.spec.network.vcn)
          else HextetAssigned(c.spec.network.vcn.fields.subnets) ==> c.spec.network.vcn.fields.isIpv6Enabled.Some?)
  {
    DefaultThenValidate(env, c.spec.network);
    DefaultThenSkips(c.spec.network.vcn);
    DefaultThenIpv6(c.spec.network.vcn);
  }

  // ---- What admission amounts to --------------------------------------------------------------------

  /** Both ends of the range are given. */
  predicate Bounded(r: Option<PortRange>) {
    r.Some? ==> r.value.max.Some? && r.value.min.Some?
  }

  /** A rule says what it is about. */
  predicate Explicit(env: Env, r: Rule) {
    && r.protocol.Some?
    && (r.tcp.Some? ==> Bounded(r.tcp.value.destination) && Bounded(r.tcp.value.source))
    && (r.udp.Some? ==> Bounded(r.udp.value.destination) && Bounded(r.udp.value.source))
    && (r.icmp.Some? ==> r.icmp.value.kind.Some?)
    && (r.peer.None? ==> r.peerType == "SERVICE_CIDR_BLOCK")
    && (r.peer.Some? && r.peerType == "CIDR_BLOCK" ==> env.parse(r.peer.value).Some?)
  }

  lemma RuleAcceptedIff(env: Env, r: Rule)
    ensures RuleOk(env, r) <==> Explicit(env, r)
  {
  }

  predicate AllExplicit(env: Env, rules: Option<seq<Rule>>) {
    rules.Some? ==> forall r :: r in rules.value ==> Explicit(env, r)
  }

  lemma RulesExplicit(env: Env, rules: Option<seq<Rule>>)
    requires RulesOk(env, rules)
    ensures AllExplicit(env, rules)
  {
    if rules.Some? {
      forall r | r in rules.value ensures Explicit(env, r) {
        RuleAcceptedIff(env, r);
      }
    }
  }

  lemma NsgsExplicit(env: Env, roles: seq<string>, list: Option<seq<Option<HubNsg>>>)
    requires NsgsOk(env, roles, list)
    ensures forall nsg :: Some(nsg) in Listed(list) ==>
      AllExplicit(env, nsg.ingressRules) && AllExplicit(env, nsg.egressRules)
  {
    forall nsg | Some(nsg) in Listed(list)
      ensures AllExplicit(env, nsg.ingressRules) && AllExplicit(env, nsg.egressRules)
    {
      var i :| 0 <= i < |Listed(list)| && Listed(list)[i] == Some(nsg);
      assert NsgOk(env, roles, list.value[i].value);
      RulesExplicit(env, nsg.ingressRules);
      RulesExplicit(env, nsg.egressRules);
    }
  }

  /** The Skip flags of an admitted object, told field by field. */
  ghost predicate SkipsTold(v: HubVcn) {
    && (v.fields.skip ==> v.fields.id.Some? && v.routeTable.skip)
    && (v.fields.skip ==> v.internetGateway.skip && v.natGateway.skip && v.serviceGateway.skip)
    && (forall s :: Some(s) in v.fields.subnets ==> s.skip == v.fields.skip && (s.skip ==> s.id.Some?))
  }

  lemma SkipsToldIff(v: HubVcn)
    ensures SkipsOk(v) <==> SkipsTold(v)
  {
    if SkipsTold(v) {
      forall i | 0 <= i < |v.fields.subnets| && v.fields.subnets[i].Some?
        ensures v.fields.subnets[i].value.skip == v.fields.skip
        ensures v.fields.skip ==> v.fields.subnets[i].value.id.Some?
      {
        assert Some(v.fields.subnets[i].value) in v.fields.subnets;
      }
    }
  }

  /** Every subnet is there, has a role that exists, a name without white space and a block that parses and starts in
      that of the VCN, if these are given; names differ. */
  ghost predicate SubnetsTold(env: Env, subnets: seq<Option<Subnet>>, vcnCidr: string) {
    && None !in subnets
    && (forall s :: Some(s) in subnets ==>
          && s.role in ["control-plane", "control-plane-endpoint", "worker", "service-lb", "custom"]
          && (forall ch :: ch in s.name ==> !IsSpace(ch))
          && (s.cidr != "" ==> env.parse(s.cidr).Some?)
          && (s.cidr != "" && vcnCidr != "" ==>
                env.parse(vcnCidr).Some? && Contains(env.parse(vcnCidr).value, env.parse(s.cidr).value.base)))
    && (forall i, j | 0 <= i < j < |subnets| && subnets[i].Some? && subnets[j].Some? ::
          subnets[i].value.name == subnets[j].value.name ==> subnets[i].value.name == "")
  }

  lemma SubnetsToldIff(env: Env, subnets: seq<Option<Subnet>>, vcnCidr: string)
    ensures SubnetsOk(env, VALID_ROLES, subnets, vcnCidr) <==> SubnetsTold(env, subnets, vcnCidr)
  {
    if SubnetsTold(env, subnets, vcnCidr) {
      forall i | 0 <= i < |subnets| ensures subnets[i].Some? {
        assert subnets[i] in subnets;
      }
      forall i | 0 <= i < |subnets| ensures SubnetOk(env, VALID_ROLES, subnets[i].value, vcnCidr) {
        assert Some(subnets[i].value) in subnets;
      }
    }
  }

  /** In every history, the stored object is what the checks are for: its identifiers are given, its subnets have roles
      that exist and blocks that start inside the VCN, its rules are explicit, and its Skip flags are consistent. */
  lemma AdmittedMeans(env: Env, rs: seq<Request>)
    requires (forall i :: 0 <= i < |rs| ==> rs[i].uuid != "") && History(env, None, rs).Some?
    ensures var c := History(env, None, rs).value;
      var v := c.spec.network.vcn;
      && c.spec.fields.resourceIdentifier != "" && "ocid" <= c.spec.fields.compartmentId
      && (forall ch :: ch in c.spec.fields.region ==> !IsSpace(ch))
      && SubnetsTold(env, v.fields.subnets, v.fields.cidr)
      && (c.spec.network.apiServerLb.fields.networkVisibility == "Public" ==>
            forall s :: Some(s) in v.fields.subnets ==> !(s.role == "control-plane-endpoint" && s.kind == "private"))
      && (forall nsg :: Some(nsg) in Listed(v.networkSecurityGroup.list) ==>
            AllExplicit(env, nsg.ingressRules) && AllExplicit(env, nsg.egressRules))
      && SkipsTold(v)
  {
    var v := History(env, None, rs).value.spec.network.vcn;
    AdmittedSound(env, rs);
    SkipsToldIff(v);
    SubnetsToldIff(env, v.fields.subnets, v.fields.cidr);
    NsgsExplicit(env, VALID_ROLES, v.networkSecurityGroup.list);
  }

  /** The network spec leaves everything to the defaults. */
  predicate LeftToDefaults(env: Env, n: HubNetwork) {
    && n.vcn.fields.subnets == [] && n.vcn.fields.cidr == "" && !n.vcn.fields.skip
    && n.vcn.networkSecurityGroup.list.None?
    && env.healthy(n.apiServerLb.fields.nlbSpec.backendSetDetails.healthChecker)
  }

  lemma LeftToDefaultsPasses(env: Env, n: HubNetwork)
    requires KnowsDefaults(env) && LeftToDefaults(env, n)
    ensures Accepts(env, VALID_ROLES, n) && SkipsOk(n.vcn) && !HextetAssigned(n.vcn.fields.subnets)
    ensures SurvivesDefaults(env, n)
  {
    forall role | role in CLUSTER_ROLES ensures Fits(env, "", role) {
      RoomForDefaults(env, "", role);
    }
  }

  lemma FieldsPass(c: OciCluster)
    requires c.name == "ab" && c.spec.fields.compartmentId == "ocid" && c.spec.fields.region == ""
    ensures ClusterNameOk(c.name) && ValidOcid(c.spec.fields.compartmentId) && ValidRegion(c.spec.fields.region)
  {
  }

  /** A cluster that leaves everything to the defaults is admitted. */
  lemma MinimalAdmitted(env: Env, c: OciCluster, uuid: string)
    requires KnowsDefaults(env) && uuid != "" && LeftToDefaults(env, c.spec.network)
    requires c.name == "ab" && c.spec.fields.compartmentId == "ocid" && c.spec.fields.region == ""
    ensures CreateOk(env, Defaulted(c, uuid))
  {
    LeftToDefaultsPasses(env, c.spec.network);
    FieldsPass(c);
    assert ValidCluster(env, WithIdentifier(c, uuid));
    CreateAcceptedIff(env, c, uuid);
  }
}
