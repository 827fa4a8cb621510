/** The validators of a network spec in both API versions, and how their verdicts relate. */
module Validation {
  import opened Optional
  import opened ApiTypes
  import opened Cidr
  import NetworkConversion

  /** The library calls of the validators: CIDR parsing and the checks on the health checker. */
  datatype Env = Env(parse: string -> Option<Block>, healthy: HealthChecker -> bool)

  datatype FieldError = Invalid(field: string, index: nat) | Duplicate(name: string)

  const CONTROL_PLANE_ROLE: string := "control-plane"
  const CONTROL_PLANE_ENDPOINT_ROLE: string := "control-plane-endpoint"
  const WORKER_ROLE: string := "worker"
  const SERVICE_LB_ROLE: string := "service-lb"
  const CUSTOM_ROLE: string := "custom"

  /** The roles of a cluster in v1beta1, which are also the roles that have defaults. */
  const CLUSTER_ROLES: seq<string> :=
    [CONTROL_PLANE_ROLE, CONTROL_PLANE_ENDPOINT_ROLE, WORKER_ROLE, SERVICE_LB_ROLE]

  /** The roles of a cluster in v1beta2. */
  const VALID_ROLES: seq<string> := CLUSTER_ROLES + [CUSTOM_ROLE]

  const CIDR_BLOCK: string := "CIDR_BLOCK"
  const SERVICE_CIDR_BLOCK: string := "SERVICE_CIDR_BLOCK"
  const PRIVATE: string := "private"
  const VISIBILITY_PUBLIC: string := "Public"

  // ---- What the two versions check alike ---------------------------------------------------------

  /** The white space of Go's regular expressions. */
  predicate IsSpace(c: char) {
    c == ' ' || c == '\t' || c == '\n' || c == '\U{000C}' || c == '\r'
  }

  predicate HasSpace(s: string) {
    exists c :: c in s && IsSpace(c)
  }

  predicate Parses(env: Env, cidr: string) {
    env.parse(cidr).Some?
  }

  predicate VcnCidrOk(env: Env, cidr: string) {
    cidr != "" ==> Parses(env, cidr)
  }

  /** An empty CIDR passes; any other must parse, and its address must lie in the VCN's block if that is set. */
  predicate SubnetCidrOk(env: Env, cidr: string, vcnCidr: string) {
    cidr != "" ==>
      && Parses(env, cidr)
      && (vcnCidr != "" ==> Parses(env, vcnCidr) && Contains(env.parse(vcnCidr).value, env.parse(cidr).value.base))
  }

  predicate NoNil<T>(list: seq<Option<T>>) {
    forall i :: 0 <= i < |list| ==> list[i].Some?
  }

  predicate SubnetOk(env: Env, roles: seq<string>, s: Subnet, vcnCidr: string) {
    !HasSpace(s.name) && s.role in roles && SubnetCidrOk(env, s.cidr, vcnCidr)
  }

  predicate NamesDiffer(subnets: seq<Option<Subnet>>)
    requires NoNil(subnets)
  {
    forall i, j | 0 <= i < j < |subnets| && subnets[i].value.name != "" ::
      subnets[i].value.name != subnets[j].value.name
  }

  /** Every subnet passes by itself, and no two have the same non-empty name. */
  predicate SubnetsOk(env: Env, roles: seq<string>, subnets: seq<Option<Subnet>>, vcnCidr: string) {
    && NoNil(subnets)
    && (forall i :: 0 <= i < |subnets| ==> SubnetOk(env, roles, subnets[i].value, vcnCidr))
    && NamesDiffer(subnets)
  }

  method ValidateVcnCidr(env: Env, cidr: string) returns (errs: seq<FieldError>)
    ensures errs == [] <==> Parses(env, cidr)
  {
    errs := [];
    if env.parse(cidr).None? {
      errs := errs + [Invalid("cidr", 0)];
    }
  }

  method ValidateSubnetCidr(env: Env, cidr: string, vcnCidr: string, i: nat) returns (errs: seq<FieldError>)
    ensures errs == [] <==> SubnetCidrOk(env, cidr, vcnCidr)
  {
    errs := [];
    if |cidr| > 0 {
      var subnet := env.parse(cidr);
      if subnet.None? {
        errs := errs + [Invalid("cidr", i)];
      }
      if |vcnCidr| > 0 {
        var vcn := env.parse(vcnCidr);
        var found := false;
        if vcn.Some? && subnet.Some? && Contains(vcn.value, subnet.value.base) {
          found := true;
        }
        if !found {
          errs := errs + [Invalid("cidr", i)];
        }
      }
    }
  }

  method ValidateRole(roles: seq<string>, role: string) returns (ok: bool)
    ensures ok <==> role in roles
  {
    for i := 0 to |roles|
      invariant role !in roles[..i]
    {
      if role == roles[i] {
        return true;
      }
    }
    assert roles[..|roles|] == roles;
    return false;
  }

  method ValidateSubnet(env: Env, roles: seq<string>, s: Subnet, vcnCidr: string, i: nat)
    returns (errs: seq<FieldError>)
    ensures errs == [] <==> SubnetOk(env, roles, s, vcnCidr)
  {
    errs := [];
    if |s.name| > 0 && HasSpace(s.name) {
      errs := errs + [Invalid("name", i)];
    }
    var ok := ValidateRole(roles, s.role);
    if !ok {
      errs := errs + [Invalid("role", i)];
    }
    var cidrErrors := ValidateSubnetCidr(env, s.cidr, vcnCidr, i);
    errs := errs + cidrErrors;
  }

  /** The names of the first `n` subnets: what the map of the loop below holds. */
  ghost predicate NamesUpTo(names: map<string, bool>, subnets: seq<Option<Subnet>>, n: nat)
    requires NoNil(subnets) && n <= |subnets|
  {
    forall name :: name in names <==> name != "" && exists j :: 0 <= j < n && subnets[j].value.name == name
  }

  lemma OneMoreName(subnets: seq<Option<Subnet>>, n: nat)
    requires NoNil(subnets) && n < |subnets|
    ensures NamesDiffer(subnets[..n + 1]) <==>
      NamesDiffer(subnets[..n]) &&
      (subnets[n].value.name == "" || forall j :: 0 <= j < n ==> subnets[j].value.name != subnets[n].value.name)
  {
  }

  method ValidateSubnets(env: Env, roles: seq<string>, subnets: seq<Option<Subnet>>, vcnCidr: string)
    returns (errs: seq<FieldError>)
    requires NoNil(subnets)
    ensures errs == [] <==> SubnetsOk(env, roles, subnets, vcnCidr)
  {
    errs := [];
    var names: map<string, bool> := map[];
    for i := 0 to |subnets|
      invariant NamesUpTo(names, subnets, i)
      invariant errs == [] <==>
        (forall j :: 0 <= j < i ==> SubnetOk(env, roles, subnets[j].value, vcnCidr)) && NamesDiffer(subnets[..i])
    {
      OneMoreName(subnets, i);
      var s := subnets[i].value;
      if |s.name| > 0 {
        if s.name in names {
          errs := errs + [Duplicate(s.name)];
        }
        names := names[s.name := true];
      }
      var subnetErrors := ValidateSubnet(env, roles, s, vcnCidr, i);
      errs := errs + subnetErrors;
    }
    assert subnets[..|subnets|] == subnets;
  }

  // ---- v1beta2 -----------------------------------------------------------------------------------

  predicate PortsOk(options: Option<PortOptions>) {
    options.Some? ==>
      && (options.value.destination.Some? ==> PortRangeOk(options.value.destination.value))
      && (options.value.source.Some? ==> PortRangeOk(options.value.source.value))
  }

  predicate PortRangeOk(r: PortRange) {
    r.max.Some? && r.min.Some?
  }

  /** What v1beta2 demands of a rule beyond v1beta1. */
  predicate RuleComplete(r: Rule) {
    && PortsOk(r.udp) && PortsOk(r.tcp)
    && (r.icmp.Some? ==> r.icmp.value.kind.Some?)
    && (r.peerType != SERVICE_CIDR_BLOCK ==> r.peer.Some?)
    && r.protocol.Some?
  }

  /** A rule whose peer is a CIDR block names one that parses. */
  predicate RuleParses(env: Env, r: Rule) {
    r.peerType == CIDR_BLOCK && r.peer.Some? ==> Parses(env, r.peer.value)
  }

  predicate RulesOk(env: Env, rules: Option<seq<Rule>>) {
    rules.Some? ==> forall i | 0 <= i < |rules.value| ::
      RuleComplete(rules.value[i]) && RuleParses(env, rules.value[i])
  }

  predicate NsgOk(env: Env, roles: seq<string>, n: HubNsg) {
    n.role in roles && RulesOk(env, n.egressRules) && RulesOk(env, n.ingressRules)
  }

  predicate NsgsOk(env: Env, roles: seq<string>, list: Option<seq<Option<HubNsg>>>) {
    list.Some? ==>
      NoNil(list.value) && forall i :: 0 <= i < |list.value| ==> NsgOk(env, roles, list.value[i].value)
  }

  predicate PrivateEndpoint(subnets: seq<Option<Subnet>>) {
    exists i :: 0 <= i < |subnets| && subnets[i].Some? &&
      subnets[i].value.role == CONTROL_PLANE_ENDPOINT_ROLE && subnets[i].value.kind == PRIVATE
  }

  predicate VisibilityOk(n: HubNetwork) {
    n.apiServerLb.fields.networkVisibility == VISIBILITY_PUBLIC ==> !PrivateEndpoint(n.vcn.fields.subnets)
  }

  /** The network spec passes the v1beta2 validator. */
  predicate Accepts(env: Env, roles: seq<string>, n: HubNetwork) {
    && VcnCidrOk(env, n.vcn.fields.cidr)
    && SubnetsOk(env, roles, n.vcn.fields.subnets, n.vcn.fields.cidr)
    && NsgsOk(env, roles, n.vcn.networkSecurityGroup.list)
    && env.healthy(n.apiServerLb.fields.nlbSpec.backendSetDetails.healthChecker)
    && VisibilityOk(n)
  }

  method ValidatePortRange(r: PortRange, i: nat) returns (errs: seq<FieldError>)
    ensures errs == [] <==> PortRangeOk(r)
  {
    errs := [];
    if r.max.None? {
      errs := errs + [Invalid("portRange", i)];
    }
    if r.min.None? {
      errs := errs + [Invalid("portRange", i)];
    }
  }

  method ValidatePorts(options: Option<PortOptions>, i: nat) returns (errs: seq<FieldError>)
    ensures errs == [] <==> PortsOk(options)
  {
    errs := [];
    if options.Some? {
      if options.value.destination.Some? {
        var more := ValidatePortRange(options.value.destination.value, i);
        errs := errs + more;
      }
      if options.value.source.Some? {
        var more := ValidatePortRange(options.value.source.value, i);
        errs := errs + more;
      }
    }
  }

  method ValidateRule(env: Env, r: Rule, i: nat) returns (errs: seq<FieldError>)
    ensures errs == [] <==> RuleComplete(r) && RuleParses(env, r)
  {
    errs := ValidatePorts(r.udp, i);
    var more := ValidatePorts(r.tcp, i);
    errs := errs + more;
    if r.icmp.Some? && r.icmp.value.kind.None? {
      errs := errs + [Invalid("icmpOptions", i)];
    }
    if r.peerType != SERVICE_CIDR_BLOCK && r.peer.None? {
      errs := errs + [Invalid("peer", i)];
    }
    if r.protocol.None? {
      errs := errs + [Invalid("protocol", i)];
    }
    if r.peerType == CIDR_BLOCK && r.peer.Some? {
      more := ValidateVcnCidr(env, r.peer.value);
      errs := errs + more;
    }
  }

  method ValidateRules(env: Env, rules: Option<seq<Rule>>) returns (errs: seq<FieldError>)
    ensures errs == [] <==> RulesOk(env, rules)
  {
    errs := [];
    var list := if rules.Some? then rules.value else [];
    for i := 0 to |list|
      invariant errs == [] <==> forall j :: 0 <= j < i ==> RuleComplete(list[j]) && RuleParses(env, list[j])
    {
      var more := ValidateRule(env, list[i], i);
      errs := errs + more;
    }
  }

  method ValidateNsgs(env: Env, roles: seq<string>, list: seq<Option<HubNsg>>) returns (errs: seq<FieldError>)
    requires NoNil(list)
    ensures errs == [] <==> NsgsOk(env, roles, Some(list))
  {
    errs := [];
    for i := 0 to |list|
      invariant errs == [] <==> forall j :: 0 <= j < i ==> NsgOk(env, roles, list[j].value)
    {
      var ok := ValidateRole(roles, list[i].value.role);
      if !ok {
        errs := errs + [Invalid("role", i)];
      }
      var egress := ValidateRules(env, list[i].value.egressRules);
      var ingress := ValidateRules(env, list[i].value.ingressRules);
      errs := errs + egress + ingress;
    }
  }

  method HasPrivateEndpoint(subnets: seq<Option<Subnet>>) returns (found: bool)
    ensures found <==> PrivateEndpoint(subnets)
  {
    for i := 0 to |subnets|
      invariant !PrivateEndpoint(subnets[..i])
    {
      if subnets[i].Some? && subnets[i].value.role == CONTROL_PLANE_ENDPOINT_ROLE && subnets[i].value.kind == PRIVATE {
        return true;
      }
      assert forall j :: 0 <= j < i ==> subnets[..i + 1][j] == subnets[..i][j];
    }
    assert subnets[..|subnets|] == subnets;
    return false;
  }

  /** The validators dereference every subnet and NSG, so none may be nil. */
  method ValidateNetworkSpec(env: Env, roles: seq<string>, n: HubNetwork) returns (errs: seq<FieldError>)
    requires NoNil(n.vcn.fields.subnets)
    requires n.vcn.networkSecurityGroup.list.Some? ==> NoNil(n.vcn.networkSecurityGroup.list.value)
    ensures errs == [] <==> Accepts(env, roles, n)
  {
    errs := [];
    if |n.vcn.fields.cidr| > 0 {
      var more := ValidateVcnCidr(env, n.vcn.fields.cidr);
      errs := errs + more;
    }
    var more := ValidateSubnets(env, roles, n.vcn.fields.subnets, n.vcn.fields.cidr);
    errs := errs + more;
    if n.vcn.networkSecurityGroup.list.Some? {
      more := ValidateNsgs(env, roles, n.vcn.networkSecurityGroup.list.value);
      errs := errs + more;
    }
    if !env.healthy(n.apiServerLb.fields.nlbSpec.backendSetDetails.healthChecker) {
      errs := errs + [Invalid("healthChecker", 0)];
    }
    if n.apiServerLb.fields.networkVisibility == VISIBILITY_PUBLIC {
      var found := HasPrivateEndpoint(n.vcn.fields.subnets);
      if found {
        errs := errs + [Invalid("networkVisibility", 0)];
      }
    }
  }

  // ---- v1beta1 -----------------------------------------------------------------------------------

  predicate SpokeRulesOk(env: Env, rules: Option<seq<SpokeRule>>) {
    rules.Some? ==> forall i :: 0 <= i < |rules.value| ==> RuleParses(env, rules.value[i].rule)
  }

  predicate SpokeNsgOk(env: Env, roles: seq<string>, n: SpokeNsg) {
    n.role in roles && SpokeRulesOk(env, n.egressRules) && SpokeRulesOk(env, n.ingressRules)
  }

  predicate SpokeNsgsOk(env: Env, roles: seq<string>, list: Option<seq<Option<SpokeNsg>>>) {
    list.Some? ==>
      NoNil(list.value) && forall i :: 0 <= i < |list.value| ==> SpokeNsgOk(env, roles, list.value[i].value)
  }

  /** The network spec passes the v1beta1 validator. */
  predicate SpokeAccepts(env: Env, roles: seq<string>, n: SpokeNetwork) {
    && VcnCidrOk(env, n.vcn.fields.cidr)
    && SubnetsOk(env, roles, n.vcn.fields.subnets, n.vcn.fields.cidr)
    && SpokeNsgsOk(env, roles, n.vcn.networkSecurityGroups)
  }

  method ValidateSpokeRules(env: Env, rules: Option<seq<SpokeRule>>) returns (errs: seq<FieldError>)
    ensures errs == [] <==> SpokeRulesOk(env, rules)
  {
    errs := [];
    var list := if rules.Some? then rules.value else [];
    for i := 0 to |list|
      invariant errs == [] <==> forall j :: 0 <= j < i ==> RuleParses(env, list[j].rule)
    {
      if list[i].rule.peerType == CIDR_BLOCK && list[i].rule.peer.Some? {
        if env.parse(list[i].rule.peer.value).None? {
          errs := errs + [Invalid("peer", i)];
        }
      }
    }
  }

  method ValidateSpokeNsgs(env: Env, roles: seq<string>, list: seq<Option<SpokeNsg>>) returns (errs: seq<FieldError>)
    requires NoNil(list)
    ensures errs == [] <==> SpokeNsgsOk(env, roles, Some(list))
  {
    errs := [];
    for i := 0 to |list|
      invariant errs == [] <==> forall j :: 0 <= j < i ==> SpokeNsgOk(env, roles, list[j].value)
    {
      var ok := ValidateRole(roles, list[i].value.role);
      if !ok {
        errs := errs + [Invalid("role", i)];
      }
      var egress := ValidateSpokeRules(env, list[i].value.egressRules);
      var ingress := ValidateSpokeRules(env, list[i].value.ingressRules);
      errs := errs + egress + ingress;
    }
  }

  method ValidateSpokeNetworkSpec(env: Env, roles: seq<string>, n: SpokeNetwork) returns (errs: seq<FieldError>)
    requires NoNil(n.vcn.fields.subnets)
    requires n.vcn.networkSecurityGroups.Some? ==> NoNil(n.vcn.networkSecurityGroups.value)
    ensures errs == [] <==> SpokeAccepts(env, roles, n)
  {
    errs := [];
    if |n.vcn.fields.cidr| > 0 {
      var more := ValidateVcnCidr(env, n.vcn.fields.cidr);
      errs := errs + more;
    }
    var more := ValidateSubnets(env, roles, n.vcn.fields.subnets, n.vcn.fields.cidr);
    errs := errs + more;
    if n.vcn.networkSecurityGroups.Some? {
      more := ValidateSpokeNsgs(env, roles, n.vcn.networkSecurityGroups.value);
      errs := errs + more;
    }
  }

  // ---- The two verdicts --------------------------------------------------------------------------

  predicate RulesComplete(rules: Option<seq<Rule>>) {
    rules.Some? ==> forall i :: 0 <= i < |rules.value| ==> RuleComplete(rules.value[i])
  }

  /** What v1beta2 checks and v1beta1 does not. */
  predicate NewChecks(env: Env, n: HubNetwork) {
    var list := n.vcn.networkSecurityGroup.list;
    && (list.Some? ==> forall i | 0 <= i < |list.value| && list.value[i].Some? ::
          RulesComplete(list.value[i].value.egressRules) && RulesComplete(list.value[i].value.ingressRules))
    && env.healthy(n.apiServerLb.fields.nlbSpec.backendSetDetails.healthChecker)
    && VisibilityOk(n)
  }

  /** For one object in both versions: v1beta2 accepts it exactly when v1beta1 does and the new checks pass. */
  lemma Verdicts(env: Env, roles: seq<string>, s: SpokeNetwork, h: HubNetwork)
    requires NetworkConversion.NetworkAgrees(s, h)
    ensures Accepts(env, roles, h) <==> SpokeAccepts(env, roles, s) && NewChecks(env, h)
  {
  }

  /** Down-conversion into an object with nothing old to show keeps acceptance, for every list of roles. */
  lemma DownKeepsAcceptance(env: Env, roles: seq<string>, h: HubNetwork, out: SpokeNetwork)
    requires NetworkConversion.VcnOverwritten(h.vcn, out.vcn) && Accepts(env, roles, h)
    ensures SpokeAccepts(env, roles, NetworkConversion.DownNetwork(h, out))
  {
  }

  predicate HasCustomSubnet(subnets: seq<Option<Subnet>>) {
    exists i :: 0 <= i < |subnets| && subnets[i].Some? && subnets[i].value.role == CUSTOM_ROLE
  }

  predicate HasCustomNsg(list: Option<seq<Option<HubNsg>>>) {
    list.Some? && exists i :: 0 <= i < |list.value| && list.value[i].Some? && list.value[i].value.role == CUSTOM_ROLE
  }

  lemma CustomSubnets(env: Env, subnets: seq<Option<Subnet>>, vcnCidr: string)
    requires SubnetsOk(env, VALID_ROLES, subnets, vcnCidr)
    ensures SubnetsOk(env, CLUSTER_ROLES, subnets, vcnCidr) <==> !HasCustomSubnet(subnets)
  {
    forall i | 0 <= i < |subnets|
      ensures SubnetOk(env, CLUSTER_ROLES, subnets[i].value, vcnCidr) <==> subnets[i].value.role != CUSTOM_ROLE
    {
      assert SubnetOk(env, VALID_ROLES, subnets[i].value, vcnCidr);
    }
  }

  lemma CustomNsgs(env: Env, list: Option<seq<Option<HubNsg>>>)
    requires NsgsOk(env, VALID_ROLES, list)
    ensures NsgsOk(env, CLUSTER_ROLES, list) <==> !HasCustomNsg(list)
  {
    if list.Some? {
      forall i | 0 <= i < |list.value|
        ensures NsgOk(env, CLUSTER_ROLES, list.value[i].value) <==> list.value[i].value.role != CUSTOM_ROLE
      {
        assert NsgOk(env, VALID_ROLES, list.value[i].value);
      }
    }
  }

  /** With each version's own roles, what v1beta2 accepts is accepted after down-conversion exactly when it has
      no subnet and no NSG of the role that v1beta1 does not know. */
  lemma DownKeepsAcceptanceIff(env: Env, h: HubNetwork, out: SpokeNetwork)
    requires NetworkConversion.VcnOverwritten(h.vcn, out.vcn) && Accepts(env, VALID_ROLES, h)
    ensures SpokeAccepts(env, CLUSTER_ROLES, NetworkConversion.DownNetwork(h, out)) <==>
      !HasCustomSubnet(h.vcn.fields.subnets) && !HasCustomNsg(h.vcn.networkSecurityGroup.list)
  {
    NetworkConversion.DownNetworkAgrees(h, out);
    Verdicts(env, CLUSTER_ROLES, NetworkConversion.DownNetwork(h, out), h);
    Verdicts(env, VALID_ROLES, NetworkConversion.DownNetwork(h, out), h);
    CustomSubnets(env, h.vcn.fields.subnets, h.vcn.fields.cidr);
    CustomNsgs(env, h.vcn.networkSecurityGroup.list);
  }

  /** A network with a single subnet, of the role that v1beta1 does not know, is accepted and then refused. */
  lemma CustomSubnetRefused(env: Env, n: HubNetwork, out: SpokeNetwork) returns (h: HubNetwork)
    requires env.healthy(n.apiServerLb.fields.nlbSpec.backendSetDetails.healthChecker)
    requires out.vcn.networkSecurityGroups.None?
    ensures Accepts(env, VALID_ROLES, h) && !SpokeAccepts(env, CLUSTER_ROLES, NetworkConversion.DownNetwork(h, out))
  {
    var s := Subnet(CUSTOM_ROLE, None, "", false, "", PRIVATE, None, None, None);
    h := n.(vcn := n.vcn.(
      fields := n.vcn.fields.(cidr := "", subnets := [Some(s)]),
      networkSecurityGroup := n.vcn.networkSecurityGroup.(list := None)));
    assert SubnetOk(env, VALID_ROLES, s, "") && h.vcn.fields.subnets[0] == Some(s);
    assert CUSTOM_ROLE !in CLUSTER_ROLES && !SubnetOk(env, CLUSTER_ROLES, s, "");
  }

  /** Up-conversion keeps acceptance exactly when the new checks pass. */
  lemma UpKeepsAcceptance(env: Env, roles: seq<string>, s: SpokeNetwork, out: HubNetwork)
    requires NetworkConversion.VcnOverwrites(s.vcn, out.vcn) && SpokeAccepts(env, roles, s)
    ensures var h := NetworkConversion.UpNetwork(s, out); Accepts(env, roles, h) <==> NewChecks(env, h)
  {
  }

  // ---- What an accepted subnet CIDR means -----------------------------------------------------------

  /** For two CIDRs that parse: the subnet's block lies in the VCN's exactly when the validator accepts it and
      its prefix is at least as long, which the validator does not check. */
  lemma SubnetCidrMeaning(env: Env, cidr: string, vcnCidr: string)
    requires cidr != "" && vcnCidr != "" && Parses(env, cidr) && Parses(env, vcnCidr)
    ensures Within(env.parse(cidr).value, env.parse(vcnCidr).value) <==>
      SubnetCidrOk(env, cidr, vcnCidr) && env.parse(cidr).value.prefix >= env.parse(vcnCidr).value.prefix
  {
    WithinIff(env.parse(cidr).value, env.parse(vcnCidr).value);
  }
}
