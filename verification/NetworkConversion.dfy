/** The converters of the network part: security rules, NSGs, VCN, load balancer and network spec.
    A converter writes into an `out` that already exists and leaves there what its input does not mention, so
    each takes the old `out` and gives the new one. */
module NetworkConversion {
  import opened Optional
  import opened ApiTypes

  // ---- The conversions as functions --------------------------------------------------------------

  function Or<T>(a: Option<T>, b: Option<T>): Option<T> {
    if a.Some? then a else b
  }

  function UpRules(rules: Option<seq<SpokeRule>>): Option<seq<Rule>> {
    if rules.None? then None
    else Some(seq(|rules.value|, i requires 0 <= i < |rules.value| => rules.value[i].rule))
  }

  function DownRules(rules: Option<seq<Rule>>): Option<seq<SpokeRule>> {
    if rules.None? then None
    else Some(seq(|rules.value|, i requires 0 <= i < |rules.value| => SpokeRule(None, rules.value[i])))
  }

  function UpNsg(nsg: Option<SpokeNsg>): Option<HubNsg> {
    match nsg
    case None => None
    case Some(n) => Some(HubNsg(n.id, n.name, n.role, UpRules(n.egressRules), UpRules(n.ingressRules)))
  }

  function DownNsg(nsg: Option<HubNsg>): Option<SpokeNsg> {
    match nsg
    case None => None
    case Some(n) => Some(SpokeNsg(n.id, n.name, n.role, DownRules(n.egressRules), DownRules(n.ingressRules)))
  }

  function UpNsgs(list: Option<seq<Option<SpokeNsg>>>): Option<seq<Option<HubNsg>>> {
    if list.None? then None
    else Some(seq(|list.value|, i requires 0 <= i < |list.value| => UpNsg(list.value[i])))
  }

  function DownNsgs(list: Option<seq<Option<HubNsg>>>): Option<seq<Option<SpokeNsg>>> {
    if list.None? then None
    else Some(seq(|list.value|, i requires 0 <= i < |list.value| => DownNsg(list.value[i])))
  }

  function UpVcn(v: SpokeVcn, out: HubVcn): HubVcn {
    HubVcn(
      v.fields,
      out.internetGateway.(id := Or(v.internetGatewayId, out.internetGateway.id)),
      out.natGateway.(id := Or(v.natGatewayId, out.natGateway.id)),
      out.serviceGateway.(id := Or(v.serviceGatewayId, out.serviceGateway.id)),
      out.routeTable.(
        privateId := Or(v.privateRouteTableId, out.routeTable.privateId),
        publicId := Or(v.publicRouteTableId, out.routeTable.publicId)),
      out.networkSecurityGroup.(list := Or(UpNsgs(v.networkSecurityGroups), out.networkSecurityGroup.list)))
  }

  function DownVcn(v: HubVcn, out: SpokeVcn): SpokeVcn {
    SpokeVcn(
      v.fields,
      Or(v.natGateway.id, out.natGatewayId),
      Or(v.internetGateway.id, out.internetGatewayId),
      Or(v.serviceGateway.id, out.serviceGatewayId),
      Or(v.routeTable.privateId, out.privateRouteTableId),
      Or(v.routeTable.publicId, out.publicRouteTableId),
      Or(DownNsgs(v.networkSecurityGroup.list), out.networkSecurityGroups))
  }

  function UpNetwork(n: SpokeNetwork, out: HubNetwork): HubNetwork {
    HubNetwork(
      n.skipNetworkManagement,
      UpVcn(n.vcn, out.vcn),
      out.apiServerLb.(fields := n.apiServerLb),
      n.vcnPeering)
  }

  function DownNetwork(n: HubNetwork, out: SpokeNetwork): SpokeNetwork {
    SpokeNetwork(n.skipNetworkManagement, DownVcn(n.vcn, out.vcn), n.apiServerLb.fields, n.vcnPeering)
  }

  // ---- The conversions as the code runs them -----------------------------------------------------

  method ConvertRulesUp(rules: Option<seq<SpokeRule>>) returns (out: Option<seq<Rule>>)
    ensures out == UpRules(rules)
  {
    if rules.None? {
      return None;
    }
    var made := new Rule[|rules.value|];
    for i := 0 to |rules.value|
      invariant forall j :: 0 <= j < i ==> made[j] == rules.value[j].rule
    {
      made[i] := rules.value[i].rule;
    }
    assert made[..] == UpRules(rules).value;
    out := Some(made[..]);
  }

  method ConvertRulesDown(rules: Option<seq<Rule>>) returns (out: Option<seq<SpokeRule>>)
    ensures out == DownRules(rules)
  {
    if rules.None? {
      return None;
    }
    var made := new SpokeRule[|rules.value|];
    for i := 0 to |rules.value|
      invariant forall j :: 0 <= j < i ==> made[j] == SpokeRule(None, rules.value[j])
    {
      made[i] := SpokeRule(None, rules.value[i]);
    }
    assert made[..] == DownRules(rules).value;
    out := Some(made[..]);
  }

  method ConvertNsgListUp(list: seq<Option<SpokeNsg>>) returns (out: seq<Option<HubNsg>>)
    ensures Some(out) == UpNsgs(Some(list))
  {
    var made := new Option<HubNsg>[|list|];
    for i := 0 to |list|
      invariant forall j :: 0 <= j < i ==> made[j] == UpNsg(list[j])
    {
      if list[i].None? {
        made[i] := None;
        continue;
      }
      var n := list[i].value;
      var egress := ConvertRulesUp(n.egressRules);
      var ingress := ConvertRulesUp(n.ingressRules);
      made[i] := Some(HubNsg(n.id, n.name, n.role, egress, ingress));
    }
    assert made[..] == UpNsgs(Some(list)).value;
    out := made[..];
  }

  method ConvertNsgListDown(list: seq<Option<HubNsg>>) returns (out: seq<Option<SpokeNsg>>)
    ensures Some(out) == DownNsgs(Some(list))
  {
    var made := new Option<SpokeNsg>[|list|];
    for i := 0 to |list|
      invariant forall j :: 0 <= j < i ==> made[j] == DownNsg(list[j])
    {
      if list[i].None? {
        made[i] := None;
        continue;
      }
      var n := list[i].value;
      var egress := ConvertRulesDown(n.egressRules);
      var ingress := ConvertRulesDown(n.ingressRules);
      made[i] := Some(SpokeNsg(n.id, n.name, n.role, egress, ingress));
    }
    assert made[..] == DownNsgs(Some(list)).value;
    out := made[..];
  }

  method ConvertGatewaysUp(v: SpokeVcn, before: HubVcn) returns (out: HubVcn)
    ensures out == UpVcn(v, before).(
      fields := before.fields, routeTable := before.routeTable, networkSecurityGroup := before.networkSecurityGroup)
  {
    out := before;
    if v.internetGatewayId.Some? {
      out := out.(internetGateway := out.internetGateway.(id := v.internetGatewayId));
    }
    if v.natGatewayId.Some? {
      out := out.(natGateway := out.natGateway.(id := v.natGatewayId));
    }
    if v.serviceGatewayId.Some? {
      out := out.(serviceGateway := out.serviceGateway.(id := v.serviceGatewayId));
    }
  }

  method ConvertVcnUp(v: SpokeVcn, before: HubVcn) returns (out: HubVcn)
    ensures out == UpVcn(v, before)
  {
    out := before.(fields := v.fields);
    out := ConvertGatewaysUp(v, out);
    if v.privateRouteTableId.Some? {
      out := out.(routeTable := out.routeTable.(privateId := v.privateRouteTableId));
    }
    if v.publicRouteTableId.Some? {
      out := out.(routeTable := out.routeTable.(publicId := v.publicRouteTableId));
    }
    if v.networkSecurityGroups.Some? {
      var list := ConvertNsgListUp(v.networkSecurityGroups.value);
      out := out.(networkSecurityGroup := out.networkSecurityGroup.(list := Some(list)));
    }
  }

  method ConvertVcnDown(v: HubVcn, before: SpokeVcn) returns (out: SpokeVcn)
    ensures out == DownVcn(v, before)
  {
    out := before.(fields := v.fields);
    if v.internetGateway.id.Some? {
      out := out.(internetGatewayId := v.internetGateway.id);
    }
    if v.natGateway.id.Some? {
      out := out.(natGatewayId := v.natGateway.id);
    }
    if v.serviceGateway.id.Some? {
      out := out.(serviceGatewayId := v.serviceGateway.id);
    }
    if v.routeTable.publicId.Some? {
      out := out.(publicRouteTableId := v.routeTable.publicId);
    }
    if v.routeTable.privateId.Some? {
      out := out.(privateRouteTableId := v.routeTable.privateId);
    }
    if v.networkSecurityGroup.list.Some? {
      var list := ConvertNsgListDown(v.networkSecurityGroup.list.value);
      out := out.(networkSecurityGroups := Some(list));
    }
  }

  method ConvertNetworkUp(n: SpokeNetwork, before: HubNetwork) returns (out: HubNetwork)
    ensures out == UpNetwork(n, before)
  {
    out := before.(skipNetworkManagement := n.skipNetworkManagement);
    var vcn := ConvertVcnUp(n.vcn, out.vcn);
    out := out.(vcn := vcn);
    out := out.(apiServerLb := out.apiServerLb.(fields := n.apiServerLb));
    out := out.(vcnPeering := n.vcnPeering);
  }

  method ConvertNetworkDown(n: HubNetwork, before: SpokeNetwork) returns (out: SpokeNetwork)
    ensures out == DownNetwork(n, before)
  {
    out := before.(skipNetworkManagement := n.skipNetworkManagement);
    var vcn := ConvertVcnDown(n.vcn, out.vcn);
    out := out.(vcn := vcn);
    out := out.(apiServerLb := n.apiServerLb.fields);
    out := out.(vcnPeering := n.vcnPeering);
  }

  // ---- What the two sides have in common ---------------------------------------------------------

  predicate RulesAgree(s: Option<seq<SpokeRule>>, h: Option<seq<Rule>>) {
    && s.Some? == h.Some?
    && (s.Some? ==> |s.value| == |h.value| && forall i :: 0 <= i < |s.value| ==> s.value[i].rule == h.value[i])
  }

  predicate NsgAgrees(s: Option<SpokeNsg>, h: Option<HubNsg>) {
    && s.Some? == h.Some?
    && (s.Some? ==>
      && s.value.id == h.value.id && s.value.name == h.value.name && s.value.role == h.value.role
      && RulesAgree(s.value.egressRules, h.value.egressRules)
      && RulesAgree(s.value.ingressRules, h.value.ingressRules))
  }

  predicate NsgsAgree(s: Option<seq<Option<SpokeNsg>>>, h: Option<seq<Option<HubNsg>>>) {
    && s.Some? == h.Some?
    && (s.Some? ==> |s.value| == |h.value| && forall i :: 0 <= i < |s.value| ==> NsgAgrees(s.value[i], h.value[i]))
  }

  predicate VcnAgrees(s: SpokeVcn, h: HubVcn) {
    && s.fields == h.fields
    && s.internetGatewayId == h.internetGateway.id
    && s.natGatewayId == h.natGateway.id
    && s.serviceGatewayId == h.serviceGateway.id
    && s.privateRouteTableId == h.routeTable.privateId
    && s.publicRouteTableId == h.routeTable.publicId
    && NsgsAgree(s.networkSecurityGroups, h.networkSecurityGroup.list)
  }

  /** Every field that both versions have is the same. */
  predicate NetworkAgrees(s: SpokeNetwork, h: HubNetwork) {
    && s.skipNetworkManagement == h.skipNetworkManagement
    && VcnAgrees(s.vcn, h.vcn)
    && s.apiServerLb == h.apiServerLb.fields
    && s.vcnPeering == h.vcnPeering
  }

  /** The fields of the network spec that v1beta1 does not have. */
  datatype NetworkHubOnly = NetworkHubOnly(
    skipInternetGateway: bool,
    skipNatGateway: bool,
    skipServiceGateway: bool,
    skipRouteTable: bool,
    skipNsg: bool,
    loadBalancerType: string)

  function HubOnlyNetwork(h: HubNetwork): NetworkHubOnly {
    NetworkHubOnly(
      h.vcn.internetGateway.skip, h.vcn.natGateway.skip, h.vcn.serviceGateway.skip, h.vcn.routeTable.skip,
      h.vcn.networkSecurityGroup.skip, h.apiServerLb.loadBalancerType)
  }

  /** The hub's network is nothing but its visible and its hub-only fields. */
  lemma NetworkDetermined(s: SpokeNetwork, g: HubNetwork, h: HubNetwork)
    requires NetworkAgrees(s, g) && NetworkAgrees(s, h) && HubOnlyNetwork(g) == HubOnlyNetwork(h)
    ensures g == h
  {
    NsgsDetermined(s.vcn.networkSecurityGroups, g.vcn.networkSecurityGroup.list, h.vcn.networkSecurityGroup.list);
    assert g.vcn == h.vcn;
  }

  lemma NsgsDetermined(
      s: Option<seq<Option<SpokeNsg>>>, g: Option<seq<Option<HubNsg>>>, h: Option<seq<Option<HubNsg>>>)
    requires NsgsAgree(s, g) && NsgsAgree(s, h)
    ensures g == h
  {
    if s.Some? {
      forall i | 0 <= i < |s.value| ensures g.value[i] == h.value[i] {
        NsgDetermined(s.value[i], g.value[i], h.value[i]);
      }
      assert g.value == h.value;
    }
  }

  lemma NsgDetermined(s: Option<SpokeNsg>, g: Option<HubNsg>, h: Option<HubNsg>)
    requires NsgAgrees(s, g) && NsgAgrees(s, h)
    ensures g == h
  {
    if s.Some? {
      RulesDetermined(s.value.egressRules, g.value.egressRules, h.value.egressRules);
      RulesDetermined(s.value.ingressRules, g.value.ingressRules, h.value.ingressRules);
    }
  }

  lemma RulesDetermined(s: Option<seq<SpokeRule>>, g: Option<seq<Rule>>, h: Option<seq<Rule>>)
    requires RulesAgree(s, g) && RulesAgree(s, h)
    ensures g == h
  {
    assert s.Some? ==> g.value == h.value;
  }

  // ---- Where an old `out` shows through ----------------------------------------------------------

  /** No optional field of the input is nil where the old `out` has a value. */
  predicate VcnOverwrites(v: SpokeVcn, out: HubVcn) {
    && (v.internetGatewayId.Some? || out.internetGateway.id.None?)
    && (v.natGatewayId.Some? || out.natGateway.id.None?)
    && (v.serviceGatewayId.Some? || out.serviceGateway.id.None?)
    && (v.privateRouteTableId.Some? || out.routeTable.privateId.None?)
    && (v.publicRouteTableId.Some? || out.routeTable.publicId.None?)
    && (v.networkSecurityGroups.Some? || out.networkSecurityGroup.list.None?)
  }

  predicate VcnOverwritten(v: HubVcn, out: SpokeVcn) {
    && (v.internetGateway.id.Some? || out.internetGatewayId.None?)
    && (v.natGateway.id.Some? || out.natGatewayId.None?)
    && (v.serviceGateway.id.Some? || out.serviceGatewayId.None?)
    && (v.routeTable.privateId.Some? || out.privateRouteTableId.None?)
    && (v.routeTable.publicId.Some? || out.publicRouteTableId.None?)
    && (v.networkSecurityGroup.list.Some? || out.networkSecurityGroups.None?)
  }

  /** Up-conversion puts every v1beta1 field where it belongs, exactly when nothing old shows through, and
      keeps the hub-only fields of its destination. */
  lemma UpNetworkAgrees(n: SpokeNetwork, out: HubNetwork)
    ensures NetworkAgrees(n, UpNetwork(n, out)) <==> VcnOverwrites(n.vcn, out.vcn)
    ensures HubOnlyNetwork(UpNetwork(n, out)) == HubOnlyNetwork(out)
  {
  }

  lemma DownNetworkAgrees(n: HubNetwork, out: SpokeNetwork)
    ensures NetworkAgrees(DownNetwork(n, out), n) <==> VcnOverwritten(n.vcn, out.vcn)
  {
  }

  // ---- The detour through the hub, seen from the spoke -------------------------------------------

  function WithoutRuleIds(rules: Option<seq<SpokeRule>>): Option<seq<SpokeRule>> {
    if rules.None? then None
    else Some(seq(|rules.value|, i requires 0 <= i < |rules.value| => rules.value[i].(id := None)))
  }

  function NsgWithoutRuleIds(nsg: Option<SpokeNsg>): Option<SpokeNsg> {
    match nsg
    case None => None
    case Some(n) =>
      Some(n.(egressRules := WithoutRuleIds(n.egressRules), ingressRules := WithoutRuleIds(n.ingressRules)))
  }

  /** The network spec with the deprecated rule identifiers taken out. */
  function NetworkWithoutRuleIds(n: SpokeNetwork): SpokeNetwork {
    match n.vcn.networkSecurityGroups
    case None => n
    case Some(list) =>
      n.(vcn := n.vcn.(networkSecurityGroups :=
        Some(seq(|list|, i requires 0 <= i < |list| => NsgWithoutRuleIds(list[i])))))
  }

  lemma NsgDetour(nsg: Option<SpokeNsg>)
    ensures DownNsg(UpNsg(nsg)) == NsgWithoutRuleIds(nsg)
    ensures NsgWithoutRuleIds(NsgWithoutRuleIds(nsg)) == NsgWithoutRuleIds(nsg)
  {
    if nsg.Some? {
      RulesDetour(nsg.value.egressRules);
      RulesDetour(nsg.value.ingressRules);
    }
  }

  lemma RulesDetour(rules: Option<seq<SpokeRule>>)
    ensures DownRules(UpRules(rules)) == WithoutRuleIds(rules)
    ensures WithoutRuleIds(WithoutRuleIds(rules)) == WithoutRuleIds(rules)
  {
    if rules.Some? {
      assert DownRules(UpRules(rules)).value == WithoutRuleIds(rules).value;
      assert WithoutRuleIds(WithoutRuleIds(rules)).value == WithoutRuleIds(rules).value;
    }
  }

  /** Up and down again, into fresh objects: only the rule identifiers are lost, and only the first time. */
  lemma NetworkDetour(n: SpokeNetwork, up: HubNetwork, down: SpokeNetwork)
    requires VcnOverwrites(n.vcn, up.vcn) && VcnOverwritten(UpNetwork(n, up).vcn, down.vcn)
    ensures DownNetwork(UpNetwork(n, up), down) == NetworkWithoutRuleIds(n)
    ensures NetworkWithoutRuleIds(NetworkWithoutRuleIds(n)) == NetworkWithoutRuleIds(n)
  {
    var list := n.vcn.networkSecurityGroups;
    if list.Some? {
      forall i | 0 <= i < |list.value|
        ensures DownNsg(UpNsg(list.value[i])) == NsgWithoutRuleIds(list.value[i])
        ensures NsgWithoutRuleIds(NsgWithoutRuleIds(list.value[i])) == NsgWithoutRuleIds(list.value[i])
      {
        NsgDetour(list.value[i]);
      }
      var w := NetworkWithoutRuleIds(n);
      assert DownNsgs(UpNsgs(list)).value == w.vcn.networkSecurityGroups.value;
      assert NetworkWithoutRuleIds(w).vcn.networkSecurityGroups.value == w.vcn.networkSecurityGroups.value;
    }
    assert DownNetwork(UpNetwork(n, up), down).vcn == NetworkWithoutRuleIds(n).vcn;
  }
}
