/** OCICluster and OCIClusterTemplate between v1beta1 (spoke) and v1beta2 (hub). */
module ClusterConversion {
  import opened Optional
  import opened ApiTypes
  import opened NetworkConversion

  datatype Hub = Hub(spec: HubSpec, status: HubStatus)

  /** `saved` is the hub object that the conversion annotation carries. */
  datatype Spoke = Spoke(spec: SpokeSpec, status: SpokeStatus, saved: Option<Hub>)

  // ---- The conversions as functions --------------------------------------------------------------

  /** The availability domains, a nil map being as good as an empty one. */
  function Domains(ads: Option<map<string, AvailabilityDomain>>): map<string, AvailabilityDomain> {
    if ads.Some? then ads.value else map[]
  }

  function UpSpec(s: SpokeSpec, out: HubSpec): HubSpec {
    out.(fields := s.fields, network := UpNetwork(s.network, out.network))
  }

  function DownSpec(h: HubSpec, out: SpokeSpec): SpokeSpec {
    SpokeSpec(h.fields, DownNetwork(h.network, out.network))
  }

  function RestoredNetwork(n: HubNetwork, from: HubNetwork): HubNetwork {
    n.(vcn := n.vcn.(
         internetGateway := n.vcn.internetGateway.(skip := from.vcn.internetGateway.skip),
         natGateway := n.vcn.natGateway.(skip := from.vcn.natGateway.skip),
         serviceGateway := n.vcn.serviceGateway.(skip := from.vcn.serviceGateway.skip),
         routeTable := n.vcn.routeTable.(skip := from.vcn.routeTable.skip),
         networkSecurityGroup := n.vcn.networkSecurityGroup.(skip := from.vcn.networkSecurityGroup.skip)),
       apiServerLb := n.apiServerLb.(loadBalancerType := from.apiServerLb.loadBalancerType))
  }

  function Restored(spec: HubSpec, from: HubSpec): HubSpec {
    spec.(network := RestoredNetwork(spec.network, from.network), clientOverrides := from.clientOverrides)
  }

  function Up(s: Spoke, out: Hub): Hub {
    var spec := UpSpec(s.spec, out.spec).(availabilityDomains := Some(Domains(s.status.availabilityDomains)));
    Hub(
      if s.saved.Some? then Restored(spec, s.saved.value.spec) else spec,
      HubStatus(s.status.failureDomains, s.status.ready, s.status.conditions))
  }

  function Down(h: Hub, out: Spoke): Spoke {
    Spoke(
      DownSpec(h.spec, out.spec),
      SpokeStatus(
        h.status.failureDomains, Some(Domains(h.spec.availabilityDomains)), h.status.ready, h.status.conditions),
      Some(h))
  }

  // ---- The conversions as the code runs them -----------------------------------------------------

  /** Both availability-domain converters: the two versions have the same fields. */
  method ConvertAdMap(ads: Option<map<string, AvailabilityDomain>>) returns (out: map<string, AvailabilityDomain>)
    ensures out == Domains(ads)
  {
    out := map[];
    var todo := Domains(ads).Keys;
    while todo != {}
      invariant todo <= Domains(ads).Keys && out.Keys == Domains(ads).Keys - todo
      invariant forall k :: k in out ==> out[k] == Domains(ads)[k]
      decreases |todo|
    {
      var k :| k in todo;
      var domain := Domains(ads)[k];
      out := out[k := AvailabilityDomain(domain.name, domain.faultDomains)];
      todo := todo - {k};
    }
  }

  class HubCluster {
    var spec: HubSpec
    var status: HubStatus

    constructor (h: Hub)
      ensures Value() == h
    {
      spec, status := h.spec, h.status;
    }

    ghost function Value(): Hub reads this {
      Hub(spec, status)
    }

    method Restore(from: HubSpec)
      modifies this`spec
      ensures spec == Restored(old(spec), from)
    {
      var vcn := spec.network.vcn;
      var skipNsgs := from.network.vcn.networkSecurityGroup.skip;
      vcn := vcn.(networkSecurityGroup := vcn.networkSecurityGroup.(skip := skipNsgs));
      vcn := vcn.(natGateway := vcn.natGateway.(skip := from.network.vcn.natGateway.skip));
      vcn := vcn.(serviceGateway := vcn.serviceGateway.(skip := from.network.vcn.serviceGateway.skip));
      vcn := vcn.(internetGateway := vcn.internetGateway.(skip := from.network.vcn.internetGateway.skip));
      vcn := vcn.(routeTable := vcn.routeTable.(skip := from.network.vcn.routeTable.skip));
      spec := spec.(network := spec.network.(vcn := vcn));
      var lb := spec.network.apiServerLb.(loadBalancerType := from.network.apiServerLb.loadBalancerType);
      spec := spec.(network := spec.network.(apiServerLb := lb));
      spec := spec.(clientOverrides := from.clientOverrides);
    }
  }

  class SpokeCluster {
    var spec: SpokeSpec
    var status: SpokeStatus
    var saved: Option<Hub>

    constructor (s: Spoke)
      ensures Value() == s
    {
      spec, status, saved := s.spec, s.status, s.saved;
    }

    ghost function Value(): Spoke reads this {
      Spoke(spec, status, saved)
    }

    method ConvertTo(dst: HubCluster)
      modifies dst
      ensures dst.Value() == Up(Value(), old(dst.Value()))
    {
      dst.spec := dst.spec.(fields := spec.fields);
      var network := ConvertNetworkUp(spec.network, dst.spec.network);
      dst.spec := dst.spec.(network := network);
      dst.status := HubStatus(status.failureDomains, status.ready, status.conditions);
      var ads := ConvertAdMap(status.availabilityDomains);
      dst.spec := dst.spec.(availabilityDomains := Some(ads));
      if saved.None? {
        return;
      }
      dst.Restore(saved.value.spec);
    }

    method ConvertFrom(src: HubCluster)
      modifies this
      ensures Value() == Down(src.Value(), old(Value()))
    {
      spec := spec.(fields := src.spec.fields);
      var network := ConvertNetworkDown(src.spec.network, spec.network);
      spec := spec.(network := network);
      status := status.(failureDomains := src.status.failureDomains);
      status := status.(ready := src.status.ready, conditions := src.status.conditions);
      var ads := ConvertAdMap(src.spec.availabilityDomains);
      status := status.(availabilityDomains := Some(ads));
      saved := Some(Hub(src.spec, src.status));
    }
  }

  // ---- The laws ------------------------------------------------------------------------------------

  /** Every field that both versions have is the same. */
  predicate Agrees(s: Spoke, h: Hub) {
    && s.spec.fields == h.spec.fields
    && NetworkAgrees(s.spec.network, h.spec.network)
    && Domains(s.status.availabilityDomains) == Domains(h.spec.availabilityDomains)
    && s.status.failureDomains == h.status.failureDomains
    && s.status.ready == h.status.ready
    && s.status.conditions == h.status.conditions
  }

  datatype HubOnly = HubOnly(network: NetworkHubOnly, clientOverrides: Option<ClientOverrides>)

  function HubOnlySpec(h: HubSpec): HubOnly {
    HubOnly(HubOnlyNetwork(h.network), h.clientOverrides)
  }

  /** The hub object with an empty map of availability domains for a nil one. */
  function WithDomains(h: Hub): Hub {
    h.(spec := h.spec.(availabilityDomains := Some(Domains(h.spec.availabilityDomains))))
  }

  lemma Determined(s: Spoke, g: Hub, h: Hub)
    requires Agrees(s, g) && Agrees(s, h) && HubOnlySpec(g.spec) == HubOnlySpec(h.spec)
    ensures WithDomains(g) == WithDomains(h)
  {
    NetworkDetermined(s.spec.network, g.spec.network, h.spec.network);
  }

  lemma RestoredNetworkKeeps(s: SpokeNetwork, n: HubNetwork, from: HubNetwork)
    ensures HubOnlyNetwork(RestoredNetwork(n, from)) == HubOnlyNetwork(from)
    ensures NetworkAgrees(s, RestoredNetwork(n, from)) <==> NetworkAgrees(s, n)
  {
  }

  /** For every edit `s` of a v1beta1 object: each visible field of the result is the edited one, exactly when
      the destination has no value where the edit has nil, and each hub-only field is the one of the annotation,
      or the destination's if there is no annotation. */
  lemma EditLaw(s: Spoke, out: Hub)
    ensures Agrees(s, Up(s, out)) <==> VcnOverwrites(s.spec.network.vcn, out.spec.network.vcn)
    ensures HubOnlySpec(Up(s, out).spec) == HubOnlySpec(if s.saved.Some? then s.saved.value.spec else out.spec)
  {
    UpNetworkAgrees(s.spec.network, out.spec.network);
    if s.saved.Some? {
      RestoredNetworkKeeps(
        s.spec.network, UpNetwork(s.spec.network, out.spec.network), s.saved.value.spec.network);
    }
  }

  lemma DownAgrees(h: Hub, out: Spoke)
    ensures Agrees(Down(h, out), h) <==> VcnOverwritten(h.spec.network.vcn, out.spec.network.vcn)
    ensures Down(h, out).saved == Some(h)
  {
    DownNetworkAgrees(h.spec.network, out.spec.network);
  }

  /** Neither of two destinations has a value where the hub object has nil. */
  predicate Clean(h: HubVcn, down: SpokeVcn, up: HubVcn) {
    && VcnOverwritten(h, down)
    && (h.internetGateway.id.Some? || up.internetGateway.id.None?)
    && (h.natGateway.id.Some? || up.natGateway.id.None?)
    && (h.serviceGateway.id.Some? || up.serviceGateway.id.None?)
    && (h.routeTable.privateId.Some? || up.routeTable.privateId.None?)
    && (h.routeTable.publicId.Some? || up.routeTable.publicId.None?)
    && (h.networkSecurityGroup.list.Some? || up.networkSecurityGroup.list.None?)
  }

  lemma CleanSteps(h: HubVcn, down: SpokeVcn, up: HubVcn)
    ensures Clean(h, down, up) <==> VcnOverwritten(h, down) && VcnOverwrites(DownVcn(h, down), up)
  {
  }

  lemma DirtyShows(h: HubVcn, down: SpokeVcn, up: HubVcn)
    requires !Clean(h, down, up)
    ensures var v := UpVcn(DownVcn(h, down), up);
      || v.internetGateway.id != h.internetGateway.id
      || v.natGateway.id != h.natGateway.id
      || v.serviceGateway.id != h.serviceGateway.id
      || v.routeTable.privateId != h.routeTable.privateId
      || v.routeTable.publicId != h.routeTable.publicId
      || v.networkSecurityGroup.list != h.networkSecurityGroup.list
  {
  }

  /** Down and up again gives back the hub object, up to nil and empty availability domains, exactly when the
      destinations are clean, which fresh ones are for every hub object. */
  lemma HubRoundTrip(h: Hub, down: Spoke, up: Hub)
    ensures Up(Down(h, down), up) == WithDomains(h) <==>
      Clean(h.spec.network.vcn, down.spec.network.vcn, up.spec.network.vcn)
  {
    var s := Down(h, down);
    CleanSteps(h.spec.network.vcn, down.spec.network.vcn, up.spec.network.vcn);
    if Clean(h.spec.network.vcn, down.spec.network.vcn, up.spec.network.vcn) {
      DownAgrees(h, down);
      EditLaw(s, up);
      Determined(s, Up(s, up), h);
    } else {
      DirtyShows(h.spec.network.vcn, down.spec.network.vcn, up.spec.network.vcn);
    }
  }

  predicate FreshHub(h: Hub) {
    var v := h.spec.network.vcn;
    && v.internetGateway.id.None? && v.natGateway.id.None? && v.serviceGateway.id.None?
    && v.routeTable.privateId.None? && v.routeTable.publicId.None? && v.networkSecurityGroup.list.None?
  }

  /** A hub object read as v1beta1, edited to `e` with the annotation kept, and written back. */
  function Edit(h: Hub, e: Spoke, dst: Hub): Hub {
    Up(e.(saved := Some(h)), dst)
  }

  function Edits(h: Hub, es: seq<Spoke>, dst: Hub): Hub {
    if es == [] then h else Edit(Edits(h, es[..|es| - 1], dst), es[|es| - 1], dst)
  }

  /** However many v1beta1 edits are made, the visible fields are those of the last one, and the hub-only
      fields are those of the object before the first. */
  lemma {:induction false} LastEditWins(h: Hub, es: seq<Spoke>, dst: Hub)
    requires FreshHub(dst)
    ensures HubOnlySpec(Edits(h, es, dst).spec) == HubOnlySpec(h.spec)
    ensures es != [] ==> Agrees(es[|es| - 1], Edits(h, es, dst))
    ensures es != [] ==> Edits(h, es, dst) == Edit(h, es[|es| - 1], dst)
  {
    if es != [] {
      var n := |es| - 1;
      var g := Edits(h, es[..n], dst);
      LastEditWins(h, es[..n], dst);
      EditLaw(es[n].(saved := Some(g)), dst);
      EditLaw(es[n].(saved := Some(h)), dst);
      assert Agrees(es[n], Edit(g, es[n], dst)) && Agrees(es[n], Edit(h, es[n], dst));
      Determined(es[n], Edit(g, es[n], dst), Edit(h, es[n], dst));
    }
  }

  /** What a v1beta1 object looks like after a detour through v1beta2. */
  function Normal(s: Spoke): Spoke {
    s.(spec := s.spec.(network := NetworkWithoutRuleIds(s.spec.network)),
       status := s.status.(availabilityDomains := Some(Domains(s.status.availabilityDomains))))
  }

  /** The detour drops the rule identifiers, makes the map of availability domains, and changes nothing else;
      a second detour changes nothing at all. */
  lemma SpokeRoundTrip(s: Spoke, up: Hub, down: Spoke)
    requires FreshHub(up) && VcnOverwritten(Up(s, up).spec.network.vcn, down.spec.network.vcn)
    ensures Down(Up(s, up), down) == Normal(s).(saved := Some(Up(s, up)))
    ensures Normal(Normal(s)) == Normal(s)
  {
    var n := UpNetwork(s.spec.network, up.spec.network);
    NetworkDetour(s.spec.network, up.spec.network, down.spec.network);
    if s.saved.Some? {
      assert DownNetwork(RestoredNetwork(n, s.saved.value.spec.network), down.spec.network) ==
        DownNetwork(n, down.spec.network);
    }
  }

  // ---- OCIClusterTemplate --------------------------------------------------------------------------

  datatype SpokeTemplateValue = SpokeTemplateValue(spec: SpokeSpec, saved: Option<HubSpec>)

  /** A template has no status, so the availability domains come from the annotation. */
  function TemplateUp(s: SpokeTemplateValue, out: HubSpec): HubSpec {
    var spec := UpSpec(s.spec, out);
    if s.saved.None? then spec
    else Restored(spec, s.saved.value).(availabilityDomains := s.saved.value.availabilityDomains)
  }

  function TemplateDown(h: HubSpec, out: SpokeTemplateValue): SpokeTemplateValue {
    SpokeTemplateValue(DownSpec(h, out.spec), Some(h))
  }

  class SpokeTemplate {
    var spec: SpokeSpec
    var saved: Option<HubSpec>

    constructor (s: SpokeTemplateValue)
      ensures Value() == s
    {
      spec, saved := s.spec, s.saved;
    }

    ghost function Value(): SpokeTemplateValue reads this {
      SpokeTemplateValue(spec, saved)
    }

    method ConvertTo(dst: HubCluster)
      modifies dst`spec
      ensures dst.spec == TemplateUp(Value(), old(dst.spec))
    {
      dst.spec := dst.spec.(fields := spec.fields);
      var network := ConvertNetworkUp(spec.network, dst.spec.network);
      dst.spec := dst.spec.(network := network);
      if saved.None? {
        return;
      }
      dst.Restore(saved.value);
      dst.spec := dst.spec.(availabilityDomains := saved.value.availabilityDomains);
    }

    method ConvertFrom(src: HubCluster)
      modifies this
      ensures Value() == TemplateDown(src.spec, old(Value()))
    {
      spec := spec.(fields := src.spec.fields);
      var network := ConvertNetworkDown(src.spec.network, spec.network);
      spec := spec.(network := network);
      saved := Some(src.spec);
    }
  }

  /** A template comes back exactly, nil map of availability domains included, when the destinations are clean. */
  lemma TemplateRoundTrip(h: HubSpec, down: SpokeTemplateValue, up: HubSpec)
    ensures TemplateUp(TemplateDown(h, down), up) == h <==> Clean(h.network.vcn, down.spec.network.vcn, up.network.vcn)
  {
    var s := DownNetwork(h.network, down.spec.network);
    var u := UpNetwork(s, up.network);
    CleanSteps(h.network.vcn, down.spec.network.vcn, up.network.vcn);
    if Clean(h.network.vcn, down.spec.network.vcn, up.network.vcn) {
      DownNetworkAgrees(h.network, down.spec.network);
      UpNetworkAgrees(s, up.network);
      RestoredNetworkKeeps(s, u, h.network);
      NetworkDetermined(s, RestoredNetwork(u, h.network), h.network);
    } else {
      DirtyShows(h.network.vcn, down.spec.network.vcn, up.network.vcn);
    }
  }
}
