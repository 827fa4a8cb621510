/** Requests made in v1beta1: the stored object is read through down-conversion, and what comes back is converted up
    before it is defaulted and validated. */
module SpokeRequests {
  import opened Optional
  import opened ApiTypes
  import opened NetworkConversion
  import opened ClusterConversion
  import opened Validation
  import opened Defaulting
  import opened Admission

  /** The object that a v1beta1 update amounts to; the annotation is still the one of the object read. */
  function Requested(c: OciCluster, status: HubStatus, e: Spoke, dst: Hub): OciCluster {
    OciCluster(c.name, Edit(Hub(c.spec, status), e, dst).spec)
  }

  function WithDomainMap(c: OciCluster): OciCluster {
    c.(spec := c.spec.(availabilityDomains := Some(Domains(c.spec.availabilityDomains))))
  }

  lemma FreshIsClean(h: Hub, down: Spoke, up: Hub)
    requires FreshHub(up) && VcnOverwritten(h.spec.network.vcn, down.spec.network.vcn)
    ensures Clean(h.spec.network.vcn, down.spec.network.vcn, up.spec.network.vcn)
  {
  }

  /** The availability domains take no part in admission. */
  lemma DomainsDoNotMatter(env: Env, c: OciCluster, uuid: string)
    requires Sound(env, c) && uuid != ""
    ensures Defaulted(WithDomainMap(c), uuid) == WithDomainMap(c) && UpdateOk(env, c, WithDomainMap(c))
  {
    SettledIff(WithDomainMap(c).spec, uuid);
  }

  /** Reading an admitted object as v1beta1 and writing it back unchanged is admitted, and changes at most a nil map
      of availability domains into an empty one. */
  lemma ReadAndWriteBack(
      env: Env, rs: seq<Request>, status: HubStatus, down: Spoke, up: Hub, uuid: string)
    requires (forall i :: 0 <= i < |rs| ==> rs[i].uuid != "") && uuid != "" && History(env, None, rs).Some?
    requires FreshHub(up) && VcnOverwritten(History(env, None, rs).value.spec.network.vcn, down.spec.network.vcn)
    ensures var c := History(env, None, rs).value;
      var back := OciCluster(c.name, Up(Down(Hub(c.spec, status), down), up).spec);
      back == WithDomainMap(c) && Admit(env, Some(c), Update(back, uuid)) == Some(WithDomainMap(c))
  {
    var c := History(env, None, rs).value;
    AdmittedSound(env, rs);
    FreshIsClean(Hub(c.spec, status), down, up);
    HubRoundTrip(Hub(c.spec, status), down, up);
    DomainsDoNotMatter(env, c, uuid);
  }

  /** The immutable fields of a stored object, as a v1beta1 client sees them. */
  predicate SpokeKeepsIdentity(c: OciCluster, e: Spoke) {
    && e.spec.fields.region == c.spec.fields.region
    && e.spec.fields.resourceIdentifier == c.spec.fields.resourceIdentifier
    && e.spec.fields.compartmentId == c.spec.fields.compartmentId
    && DefaultVisibility(e.spec.network.apiServerLb.networkVisibility) == Visibility(c)
  }

  lemma RequestedAgrees(c: OciCluster, status: HubStatus, e: Spoke, dst: Hub)
    requires FreshHub(dst)
    ensures var d := Requested(c, status, e, dst);
      && d.spec.fields == e.spec.fields && NetworkAgrees(e.spec.network, d.spec.network)
      && HubOnlySpec(d.spec) == HubOnlySpec(c.spec)
  {
    EditLaw(e.(saved := Some(Hub(c.spec, status))), dst);
  }

  /** An edit in v1beta1 of an admitted object is admitted exactly when it keeps the immutable fields, passes the
      v1beta1 checks with the roles of v1beta2, and the object it amounts to passes the checks that are new in
      v1beta2, is consistent in its Skip flags, and survives its defaults. */
  lemma EditAdmittedIff(env: Env, c: OciCluster, status: HubStatus, e: Spoke, dst: Hub, uuid: string)
    requires KnowsDefaults(env) && Sound(env, c) && FreshHub(dst)
    requires uuid != "" && uuid != c.spec.fields.resourceIdentifier
    ensures var d := Requested(c, status, e, dst);
      UpdateOk(env, c, Defaulted(d, uuid)) <==>
      && SpokeKeepsIdentity(c, e) && SpokeAccepts(env, VALID_ROLES, e.spec.network)
      && NewChecks(env, d.spec.network) && SkipsOk(d.spec.network.vcn) && SurvivesDefaults(env, d.spec.network)
  {
    var d := Requested(c, status, e, dst);
    RequestedAgrees(c, status, e, dst);
    UpdateAcceptedIff(env, c, d, uuid);
    Verdicts(env, VALID_ROLES, e.spec.network, d.spec.network);
  }

  lemma DefaultsKeepHubOnly(spec: HubSpec, uuid: string)
    ensures HubOnlySpec(DefaultSpec(spec, uuid)) == HubOnlySpec(spec)
  {
  }

  /** The stored object after v1beta1 updates, each made to the object then stored. */
  function Edited(env: Env, c: OciCluster, status: HubStatus, es: seq<(Spoke, string)>, dst: Hub): OciCluster {
    if es == [] then c
    else
      var before, (e, uuid) := Edited(env, c, status, es[..|es| - 1], dst), es[|es| - 1];
      Admit(env, Some(before), Update(Requested(before, status, e, dst), uuid)).value
  }

  /** Whatever v1beta1 clients submit, one after the other, the stored object keeps its hub-only fields and its
      immutable ones. */
  lemma {:induction false} SpokeEditsKeep(
      env: Env, c: OciCluster, status: HubStatus, es: seq<(Spoke, string)>, dst: Hub)
    requires FreshHub(dst)
    ensures var t := Edited(env, c, status, es, dst);
      HubOnlySpec(t.spec) == HubOnlySpec(c.spec) && SameIdentity(c, t)
  {
    if es != [] {
      var n := |es| - 1;
      SpokeEditsKeep(env, c, status, es[..n], dst);
      var before := Edited(env, c, status, es[..n], dst);
      RequestedAgrees(before, status, es[n].0, dst);
      DefaultsKeepHubOnly(Requested(before, status, es[n].0, dst).spec, es[n].1);
    }
  }
}
