/** OCIManagedControlPlane between v1beta1 and v1beta2, with the OpenID Connect options restored only where the
    annotation has them. */
module ControlPlaneConversion {
  import opened Optional
  import opened ApiTypes

  datatype AddOnOptions = AddOnOptions(dashboard: Option<bool>, tiller: Option<bool>)

  datatype ClusterOptions = ClusterOptions(addOns: Option<AddOnOptions>, podSecurityPolicy: Option<Option<bool>>)

  datatype Discovery = Discovery(enabled: Option<bool>)

  datatype TokenConfig = TokenConfig(
    enabled: bool,
    issuerUrl: Option<string>,
    clientId: Option<string>,
    caCertificate: Option<string>,
    usernameClaim: Option<string>,
    groupsClaim: Option<string>,
    requiredClaims: seq<(string, string)>,
    signingAlgorithms: seq<string>)

  datatype Addon = Addon(name: string, version: Option<string>)

  /** The fields of the spec and status, cluster options included, that both versions have. */
  datatype PlaneFields = PlaneFields(
    id: Option<string>,
    podNetworkOptions: seq<string>,
    imagePolicyEnabled: Option<bool>,
    options: ClusterOptions,
    kmsKeyId: Option<string>,
    endpoint: Endpoint,
    version: Option<string>)

  datatype PlaneStatus = PlaneStatus(
    ready: bool,
    conditions: seq<Condition>,
    version: Option<string>,
    initialized: bool)

  datatype HubPlane = HubPlane(
    fields: PlaneFields,
    discovery: Option<Discovery>,
    token: Option<TokenConfig>,
    clusterType: string,
    addons: seq<Addon>,
    status: PlaneStatus,
    addonStatus: map<string, string>)

  datatype SpokePlane = SpokePlane(fields: PlaneFields, status: PlaneStatus, saved: Option<HubPlane>)

  // ---- The conversions -----------------------------------------------------------------------------

  function Up(s: SpokePlane, out: HubPlane): HubPlane {
    var plane := out.(fields := s.fields, status := s.status);
    if s.saved.None? then plane
    else
      var h := s.saved.value;
      plane.(
        clusterType := h.clusterType,
        addons := h.addons,
        addonStatus := h.addonStatus,
        discovery := if h.discovery.Some? then h.discovery else out.discovery,
        token := if h.token.Some? then h.token else out.token)
  }

  function Down(h: HubPlane, out: SpokePlane): SpokePlane {
    SpokePlane(h.fields, h.status, Some(h))
  }

  class HubPlaneObject {
    var value: HubPlane

    constructor (h: HubPlane)
      ensures value == h
    {
      value := h;
    }

    method RestoreOpenIdConnect(h: HubPlane)
      modifies this
      ensures value == old(value).(
        discovery := if h.discovery.Some? then h.discovery else old(value).discovery,
        token := if h.token.Some? then h.token else old(value).token)
    {
      if h.discovery.Some? {
        if value.discovery.None? {
          value := value.(discovery := Some(Discovery(None)));
        }
        value := value.(discovery := Some(value.discovery.value.(enabled := h.discovery.value.enabled)));
      }
      if h.token.Some? {
        value := value.(token := Some(h.token.value));
      }
    }
  }

  class SpokePlaneObject {
    var value: SpokePlane

    constructor (s: SpokePlane)
      ensures value == s
    {
      value := s;
    }

    method ConvertTo(dst: HubPlaneObject)
      modifies dst
      ensures dst.value == Up(value, old(dst.value))
    {
      dst.value := dst.value.(fields := value.fields);
      dst.value := dst.value.(status := value.status);
      if value.saved.None? {
        return;
      }
      var restored := value.saved.value;
      dst.value := dst.value.(clusterType := restored.clusterType);
      dst.value := dst.value.(addons := restored.addons);
      dst.value := dst.value.(addonStatus := restored.addonStatus);
      dst.RestoreOpenIdConnect(restored);
    }

    method ConvertFrom(src: HubPlaneObject)
      modifies this
      ensures value == Down(src.value, old(value))
    {
      value := value.(fields := src.value.fields);
      value := value.(status := src.value.status);
      value := value.(saved := Some(src.value));
    }
  }

  // ---- The laws ------------------------------------------------------------------------------------

  /** What v1beta1 does not have. */
  function HubOnly(h: HubPlane): (Option<Discovery>, Option<TokenConfig>, string, seq<Addon>, map<string, string>) {
    (h.discovery, h.token, h.clusterType, h.addons, h.addonStatus)
  }

  /** The options cannot be taken away: a destination that has them where the saved object does not keeps them. */
  predicate OptionsOverwritten(h: HubPlane, out: HubPlane) {
    (h.discovery.Some? || out.discovery.None?) && (h.token.Some? || out.token.None?)
  }

  /** For every v1beta1 edit that keeps the annotation: the visible fields are the edited ones, and the
      hub-only ones are the saved ones exactly when the destination has no options of its own to show. */
  lemma PlaneEditLaw(h: HubPlane, s: SpokePlane, out: HubPlane)
    requires s.saved == Some(h)
    ensures Up(s, out).fields == s.fields && Up(s, out).status == s.status
    ensures HubOnly(Up(s, out)) == HubOnly(h) <==> OptionsOverwritten(h, out)
  {
  }

  /** Down and up again gives back the hub object exactly when the destination has no options to show. */
  lemma PlaneHubRoundTrip(h: HubPlane, down: SpokePlane, up: HubPlane)
    ensures Up(Down(h, down), up) == h <==> OptionsOverwritten(h, up)
  {
  }

  /** The detour of a v1beta1 object changes nothing but the annotation. */
  lemma PlaneSpokeRoundTrip(s: SpokePlane, up: HubPlane, down: SpokePlane)
    ensures Down(Up(s, up), down) == s.(saved := Some(Up(s, up)))
  {
  }
}
