/** OCIMachine between v1beta1 and v1beta2, where the deprecated single NSG name becomes a list. */
module MachineConversion {
  import opened Optional

  datatype NetworkDetails = NetworkDetails(
    subnetId: Option<string>,
    assignIpv6Ip: bool,
    assignPublicIp: bool,
    subnetName: string,
    nsgId: Option<string>,
    nsgIds: seq<string>,
    skipSourceDestCheck: Option<bool>,
    nsgNames: Option<seq<string>>,
    hostnameLabel: Option<string>,
    displayName: Option<string>,
    assignPrivateDnsRecord: Option<bool>)

  /** The fields of an OCIMachineSpec, network details apart, that both versions have. */
  datatype MachineFields = MachineFields(
    instanceId: Option<string>,
    imageId: string,
    compartmentId: string,
    shape: string,
    providerId: Option<string>,
    bootVolumeSizeInGBs: string,
    metadata: map<string, string>,
    freeformTags: map<string, string>,
    definedTags: map<string, map<string, string>>,
    subnetName: string,
    preserveBootVolume: bool)

  datatype HubMachine = HubMachine(fields: MachineFields, details: NetworkDetails)

  datatype SpokeMachine = SpokeMachine(
    fields: MachineFields,
    details: NetworkDetails,
    nsgName: string,
    saved: Option<HubMachine>)

  // ---- The conversions -----------------------------------------------------------------------------

  function NamesOf(details: NetworkDetails): seq<string> {
    if details.nsgNames.Some? then details.nsgNames.value else []
  }

  function Up(s: SpokeMachine): HubMachine {
    HubMachine(
      s.fields,
      if s.nsgName != "" && NamesOf(s.details) == [] then s.details.(nsgNames := Some([s.nsgName])) else s.details)
  }

  /** Nothing in v1beta2 corresponds to the single name, so it stays as the destination has it. */
  function Down(h: HubMachine, out: SpokeMachine): SpokeMachine {
    SpokeMachine(h.fields, h.details, out.nsgName, Some(h))
  }

  class HubMachineObject {
    var spec: HubMachine

    constructor (h: HubMachine)
      ensures spec == h
    {
      spec := h;
    }
  }

  class SpokeMachineObject {
    var spec: SpokeMachine

    constructor (s: SpokeMachine)
      ensures spec == s
    {
      spec := s;
    }

    method ConvertTo(dst: HubMachineObject)
      modifies dst
      ensures dst.spec == Up(spec)
    {
      dst.spec := dst.spec.(fields := spec.fields);
      dst.spec := dst.spec.(details := spec.details);
      if spec.nsgName != "" && |NamesOf(spec.details)| == 0 {
        dst.spec := dst.spec.(details := dst.spec.details.(nsgNames := Some([spec.nsgName])));
      }
    }

    method ConvertFrom(src: HubMachineObject)
      modifies this
      ensures spec == Down(src.spec, old(spec))
    {
      spec := spec.(fields := src.spec.fields);
      spec := spec.(details := src.spec.details);
      spec := spec.(saved := Some(src.spec));
    }
  }

  // ---- The laws ------------------------------------------------------------------------------------

  /** The names of the NSGs a v1beta1 machine asks for: the list, or the single name if the list is empty. */
  function EffectiveNames(s: SpokeMachine): seq<string> {
    if NamesOf(s.details) != [] then NamesOf(s.details)
    else if s.nsgName != "" then [s.nsgName] else []
  }

  function Normal(s: SpokeMachine): SpokeMachine {
    s.(details := Up(s).details, nsgName := "")
  }

  /** Up-conversion keeps the NSGs a machine asks for and everything but their spelling; the detour back clears
      the single name, keeps the NSGs again, and changes nothing the second time, or if there was no single name. */
  lemma MachineSpokeRoundTrip(s: SpokeMachine, out: SpokeMachine)
    requires out.nsgName == ""
    ensures NamesOf(Up(s).details) == EffectiveNames(s)
    ensures Up(s).fields == s.fields && Up(s).details.(nsgNames := s.details.nsgNames) == s.details
    ensures Down(Up(s), out) == Normal(s).(saved := Some(Up(s)))
    ensures EffectiveNames(Normal(s)) == EffectiveNames(s) && Normal(Normal(s)) == Normal(s)
    ensures Normal(s) == s <==> s.nsgName == ""
  {
  }

  /** A hub machine comes back exactly unless its list is empty and the v1beta1 object written to has a
      single name already. */
  lemma MachineHubRoundTrip(h: HubMachine, out: SpokeMachine)
    ensures Up(Down(h, out)) == h <==> out.nsgName == "" || NamesOf(h.details) != []
  {
  }

  /** Two machines that ask for the same up to spelling are the same machine in v1beta2, and conversely; only
      a nil and an empty list stay apart. */
  lemma UpIdentifiesSpellings(s: SpokeMachine, t: SpokeMachine)
    ensures Up(s) == Up(t) <==>
      && s.fields == t.fields && EffectiveNames(s) == EffectiveNames(t)
      && s.details.(nsgNames := None) == t.details.(nsgNames := None)
      && (EffectiveNames(s) == [] ==> s.details.nsgNames == t.details.nsgNames)
  {
  }
}
