/** The API types of both versions.  A type the generated code reinterprets in memory is declared once; the
    types that differ exist as `Spoke...` (v1beta1) and `Hub...` (v1beta2).  `None` is a nil pointer, slice or
    map; slices and maps whose nilness no code reads are plain. */
module ApiTypes {
  import opened Optional

  // ---- Types common to both versions -------------------------------------------------------------

  datatype PortRange = PortRange(max: Option<int>, min: Option<int>)

  datatype PortOptions = PortOptions(destination: Option<PortRange>, source: Option<PortRange>)

  datatype IcmpOptions = IcmpOptions(kind: Option<int>, code: Option<int>)

  /** An ingress or egress security rule; `peer` is the source of the one and the destination of the other. */
  datatype Rule = Rule(
    peer: Option<string>,
    peerType: string,
    protocol: Option<string>,
    icmp: Option<IcmpOptions>,
    tcp: Option<PortOptions>,
    udp: Option<PortOptions>,
    stateless: Option<bool>,
    description: Option<string>)

  datatype SecurityList = SecurityList(
    id: Option<string>,
    name: string,
    egressRules: seq<Rule>,
    ingressRules: seq<Rule>)

  datatype Subnet = Subnet(
    role: string,
    id: Option<string>,
    name: string,
    skip: bool,
    cidr: string,
    kind: string,
    securityList: Option<SecurityList>,
    dnsLabel: Option<string>,
    ipv6Hextet: Option<string>)

  datatype HealthChecker = HealthChecker(
    protocol: Option<string>,
    port: Option<int>,
    intervalInMillis: Option<int>,
    timeoutInMillis: Option<int>,
    retries: Option<int>,
    urlPath: Option<string>,
    returnCode: Option<int>,
    responseBodyRegex: Option<string>,
    requestData: Option<string>,
    responseData: Option<string>)

  datatype BackendSetDetails = BackendSetDetails(
    isPreserveSource: Option<bool>,
    isFailOpen: Option<bool>,
    isInstantFailoverEnabled: Option<bool>,
    healthChecker: HealthChecker)

  datatype NlbSpec = NlbSpec(backendSetDetails: BackendSetDetails, reservedIpIds: seq<string>)

  datatype Drg = Drg(manage: bool, name: string, id: Option<string>, vcnAttachmentId: Option<string>)

  datatype RemotePeeringConnection = RemotePeeringConnection(
    managePeerRpc: bool,
    name: string,
    peerRegionName: string,
    peerDrgId: Option<string>,
    peerRpcConnectionId: Option<string>,
    rpcConnectionId: Option<string>)

  datatype VcnPeering = VcnPeering(
    drg: Option<Drg>,
    peerRouteRules: seq<string>,
    remotePeeringConnections: seq<RemotePeeringConnection>)

  datatype ObjectReference = ObjectReference(namespace: string, name: string)

  datatype Endpoint = Endpoint(host: string, port: int)

  datatype AvailabilityDomain = AvailabilityDomain(name: string, faultDomains: seq<string>)

  datatype Condition = Condition(kind: string, status: bool)

  /** The fields of an OCIClusterSpec outside the network spec that both versions have. */
  datatype ClusterFields = ClusterFields(
    resourceIdentifier: string,
    identityRef: Option<ObjectReference>,
    freeformTags: map<string, string>,
    definedTags: map<string, map<string, string>>,
    compartmentId: string,
    region: string,
    controlPlaneEndpoint: Endpoint)

  /** The fields of a VCN that both versions have. */
  datatype VcnFields = VcnFields(
    id: Option<string>,
    name: string,
    skip: bool,
    cidr: string,
    cidrs: seq<string>,
    subnets: seq<Option<Subnet>>,
    dnsLabel: Option<string>,
    isOracleGuaAllocationEnabled: Option<bool>,
    isIpv6Enabled: Option<bool>)

  /** The fields of the API server's load balancer that both versions have. */
  datatype LoadBalancerFields = LoadBalancerFields(
    name: string,
    loadBalancerId: Option<string>,
    nlbSpec: NlbSpec,
    networkVisibility: string)

  // ---- v1beta1 -----------------------------------------------------------------------------------

  datatype SpokeRule = SpokeRule(id: Option<string>, rule: Rule)

  datatype SpokeNsg = SpokeNsg(
    id: Option<string>,
    name: string,
    role: string,
    egressRules: Option<seq<SpokeRule>>,
    ingressRules: Option<seq<SpokeRule>>)

  datatype SpokeVcn = SpokeVcn(
    fields: VcnFields,
    natGatewayId: Option<string>,
    internetGatewayId: Option<string>,
    serviceGatewayId: Option<string>,
    privateRouteTableId: Option<string>,
    publicRouteTableId: Option<string>,
    networkSecurityGroups: Option<seq<Option<SpokeNsg>>>)

  datatype SpokeNetwork = SpokeNetwork(
    skipNetworkManagement: bool,
    vcn: SpokeVcn,
    apiServerLb: LoadBalancerFields,
    vcnPeering: Option<VcnPeering>)

  datatype SpokeSpec = SpokeSpec(fields: ClusterFields, network: SpokeNetwork)

  datatype SpokeStatus = SpokeStatus(
    failureDomains: map<string, bool>,
    availabilityDomains: Option<map<string, AvailabilityDomain>>,
    ready: bool,
    conditions: seq<Condition>)

  // ---- v1beta2 -----------------------------------------------------------------------------------

  datatype HubNsg = HubNsg(
    id: Option<string>,
    name: string,
    role: string,
    egressRules: Option<seq<Rule>>,
    ingressRules: Option<seq<Rule>>)

  datatype Gateway = Gateway(skip: bool, id: Option<string>)

  datatype RouteTable = RouteTable(skip: bool, privateId: Option<string>, publicId: Option<string>)

  datatype HubNsgs = HubNsgs(skip: bool, list: Option<seq<Option<HubNsg>>>)

  datatype HubVcn = HubVcn(
    fields: VcnFields,
    internetGateway: Gateway,
    natGateway: Gateway,
    serviceGateway: Gateway,
    routeTable: RouteTable,
    networkSecurityGroup: HubNsgs)

  datatype HubLoadBalancer = HubLoadBalancer(fields: LoadBalancerFields, loadBalancerType: string)

  datatype HubNetwork = HubNetwork(
    skipNetworkManagement: bool,
    vcn: HubVcn,
    apiServerLb: HubLoadBalancer,
    vcnPeering: Option<VcnPeering>)

  datatype ClientOverrides = ClientOverrides(certOverride: Option<ObjectReference>, urls: map<string, string>)

  datatype HubSpec = HubSpec(
    fields: ClusterFields,
    network: HubNetwork,
    availabilityDomains: Option<map<string, AvailabilityDomain>>,
    clientOverrides: Option<ClientOverrides>)

  datatype HubStatus = HubStatus(failureDomains: map<string, bool>, ready: bool, conditions: seq<Condition>)
}
