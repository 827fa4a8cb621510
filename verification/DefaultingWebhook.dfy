/** The mutating webhook of OCICluster as it runs: subnets are objects reached through pointers, any of which may
    be nil or occur more than once, and are changed where they are. */
module DefaultingWebhook {
  import opened Optional
  import opened ApiTypes
  import opened Validation
  import opened Defaulting

  class SubnetObject {
    var value: Subnet

    constructor (s: Subnet)
      ensures value == s
    {
      value := s;
    }
  }

  /** The subnets that pointers lead to. */
  ghost function Deref(pointers: seq<SubnetObject?>): (entries: seq<Option<Subnet>>)
    reads set o | o in pointers && o != null
    ensures |entries| == |pointers|
    ensures forall i :: 0 <= i < |pointers| ==>
      entries[i] == if pointers[i] == null then None else Some(pointers[i].value)
  {
    seq(|pointers|, i requires 0 <= i < |pointers| reads set o | o in pointers && o != null =>
      if pointers[i] == null then None else Some(pointers[i].value))
  }

  predicate Distinct(pointers: seq<SubnetObject?>) {
    forall i, j :: 0 <= i < j < |pointers| && pointers[i] != null ==> pointers[i] != pointers[j]
  }

  // ---- Filling through pointers ------------------------------------------------------------------

  /** The entry's object stands for the role: any worker subnet does, and the first subnet of another role,
      which may be this entry under another index. */
  ghost predicate StandsFor(p: seq<SubnetObject?>, e: seq<Option<Subnet>>, i: nat, role: string)
    requires |p| == |e| && i < |e|
  {
    Plays(e[i], role) &&
    (role == WORKER_ROLE || exists j :: 0 <= j < |p| && p[j] == p[i] && IsFirst(e, j, role))
  }

  /** What filling one role makes of an entry. */
  ghost function StepEntry(p: seq<SubnetObject?>, e: seq<Option<Subnet>>, i: nat, role: string): Option<Subnet>
    requires role in CLUSTER_ROLES && |p| == |e| && i < |e|
  {
    if StandsFor(p, e, i, role) then Some(Fill(e[i].value)) else e[i]
  }

  ghost function Step(p: seq<SubnetObject?>, e: seq<Option<Subnet>>, role: string): (s: seq<Option<Subnet>>)
    requires role in CLUSTER_ROLES && |p| == |e|
    ensures |s| == |e|
  {
    seq(|e|, i requires 0 <= i < |e| => StepEntry(p, e, i, role))
  }

  /** The roles one after the other, in the order of the code. */
  ghost function SingleSteps(p: seq<SubnetObject?>, e: seq<Option<Subnet>>): (s: seq<Option<Subnet>>)
    requires |p| == |e|
    ensures |s| == |e|
  {
    Step(p, Step(p, Step(p, e, CONTROL_PLANE_ENDPOINT_ROLE), CONTROL_PLANE_ROLE), SERVICE_LB_ROLE)
  }

  ghost function AllSteps(p: seq<SubnetObject?>, e: seq<Option<Subnet>>): (s: seq<Option<Subnet>>)
    requires |p| == |e|
    ensures |s| == |e|
  {
    Step(p, SingleSteps(p, e), WORKER_ROLE)
  }

  ghost predicate SameRoles(x: seq<Option<Subnet>>, y: seq<Option<Subnet>>) {
    |x| == |y| && forall i, role :: 0 <= i < |x| ==> (Plays(x[i], role) <==> Plays(y[i], role))
  }

  lemma StepKeepsRoles(p: seq<SubnetObject?>, e: seq<Option<Subnet>>, role: string)
    requires role in CLUSTER_ROLES && |p| == |e|
    ensures SameRoles(Step(p, e, role), e)
  {
  }

  /** Roles alone decide which roles have a subnet, which subnets are targeted, and who stands for whom. */
  lemma RolesDecide(x: seq<Option<Subnet>>, y: seq<Option<Subnet>>)
    requires SameRoles(x, y)
    ensures forall role :: HasSubnet(x, role) <==> HasSubnet(y, role)
    ensures forall i, role :: 0 <= i < |x| ==> (IsFirst(x, i, role) <==> IsFirst(y, i, role))
    ensures forall i :: 0 <= i < |x| ==> (Targeted(x, i) <==> Targeted(y, i))
  {
    forall i | 0 <= i < |x| ensures Targeted(x, i) <==> Targeted(y, i) {
      if x[i].Some? {
        assert Plays(x[i], x[i].value.role);
      }
      if y[i].Some? {
        assert Plays(y[i], y[i].value.role);
      }
    }
  }

  /** The steps together fill every entry that stands for its role, and change nothing else. */
  ghost function FilledThrough(p: seq<SubnetObject?>, e: seq<Option<Subnet>>, i: nat): Option<Subnet>
    requires |p| == |e| && i < |e|
  {
    if e[i].Some? && e[i].value.role in CLUSTER_ROLES && StandsFor(p, e, i, e[i].value.role)
    then Some(Fill(e[i].value)) else e[i]
  }

  lemma StepElsewhere(p: seq<SubnetObject?>, e: seq<Option<Subnet>>, x: seq<Option<Subnet>>, i: nat, role: string)
    requires role in CLUSTER_ROLES && |p| == |e| && SameRoles(x, e) && i < |e|
    ensures Step(p, x, role)[i] == if StandsFor(p, e, i, role) then Some(Fill(x[i].value)) else x[i]
    ensures SameRoles(Step(p, x, role), e)
  {
  }

  lemma AllStepsFill(p: seq<SubnetObject?>, e: seq<Option<Subnet>>, i: nat)
    requires |p| == |e| && i < |e|
    ensures AllSteps(p, e)[i] == FilledThrough(p, e, i)
    ensures SameRoles(AllSteps(p, e), e)
  {
    var a := Step(p, e, CONTROL_PLANE_ENDPOINT_ROLE);
    var b := Step(p, a, CONTROL_PLANE_ROLE);
    var c := Step(p, b, SERVICE_LB_ROLE);
    StepElsewhere(p, e, e, i, CONTROL_PLANE_ENDPOINT_ROLE);
    StepElsewhere(p, e, a, i, CONTROL_PLANE_ROLE);
    StepElsewhere(p, e, b, i, SERVICE_LB_ROLE);
    StepElsewhere(p, e, c, i, WORKER_ROLE);
  }

  /** Entries read through the same pointer are the same. */
  ghost predicate Consistent(p: seq<SubnetObject?>, e: seq<Option<Subnet>>) {
    && |p| == |e|
    && (forall i :: 0 <= i < |p| ==> (p[i] == null <==> e[i].None?))
    && (forall i, j :: 0 <= i < |p| && 0 <= j < |p| && p[i] == p[j] ==> e[i] == e[j])
  }

  lemma WithoutAliases(p: seq<SubnetObject?>, e: seq<Option<Subnet>>)
    requires Consistent(p, e) && Distinct(p)
    ensures AllSteps(p, e) == Filled(e)
  {
    forall i | 0 <= i < |e| ensures AllSteps(p, e)[i] == Filled(e)[i] {
      AllStepsFill(p, e, i);
      if e[i].Some? {
        assert StandsFor(p, e, i, e[i].value.role) <==>
          e[i].value.role == WORKER_ROLE || IsFirst(e, i, e[i].value.role);
      }
    }
  }

  lemma NothingToFill(p: seq<SubnetObject?>, e: seq<Option<Subnet>>)
    requires Consistent(p, e) && SubnetsSettled(e)
    ensures AllSteps(p, e) == e
  {
    forall i | 0 <= i < |e| ensures AllSteps(p, e)[i] == e[i] {
      AllStepsFill(p, e, i);
      if e[i].Some? && e[i].value.role in CLUSTER_ROLES && StandsFor(p, e, i, e[i].value.role) {
        var role := e[i].value.role;
        if role == WORKER_ROLE {
          assert Targeted(e, i);
        } else {
          var j :| 0 <= j < |p| && p[j] == p[i] && IsFirst(e, j, role);
          assert Targeted(e, j) && e[j] == e[i];
        }
      }
    }
  }

  lemma TargetedInPrefix(x: seq<Option<Subnet>>, y: seq<Option<Subnet>>, i: nat)
    requires i < |x|
    ensures Targeted(x + y, i) <==> Targeted(x, i)
  {
    assert forall j :: 0 <= j <= i ==> (x + y)[j] == x[j];
  }

  lemma FilledIsNotEmpty(p: seq<SubnetObject?>, e: seq<Option<Subnet>>, i: nat)
    requires |p| == |e| && i < |e| && Targeted(AllSteps(p, e), i)
    ensures AllSteps(p, e)[i].value.cidr != ""
  {
    AllStepsFill(p, e, i);
    RolesDecide(AllSteps(p, e), e);
    assert Targeted(e, i) && StandsFor(p, e, i, e[i].value.role);
  }

  lemma StepsHaveRoles(p: seq<SubnetObject?>, e: seq<Option<Subnet>>, role: string)
    requires |p| == |e| && role in CLUSTER_ROLES
    ensures HasSubnet(AllSteps(p, e) + MissingSubnets(e), role)
  {
    var d := AllSteps(p, e) + MissingSubnets(e);
    if HasSubnet(e, role) {
      var i :| 0 <= i < |e| && Plays(e[i], role);
      AllStepsFill(p, e, i);
      assert d[i] == AllSteps(p, e)[i];
    } else {
      var i := MissingAt(e, role);
      assert d[|e| + i] == Some(DefaultSubnet(role));
    }
  }

  /** Aliases or not, once the steps are done and the missing roles appended, nothing is left to do. */
  lemma StepsSettle(p: seq<SubnetObject?>, e: seq<Option<Subnet>>)
    requires |p| == |e|
    ensures SubnetsSettled(AllSteps(p, e) + MissingSubnets(e))
  {
    var x, missing := AllSteps(p, e), MissingSubnets(e);
    forall role | role in CLUSTER_ROLES ensures HasSubnet(x + missing, role) {
      StepsHaveRoles(p, e, role);
    }
    forall i | 0 <= i < |x + missing| && Targeted(x + missing, i) ensures (x + missing)[i].value.cidr != "" {
      if i < |x| {
        TargetedInPrefix(x, missing, i);
        FilledIsNotEmpty(p, e, i);
      } else {
        AppendedIsDefault(e, i);
        assert (x + missing)[i] == DefaultSubnets(e)[i];
      }
    }
  }

  /** Whatever step the code has come to, the same roles are missing. */
  lemma SameMissing(x: seq<Option<Subnet>>, e: seq<Option<Subnet>>, role: string)
    requires role in CLUSTER_ROLES && SameRoles(x, e)
    ensures MissingSubnet(x, role) == MissingSubnet(e, role)
  {
  }

  function MissingSingles(e: seq<Option<Subnet>>): seq<Option<Subnet>> {
    MissingSubnet(e, CONTROL_PLANE_ENDPOINT_ROLE) + MissingSubnet(e, CONTROL_PLANE_ROLE)
    + MissingSubnet(e, SERVICE_LB_ROLE)
  }

  lemma StepsMissing(p: seq<SubnetObject?>, e: seq<Option<Subnet>>)
    requires |p| == |e|
    ensures var a := Step(p, e, CONTROL_PLANE_ENDPOINT_ROLE);
      && MissingSubnet(a, CONTROL_PLANE_ROLE) == MissingSubnet(e, CONTROL_PLANE_ROLE)
      && MissingSubnet(Step(p, a, CONTROL_PLANE_ROLE), SERVICE_LB_ROLE) == MissingSubnet(e, SERVICE_LB_ROLE)
    ensures MissingSubnet(SingleSteps(p, e), WORKER_ROLE) == MissingSubnet(e, WORKER_ROLE)
  {
    var a := Step(p, e, CONTROL_PLANE_ENDPOINT_ROLE);
    var b := Step(p, a, CONTROL_PLANE_ROLE);
    var c := Step(p, b, SERVICE_LB_ROLE);
    StepKeepsRoles(p, e, CONTROL_PLANE_ENDPOINT_ROLE);
    SameMissing(a, e, CONTROL_PLANE_ROLE);
    StepKeepsRoles(p, a, CONTROL_PLANE_ROLE);
    SameMissing(b, e, SERVICE_LB_ROLE);
    StepKeepsRoles(p, b, SERVICE_LB_ROLE);
    SameMissing(c, e, WORKER_ROLE);
  }

  lemma DerefThree(p: seq<SubnetObject?>, q: seq<SubnetObject?>, r: seq<SubnetObject?>)
    ensures Deref(p + (q + r)) == Deref(p) + (Deref(q) + Deref(r))
  {
    DerefConcat(p, q + r);
    DerefConcat(q, r);
  }

  lemma DerefConcat(p: seq<SubnetObject?>, q: seq<SubnetObject?>)
    ensures Deref(p + q) == Deref(p) + Deref(q)
  {
  }

  // ---- The webhook -------------------------------------------------------------------------------

  function WithSubnets(spec: HubSpec, entries: seq<Option<Subnet>>): HubSpec {
    var v := spec.network.vcn;
    spec.(network := spec.network.(vcn := v.(fields := v.fields.(subnets := entries))))
  }

  /** The defaulted spec, given what its subnets have become. */
  function DefaultWith(spec: HubSpec, uuid: string, entries: seq<Option<Subnet>>): HubSpec {
    var n := spec.network;
    var id := if spec.fields.resourceIdentifier == "" then uuid else spec.fields.resourceIdentifier;
    var nsgs := if n.skipNetworkManagement then n.vcn.networkSecurityGroup
                else DefaultNsgs(n.vcn.networkSecurityGroup, entries);
    var lb := n.apiServerLb.fields;
    HubSpec(
      spec.fields.(resourceIdentifier := id),
      HubNetwork(
        n.skipNetworkManagement,
        n.vcn.(fields := n.vcn.fields.(subnets := entries), networkSecurityGroup := nsgs),
        n.apiServerLb.(fields := lb.(networkVisibility := DefaultVisibility(lb.networkVisibility))),
        n.vcnPeering),
      spec.availabilityDomains,
      spec.clientOverrides)
  }

  lemma DefaultWithDefaults(spec: HubSpec, uuid: string)
    ensures DefaultSpec(spec, uuid) ==
      DefaultWith(spec, uuid,
        if spec.network.skipNetworkManagement then spec.network.vcn.fields.subnets
        else DefaultSubnets(spec.network.vcn.fields.subnets))
  {
  }

  /** Any list of settled subnets makes a settled spec. */
  lemma DefaultWithSettles(spec: HubSpec, uuid: string, entries: seq<Option<Subnet>>)
    requires uuid != "" && (spec.network.skipNetworkManagement || SubnetsSettled(entries))
    ensures Settled(DefaultWith(spec, uuid, entries))
  {
    var nsgs := spec.network.vcn.networkSecurityGroup;
    if !spec.network.skipNetworkManagement && !nsgs.skip {
      forall role | role in CLUSTER_ROLES ensures Guarded(DefaultNsgs(nsgs, entries).list, entries, role) {
        EveryRoleGuarded(nsgs, entries, role);
      }
    }
  }

  lemma DefaultWithSettled(spec: HubSpec, uuid: string)
    requires Settled(spec)
    ensures DefaultWith(spec, uuid, spec.network.vcn.fields.subnets) == spec
  {
  }

  /** The subnets a cluster ends up with. */
  ghost function NewEntries(spec: HubSpec, p: seq<SubnetObject?>, e: seq<Option<Subnet>>): seq<Option<Subnet>>
    requires |p| == |e|
  {
    if spec.network.skipNetworkManagement then e else AllSteps(p, e) + MissingSubnets(e)
  }

  lemma Outcome(spec: HubSpec, uuid: string, p: seq<SubnetObject?>)
    requires Consistent(p, spec.network.vcn.fields.subnets) && uuid != ""
    ensures var e := spec.network.vcn.fields.subnets;
      var d := NewEntries(spec, p, e);
      && Settled(DefaultWith(spec, uuid, d))
      && (Distinct(p) ==> DefaultWith(spec, uuid, d) == DefaultSpec(spec, uuid))
      && (Settled(spec) ==> d == e && DefaultWith(spec, uuid, d) == spec)
  {
    var e := spec.network.vcn.fields.subnets;
    DefaultWithDefaults(spec, uuid);
    StepsSettle(p, e);
    DefaultWithSettles(spec, uuid, NewEntries(spec, p, e));
    if Distinct(p) {
      WithoutAliases(p, e);
    }
    if Settled(spec) {
      if !spec.network.skipNetworkManagement {
        NothingToFill(p, e);
        assert MissingSubnets(e) == [];
      }
      DefaultWithSettled(spec, uuid);
    }
  }

  predicate OnlyCidrFilled(was: Option<Subnet>, now: Option<Subnet>) {
    || now == was
    || (was.Some? && was.value.cidr == "" && was.value.role in CLUSTER_ROLES && now == Some(Fill(was.value)))
  }

  /** A subnet changes only by getting a CIDR where it had none. */
  lemma OnlyCidrs(spec: HubSpec, p: seq<SubnetObject?>, e: seq<Option<Subnet>>, i: nat)
    requires |p| == |e| && i < |e|
    ensures i < |NewEntries(spec, p, e)|
    ensures OnlyCidrFilled(e[i], NewEntries(spec, p, e)[i])
  {
  }

  function MissingControlPlaneNsgs(
      list: Option<seq<Option<HubNsg>>>, subnets: seq<Option<Subnet>>): seq<Option<HubNsg>> {
    [] + MissingNsg(list, subnets, CONTROL_PLANE_ENDPOINT_ROLE) + MissingNsg(list, subnets, CONTROL_PLANE_ROLE)
  }

  lemma TwoAndTwoNsgs(list: Option<seq<Option<HubNsg>>>, subnets: seq<Option<Subnet>>)
    ensures MissingControlPlaneNsgs(list, subnets)
      + MissingNsg(list, subnets, WORKER_ROLE) + MissingNsg(list, subnets, SERVICE_LB_ROLE)
      == MissingNsgs(list, subnets)
  {
  }

  /** `spec` holds all of the cluster but its subnets. */
  class Cluster {
    var spec: HubSpec
    var subnets: seq<SubnetObject?>

    constructor (spec: HubSpec, subnets: seq<SubnetObject?>)
      ensures this.spec == spec && this.subnets == subnets
    {
      this.spec, this.subnets := spec, subnets;
    }

    ghost function Objects(): set<SubnetObject> reads this {
      set o: SubnetObject | o in subnets
    }

    ghost function Value(): HubSpec reads this, Objects() {
      WithSubnets(spec, Deref(subnets))
    }

    method GetSubnet(role: string) returns (found: SubnetObject?)
      ensures found == null <==> !HasSubnet(Deref(subnets), role)
      ensures found != null ==>
        exists i :: 0 <= i < |subnets| && subnets[i] == found && IsFirst(Deref(subnets), i, role)
    {
      for i := 0 to |subnets|
        invariant forall j :: 0 <= j < i ==> !Plays(Deref(subnets)[j], role)
      {
        if subnets[i] != null && subnets[i].value.role == role {
          assert Plays(Deref(subnets)[i], role);
          assert IsFirst(Deref(subnets), i, role);
          return subnets[i];
        }
      }
      return null;
    }

    method GetNodeSubnets() returns (found: seq<SubnetObject>)
      ensures forall o :: o in found <==> o in Objects() && o.value.role == WORKER_ROLE
      ensures found == [] <==> !HasSubnet(Deref(subnets), WORKER_ROLE)
    {
      found := [];
      for i := 0 to |subnets|
        invariant forall o :: o in found <==> o in subnets[..i] && o.value.role == WORKER_ROLE
      {
        if subnets[i] != null && subnets[i].value.role == WORKER_ROLE {
          found := found + [subnets[i]];
        }
      }
      assert subnets[..|subnets|] == subnets;
      if found != [] {
        assert found[0] in found;
        var i :| 0 <= i < |subnets| && subnets[i] == found[0];
        assert Plays(Deref(subnets)[i], WORKER_ROLE);
      }
    }

    /** Only the first subnet of the role changes, through whatever pointers lead to it. */
    method FillFound(found: SubnetObject, role: string, ghost k: nat)
      requires role in CLUSTER_ROLES && role != WORKER_ROLE
      requires k < |subnets| && subnets[k] == found && IsFirst(Deref(subnets), k, role)
      modifies found
      ensures Deref(subnets) == Step(subnets, old(Deref(subnets)), role)
    {
      ghost var e := Deref(subnets);
      if found.value.cidr == "" {
        found.value := found.value.(cidr := DefaultCidr(role));
      }
      forall i | 0 <= i < |e| ensures Deref(subnets)[i] == Step(subnets, e, role)[i] {
        assert Step(subnets, e, role)[i] == StepEntry(subnets, e, i, role);
        if StandsFor(subnets, e, i, role) {
          var j :| 0 <= j < |subnets| && subnets[j] == subnets[i] && IsFirst(e, j, role);
          assert j == k;
        } else {
          assert subnets[i] != found;
        }
      }
    }

    lemma StepOfMissing(role: string)
      requires role in CLUSTER_ROLES && !HasSubnet(Deref(subnets), role)
      ensures Step(subnets, Deref(subnets), role) == Deref(subnets)
    {
    }

    /** Fill the subnet of a role, or make one. */
    method EnsureSubnet(role: string) returns (added: seq<SubnetObject?>)
      requires role in CLUSTER_ROLES && role != WORKER_ROLE
      modifies Objects()
      ensures Deref(subnets) == Step(subnets, old(Deref(subnets)), role)
      ensures forall o :: o in added ==> o != null && fresh(o)
      ensures Deref(added) == MissingSubnet(old(Deref(subnets)), role)
    {
      var found := GetSubnet(role);
      if found == null {
        StepOfMissing(role);
        var s := new SubnetObject(DefaultSubnet(role));
        added := [s];
      } else {
        ghost var k :| 0 <= k < |subnets| && subnets[k] == found && IsFirst(Deref(subnets), k, role);
        FillFound(found, role, k);
        added := [];
      }
    }

    method FillAll(nodes: seq<SubnetObject>)
      requires forall o :: o in nodes <==> o in Objects() && o.value.role == WORKER_ROLE
      modifies Objects()
      ensures Deref(subnets) == Step(subnets, old(Deref(subnets)), WORKER_ROLE)
    {
      ghost var e := Deref(subnets);
      for i := 0 to |nodes|
        invariant forall o | o in Objects() :: o.value == if o in nodes[..i] then Fill(old(o.value)) else old(o.value)
      {
        if nodes[i].value.cidr == "" {
          nodes[i].value := nodes[i].value.(cidr := WORKER_CIDR);
        }
      }
      assert nodes[..|nodes|] == nodes;
      forall i | 0 <= i < |e| ensures Deref(subnets)[i] == Step(subnets, e, WORKER_ROLE)[i] {
        assert Step(subnets, e, WORKER_ROLE)[i] == StepEntry(subnets, e, i, WORKER_ROLE);
        assert subnets[i] != null ==> subnets[i] in Objects();
      }
    }

    method EnsureNodeSubnets() returns (added: seq<SubnetObject?>)
      modifies Objects()
      ensures Deref(subnets) == Step(subnets, old(Deref(subnets)), WORKER_ROLE)
      ensures forall o :: o in added ==> o != null && fresh(o)
      ensures Deref(added) == MissingSubnet(old(Deref(subnets)), WORKER_ROLE)
    {
      var nodes := GetNodeSubnets();
      if nodes == [] {
        StepOfMissing(WORKER_ROLE);
        var s := new SubnetObject(DefaultSubnet(WORKER_ROLE));
        added := [s];
      } else {
        FillAll(nodes);
        added := [];
      }
    }

    /** Two roles one after the other. */
    method EnsureTwo(first: string, second: string) returns (added: seq<SubnetObject?>)
      requires first in CLUSTER_ROLES && second in CLUSTER_ROLES && first != WORKER_ROLE && second != WORKER_ROLE
      modifies Objects()
      ensures Deref(subnets) == Step(subnets, Step(subnets, old(Deref(subnets)), first), second)
      ensures forall o :: o in added ==> o != null && fresh(o)
      ensures Deref(added) == old(
        MissingSubnet(Deref(subnets), first) + MissingSubnet(Step(subnets, Deref(subnets), first), second))
    {
      added := EnsureSubnet(first);
      var more := EnsureSubnet(second);
      DerefConcat(added, more);
      added := added + more;
    }

    /** The three roles that one subnet stands for. */
    method EnsureSingleSubnets() returns (added: seq<SubnetObject?>)
      modifies Objects()
      ensures Deref(subnets) == SingleSteps(subnets, old(Deref(subnets)))
      ensures forall o :: o in added ==> o != null && fresh(o)
      ensures Deref(added) == MissingSingles(old(Deref(subnets)))
    {
      StepsMissing(subnets, Deref(subnets));
      added := EnsureTwo(CONTROL_PLANE_ENDPOINT_ROLE, CONTROL_PLANE_ROLE);
      var more := EnsureSubnet(SERVICE_LB_ROLE);
      DerefConcat(added, more);
      added := added + more;
    }

    /** The list of subnets with the missing roles appended; subnets with an empty CIDR are changed in place. */
    method SubnetSpec() returns (out: seq<SubnetObject?>)
      modifies Objects()
      ensures Deref(subnets) == AllSteps(subnets, old(Deref(subnets)))
      ensures |out| >= |subnets| && out[..|subnets|] == subnets
      ensures Deref(out) == Deref(subnets) + MissingSubnets(old(Deref(subnets)))
    {
      ghost var e := Deref(subnets);
      StepsMissing(subnets, e);
      var a := EnsureSingleSubnets();
      var b := EnsureNodeSubnets();
      assert Deref(a) == MissingSingles(e) && Deref(b) == MissingSubnet(e, WORKER_ROLE);
      out := subnets + (a + b);
      DerefThree(subnets, a, b);
    }

    method IsNsgExitsByRole(role: string) returns (found: bool)
      ensures found == HasNsg(spec.network.vcn.networkSecurityGroup.list, role)
    {
      var list := Listed(spec.network.vcn.networkSecurityGroup.list);
      for i := 0 to |list|
        invariant forall j :: 0 <= j < i ==> !(list[j].Some? && list[j].value.role == role)
      {
        if list[i].Some? && role == list[i].value.role {
          return true;
        }
      }
      return false;
    }

    method IsSecurityListExitsByRole(role: string) returns (found: bool)
      ensures found == HasSecurityList(Deref(subnets), role)
    {
      for i := 0 to |subnets|
        invariant forall j :: 0 <= j < i ==> !(Plays(Deref(subnets)[j], role) && subnets[j].value.securityList.Some?)
      {
        if subnets[i] != null && role == subnets[i].value.role {
          if subnets[i].value.securityList.Some? {
            assert Plays(Deref(subnets)[i], role);
            return true;
          }
        }
      }
      return false;
    }

    method EnsureNsg(role: string, before: Option<seq<Option<HubNsg>>>, ghost more: seq<Option<HubNsg>>)
      returns (out: Option<seq<Option<HubNsg>>>)
      requires role in CLUSTER_ROLES
      requires before == Appended(spec.network.vcn.networkSecurityGroup.list, more)
      ensures out == Appended(
        spec.network.vcn.networkSecurityGroup.list,
        more + MissingNsg(spec.network.vcn.networkSecurityGroup.list, Deref(subnets), role))
    {
      out := before;
      var nsg := IsNsgExitsByRole(role);
      var securityList := IsSecurityListExitsByRole(role);
      ghost var list := spec.network.vcn.networkSecurityGroup.list;
      if !nsg && !securityList {
        out := Some(Listed(out) + [Some(DefaultNsg(role))]);
        assert Listed(before) == Listed(list) + more;
        assert Listed(out) == Listed(list) + (more + [Some(DefaultNsg(role))]);
      } else {
        assert more + MissingNsg(list, Deref(subnets), role) == more;
      }
    }

    method EnsureTwoNsgs(
        first: string, second: string, before: Option<seq<Option<HubNsg>>>, ghost more: seq<Option<HubNsg>>)
      returns (out: Option<seq<Option<HubNsg>>>)
      requires first in CLUSTER_ROLES && second in CLUSTER_ROLES
      requires before == Appended(spec.network.vcn.networkSecurityGroup.list, more)
      ensures var list, entries := spec.network.vcn.networkSecurityGroup.list, Deref(subnets);
        out == Appended(list, more + MissingNsg(list, entries, first) + MissingNsg(list, entries, second))
    {
      out := EnsureNsg(first, before, more);
      ghost var list := spec.network.vcn.networkSecurityGroup.list;
      out := EnsureNsg(second, out, more + MissingNsg(list, Deref(subnets), first));
    }

    method NsgSpec() returns (out: Option<seq<Option<HubNsg>>>)
      ensures out == DefaultNsgs(spec.network.vcn.networkSecurityGroup, Deref(subnets)).list
    {
      ghost var list, entries := spec.network.vcn.networkSecurityGroup.list, Deref(subnets);
      TwoAndTwoNsgs(list, entries);
      out := spec.network.vcn.networkSecurityGroup.list;
      if spec.network.vcn.networkSecurityGroup.skip {
        return;
      }
      out := EnsureTwoNsgs(CONTROL_PLANE_ENDPOINT_ROLE, CONTROL_PLANE_ROLE, out, []);
      out := EnsureTwoNsgs(WORKER_ROLE, SERVICE_LB_ROLE, out, MissingControlPlaneNsgs(list, entries));
    }

    method DefaultIdentifier(uuid: string)
      modifies this`spec
      ensures var id := old(spec).fields.resourceIdentifier;
        spec == old(spec).(fields := old(spec).fields.(resourceIdentifier := if id == "" then uuid else id))
    {
      if spec.fields.resourceIdentifier == "" {
        spec := spec.(fields := spec.fields.(resourceIdentifier := uuid));
      }
    }

    method DefaultNsgField()
      modifies this`spec
      ensures spec == old(spec).(network := old(spec).network.(vcn := old(spec).network.vcn.(
        networkSecurityGroup := DefaultNsgs(old(spec).network.vcn.networkSecurityGroup, Deref(subnets)))))
    {
      var list := NsgSpec();
      var v := spec.network.vcn;
      spec := spec.(network := spec.network.(
        vcn := v.(networkSecurityGroup := v.networkSecurityGroup.(list := list))));
    }

    method DefaultVisibilityField()
      modifies this`spec
      ensures var lb := old(spec).network.apiServerLb;
        spec == old(spec).(network := old(spec).network.(apiServerLb := lb.(
          fields := lb.fields.(networkVisibility := DefaultVisibility(lb.fields.networkVisibility)))))
    {
      var lb := spec.network.apiServerLb;
      if lb.fields.networkVisibility == "" {
        lb := lb.(fields := lb.fields.(networkVisibility := VISIBILITY_INHERITED));
        spec := spec.(network := spec.network.(apiServerLb := lb));
      }
    }

    method DefaultNetworkFields()
      modifies this, Objects()
      ensures |subnets| >= |old(subnets)| && subnets[..|old(subnets)|] == old(subnets)
      ensures Deref(subnets) == old(NewEntries(spec, subnets, Deref(subnets)))
      ensures spec == old(spec) || !old(spec).network.skipNetworkManagement
      ensures !old(spec).network.skipNetworkManagement ==>
        spec == old(spec).(network := old(spec).network.(vcn := old(spec).network.vcn.(
          networkSecurityGroup := DefaultNsgs(old(spec).network.vcn.networkSecurityGroup, Deref(subnets)))))
    {
      if !spec.network.skipNetworkManagement {
        subnets := SubnetSpec();
        DefaultNsgField();
      }
    }

    /** The fields one after the other. */
    method DefaultFields(uuid: string)
      modifies this, Objects()
      ensures |subnets| >= |old(subnets)| && subnets[..|old(subnets)|] == old(subnets)
      ensures Deref(subnets) == old(NewEntries(spec, subnets, Deref(subnets)))
      ensures WithSubnets(spec, []) == WithSubnets(DefaultWith(old(spec), uuid, Deref(subnets)), [])
    {
      DefaultIdentifier(uuid);
      DefaultNetworkFields();
      DefaultVisibilityField();
    }

    /** For any list of pointers, nil and repeated ones included: the user's pointers stay where they are, and
        a subnet changes only by getting a CIDR where it had none; nothing is left to default, and if nothing
        was, nothing has changed.  Where no pointer is repeated, the result is the default of the spec. */
    method Default(uuid: string)
      requires uuid != ""
      modifies this, Objects()
      ensures |subnets| >= |old(subnets)| && subnets[..|old(subnets)|] == old(subnets)
      ensures forall i :: 0 <= i < |old(subnets)| ==> OnlyCidrFilled(old(Deref(subnets))[i], Deref(subnets)[i])
      ensures Settled(Value())
      ensures old(Settled(Value())) ==> Value() == old(Value()) && subnets == old(subnets)
      ensures old(Distinct(subnets)) ==> Value() == DefaultSpec(old(Value()), uuid)
    {
      ghost var p, e, was, value := subnets, Deref(subnets), spec, Value();
      DefaultFields(uuid);
      assert Value() == DefaultWith(value, uuid, NewEntries(was, p, e));
      Outcome(value, uuid, p);
      forall i | 0 <= i < |p| ensures OnlyCidrFilled(e[i], Deref(subnets)[i]) {
        OnlyCidrs(was, p, e, i);
      }
    }
  }
}
