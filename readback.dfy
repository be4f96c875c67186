/**
 * The network part of resourceSoftLayerLbVpxRead: classifying the
 * controller's VLANs into front end (router "fcr...") and back end (router
 * "bcr..."), writing their primary subnets back as "network/cidr", and
 * collecting the VIP pool and the IP count from the attached subnets.
 */
module Readback {
  import opened Outcomes
  import opened Text
  import opened Network

  const FrontEndRouterPrefix := "fcr"
  const BackEndRouterPrefix := "bcr"
  const HostnameKey := "primary_router_hostname"
  const VlanNumberKey := "vlan_number"

  /** What GetObject returns for the fields this part of Read looks at. */
  datatype ControllerView = ControllerView(networkVlans: seq<Vlan>, subnets: seq<Subnet>)

  /** The attributes Read sets from the network data. */
  datatype NetworkAttributes = NetworkAttributes(
    frontEndVlan: map<string, string>,
    backEndVlan: map<string, string>,
    frontEndSubnet: string,
    backEndSubnet: string,
    vipPool: seq<string>,
    ipCount: int)

  /** The guard of the VLAN loop: a router with a non-empty hostname and a positive VLAN number. */
  predicate Listed(v: Vlan) {
    v.router.Some? && v.router.value != "" && v.vlanNumber > 0
  }

  predicate OnRouter(v: Vlan, prefix: string) {
    Listed(v) && HasPrefix(v.router.value, prefix)
  }

  /** The VLAN attribute map after the loop has passed over `vlans`, starting from `start`. */
  function VlanAttributes(vlans: seq<Vlan>, prefix: string, start: map<string, string>): map<string, string> {
    if vlans == [] then start
    else
      var m := VlanAttributes(vlans[..|vlans| - 1], prefix, start);
      var v := vlans[|vlans| - 1];
      if OnRouter(v, prefix) then m[HostnameKey := v.router.value][VlanNumberKey := Itoa(v.vlanNumber)]
      else m
  }

  /** The subnet string after the loop has passed over `vlans`, starting from "". */
  function SubnetAttribute(vlans: seq<Vlan>, prefix: string): string {
    if vlans == [] then ""
    else
      var v := vlans[|vlans| - 1];
      if OnRouter(v, prefix) && |v.primarySubnets| > 0 then FormatSubnet(v.primarySubnets[0])
      else SubnetAttribute(vlans[..|vlans| - 1], prefix)
  }

  /** Every IP address of every subnet, subnet by subnet, in order. */
  function AllIps(subnets: seq<Subnet>): seq<string> {
    if subnets == [] then [] else AllIps(subnets[..|subnets| - 1]) + subnets[|subnets| - 1].ipAddresses
  }

  /** The loop only ever writes the two VLAN keys; every other entry stays as it was. */
  lemma {:induction false} VlanAttributesFrame(vlans: seq<Vlan>, prefix: string, start: map<string, string>)
    ensures var r := VlanAttributes(vlans, prefix, start);
      forall key :: key != HostnameKey && key != VlanNumberKey ==>
        (key in r <==> key in start) && (key in start ==> r[key] == start[key])
  {
    if vlans != [] {
      VlanAttributesFrame(vlans[..|vlans| - 1], prefix, start);
    }
  }

  /** The last VLAN on a matching router decides both keys; earlier ones are overwritten. */
  lemma {:induction false} LastVlanWins(vlans: seq<Vlan>, prefix: string, start: map<string, string>, k: nat)
    requires k < |vlans| && OnRouter(vlans[k], prefix)
    requires forall j :: k < j < |vlans| ==> !OnRouter(vlans[j], prefix)
    ensures VlanAttributes(vlans, prefix, start)
      == start[HostnameKey := vlans[k].router.value][VlanNumberKey := Itoa(vlans[k].vlanNumber)]
    decreases |vlans|
  {
    var init := vlans[..|vlans| - 1];
    if k < |vlans| - 1 {
      LastVlanWins(init, prefix, start, k);
    } else {
      var m := VlanAttributes(init, prefix, start);
      VlanAttributesFrame(init, prefix, start);
      var a := m[HostnameKey := vlans[k].router.value][VlanNumberKey := Itoa(vlans[k].vlanNumber)];
      var b := start[HostnameKey := vlans[k].router.value][VlanNumberKey := Itoa(vlans[k].vlanNumber)];
      assert a.Keys == b.Keys;
      assert forall key :: key in a ==> a[key] == b[key];
    }
  }

  /** With no VLAN on a matching router, the map is left exactly as it was. */
  lemma {:induction false} NoVlanKeepsAttributes(vlans: seq<Vlan>, prefix: string, start: map<string, string>)
    requires forall j :: 0 <= j < |vlans| ==> !OnRouter(vlans[j], prefix)
    ensures VlanAttributes(vlans, prefix, start) == start
    decreases |vlans|
  {
    if vlans != [] {
      NoVlanKeepsAttributes(vlans[..|vlans| - 1], prefix, start);
    }
  }

  /**
   * The subnet string comes from the last matching VLAN that HAS a primary
   * subnet, which need not be the VLAN that set the map: a later matching
   * VLAN without subnets overwrites the map and leaves the string alone.
   */
  lemma {:induction false} LastSubnetWins(vlans: seq<Vlan>, prefix: string, k: nat)
    requires k < |vlans| && OnRouter(vlans[k], prefix) && |vlans[k].primarySubnets| > 0
    requires forall j :: k < j < |vlans| ==> !(OnRouter(vlans[j], prefix) && |vlans[j].primarySubnets| > 0)
    ensures SubnetAttribute(vlans, prefix) == FormatSubnet(vlans[k].primarySubnets[0])
    decreases |vlans|
  {
    if k < |vlans| - 1 {
      LastSubnetWins(vlans[..|vlans| - 1], prefix, k);
    }
  }

  lemma {:induction false} NoSubnetLeavesEmpty(vlans: seq<Vlan>, prefix: string)
    requires forall j :: 0 <= j < |vlans| ==> !(OnRouter(vlans[j], prefix) && |vlans[j].primarySubnets| > 0)
    ensures SubnetAttribute(vlans, prefix) == ""
    decreases |vlans|
  {
    if vlans != [] {
      NoSubnetLeavesEmpty(vlans[..|vlans| - 1], prefix);
    }
  }

  /**
   * The VIP pool begins with the first subnet's addresses, and ip_count
   * counts exactly those, so it never exceeds the pool's size.
   */
  lemma {:induction false} VipPoolStartsWithFirstSubnet(subnets: seq<Subnet>)
    ensures FirstSubnetIpCount(subnets) <= |AllIps(subnets)|
    ensures AllIps(subnets)[..FirstSubnetIpCount(subnets)] == if |subnets| > 0 then subnets[0].ipAddresses else []
    decreases |subnets|
  {
    if |subnets| > 1 {
      var init := subnets[..|subnets| - 1];
      VipPoolStartsWithFirstSubnet(init);
      assert FirstSubnetIpCount(init) == FirstSubnetIpCount(subnets);
      assert AllIps(subnets)[..FirstSubnetIpCount(subnets)] == AllIps(init)[..FirstSubnetIpCount(init)];
    } else if |subnets| == 1 {
      assert subnets[..0] == [];
      assert AllIps(subnets) == subnets[0].ipAddresses;
    }
  }

  /** The VLAN loop of Read: each VLAN on a front-end or back-end router updates that side's attributes. */
  method ReadVlans(vlans: seq<Vlan>, frontEndVlanIn: map<string, string>, backEndVlanIn: map<string, string>)
    returns (frontEndVlan: map<string, string>, backEndVlan: map<string, string>,
             frontEndSubnet: string, backEndSubnet: string)
    ensures frontEndVlan == VlanAttributes(vlans, FrontEndRouterPrefix, frontEndVlanIn)
    ensures backEndVlan == VlanAttributes(vlans, BackEndRouterPrefix, backEndVlanIn)
    ensures frontEndSubnet == SubnetAttribute(vlans, FrontEndRouterPrefix)
    ensures backEndSubnet == SubnetAttribute(vlans, BackEndRouterPrefix)
  {
    frontEndVlan, backEndVlan := frontEndVlanIn, backEndVlanIn;
    frontEndSubnet, backEndSubnet := "", "";
    for i := 0 to |vlans|
      invariant frontEndVlan == VlanAttributes(vlans[..i], FrontEndRouterPrefix, frontEndVlanIn)
      invariant backEndVlan == VlanAttributes(vlans[..i], BackEndRouterPrefix, backEndVlanIn)
      invariant frontEndSubnet == SubnetAttribute(vlans[..i], FrontEndRouterPrefix)
      invariant backEndSubnet == SubnetAttribute(vlans[..i], BackEndRouterPrefix)
    {
      ghost var done := vlans[..i + 1];
      assert done[..i] == vlans[..i] && done[|done| - 1] == vlans[i];
      var vlan := vlans[i];
      if vlan.router.Some? && vlan.router.value != "" && vlan.vlanNumber > 0 {
        var isFcr := HasPrefix(vlan.router.value, FrontEndRouterPrefix);
        var isBcr := HasPrefix(vlan.router.value, BackEndRouterPrefix);
        if isFcr {
          frontEndVlan := frontEndVlan[HostnameKey := vlan.router.value];
          frontEndVlan := frontEndVlan[VlanNumberKey := Itoa(vlan.vlanNumber)];
          if |vlan.primarySubnets| > 0 {
            frontEndSubnet := FormatSubnet(vlan.primarySubnets[0]);
          }
        }
        if isBcr {
          backEndVlan := backEndVlan[HostnameKey := vlan.router.value];
          backEndVlan := backEndVlan[VlanNumberKey := Itoa(vlan.vlanNumber)];
          if |vlan.primarySubnets| > 0 {
            backEndSubnet := FormatSubnet(vlan.primarySubnets[0]);
          }
        }
      }
    }
    assert vlans[..|vlans|] == vlans;
  }

  /** The VIP loop of Read: every address of every subnet, in order, and the first subnet's size. */
  method CollectVips(subnets: seq<Subnet>) returns (vips: seq<string>, ipCount: int)
    ensures vips == AllIps(subnets)
    ensures ipCount == FirstSubnetIpCount(subnets)
  {
    vips, ipCount := [], 0;
    for i := 0 to |subnets|
      invariant vips == AllIps(subnets[..i])
      invariant ipCount == if i == 0 then 0 else FirstSubnetIpCount(subnets)
    {
      assert subnets[..i + 1][..i] == subnets[..i];
      var ips := subnets[i].ipAddresses;
      for j := 0 to |ips|
        invariant vips == AllIps(subnets[..i]) + ips[..j]
        invariant ipCount == if i == 0 then j else FirstSubnetIpCount(subnets)
      {
        assert ips[..j + 1] == ips[..j] + [ips[j]];
        vips := vips + [ips[j]];
        if i == 0 {
          ipCount := ipCount + 1;
        }
      }
      assert ips[..|ips|] == ips;
    }
    assert subnets[..|subnets|] == subnets;
  }

  /** The network part of Read: classify the VLANs, then collect the VIPs. */
  method ReadNetwork(obj: ControllerView, frontEndVlanIn: map<string, string>, backEndVlanIn: map<string, string>)
    returns (attrs: NetworkAttributes)
    ensures attrs.frontEndVlan == VlanAttributes(obj.networkVlans, FrontEndRouterPrefix, frontEndVlanIn)
    ensures attrs.backEndVlan == VlanAttributes(obj.networkVlans, BackEndRouterPrefix, backEndVlanIn)
    ensures attrs.frontEndSubnet == SubnetAttribute(obj.networkVlans, FrontEndRouterPrefix)
    ensures attrs.backEndSubnet == SubnetAttribute(obj.networkVlans, BackEndRouterPrefix)
    ensures attrs.vipPool == AllIps(obj.subnets)
    ensures attrs.ipCount == FirstSubnetIpCount(obj.subnets)
  {
    var frontEndVlan, backEndVlan, frontEndSubnet, backEndSubnet := ReadVlans(obj.networkVlans, frontEndVlanIn, backEndVlanIn);
    var vips, ipCount := CollectVips(obj.subnets);
    attrs := NetworkAttributes(frontEndVlan, backEndVlan, frontEndSubnet, backEndSubnet, vips, ipCount);
  }

  /**
   * Read: the resource id must parse as an integer, then the controller is
   * fetched (the oracle `getObject`) and its network data is written back.
   */
  method Read(resourceId: string, getObject: int -> Result<ControllerView>,
              frontEndVlanIn: map<string, string>, backEndVlanIn: map<string, string>)
    returns (r: Result<NetworkAttributes>)
    ensures Atoi(resourceId).None? ==> r == Failure("Not a valid ID, must be an integer: " + AtoiSyntaxError(resourceId))
    ensures Atoi(resourceId).Some? && getObject(Atoi(resourceId).value).Failure? ==>
      r == Failure("Error retrieving network application delivery controller: " + getObject(Atoi(resourceId).value).error)
    ensures r.Success? <==> Atoi(resourceId).Some? && getObject(Atoi(resourceId).value).Success?
    ensures r.Success? ==>
      var obj := getObject(Atoi(resourceId).value).value;
      && r.value.frontEndVlan == VlanAttributes(obj.networkVlans, FrontEndRouterPrefix, frontEndVlanIn)
      && r.value.backEndVlan == VlanAttributes(obj.networkVlans, BackEndRouterPrefix, backEndVlanIn)
      && r.value.frontEndSubnet == SubnetAttribute(obj.networkVlans, FrontEndRouterPrefix)
      && r.value.backEndSubnet == SubnetAttribute(obj.networkVlans, BackEndRouterPrefix)
      && r.value.vipPool == AllIps(obj.subnets)
      && r.value.ipCount == FirstSubnetIpCount(obj.subnets)
  {
    var id := Atoi(resourceId);
    if id.None? {
      return Failure("Not a valid ID, must be an integer: " + AtoiSyntaxError(resourceId));
    }
    var getObjectResult := getObject(id.value);
    if getObjectResult.Failure? {
      return Failure("Error retrieving network application delivery controller: " + getObjectResult.error);
    }
    var attrs := ReadNetwork(getObjectResult.value, frontEndVlanIn, backEndVlanIn);
    return Success(attrs);
  }
}
