/**
 * Network attachments of an application delivery controller as the
 * SoftLayer API reports them, and the "networkIdentifier/cidr" subnet
 * strings that the resource accepts (getSubnetId) and writes back (Read).
 */
module Network {
  import opened Outcomes
  import opened Text

  const SubnetSeparator := '/'

  /** An attached subnet with its IP addresses (a nil list in Go is the empty one here). */
  datatype Subnet = Subnet(ipAddresses: seq<string>)

  /** The primary subnet of a VLAN. */
  datatype VlanSubnet = VlanSubnet(networkIdentifier: string, cidr: int)

  /** A VLAN association; `router` is the primary router's hostname, `None` for a nil router. */
  datatype Vlan = Vlan(router: Option<string>, vlanNumber: int, primarySubnets: seq<VlanSubnet>)

  /**
   * The IP count both the VIP wait and Read rely on: the addresses of the
   * first subnet only, 0 when there is no subnet.
   */
  function FirstSubnetIpCount(subnets: seq<Subnet>): nat {
    if |subnets| > 0 then |subnets[0].ipAddresses| else 0
  }

  /** The split at the start of getSubnetId: exactly two pieces around '/'. */
  function ParseSubnet(subnet: string): Result<(string, string)> {
    var subnetInfo := Split(subnet, SubnetSeparator);
    if |subnetInfo| != 2 then Failure("Unable to parse the provided subnet: " + subnet)
    else Success((subnetInfo[0], subnetInfo[1]))
  }

  /**
   * getSubnetId: parse, then look the (networkIdentifier, cidr) pair up; the
   * account-service query is the oracle `lookup`, which yields matching ids.
   */
  function GetSubnetId(subnet: string, lookup: (string, string) -> Result<seq<int>>): (r: Result<int>)
    ensures ParseSubnet(subnet).Failure? ==> r == Failure(ParseSubnet(subnet).error)
    ensures ParseSubnet(subnet).Success? ==>
      var (networkIdentifier, cidr) := ParseSubnet(subnet).value;
      var found := lookup(networkIdentifier, cidr);
      && (found.Failure? ==> r == Failure("Error looking up Subnet: " + found.error))
      && (found.Success? && |found.value| == 0 ==>
            r == Failure("Unable to locate a subnet matching the provided subnet: " + subnet))
      && (found.Success? && |found.value| > 0 ==> r == Success(found.value[0]))
  {
    match ParseSubnet(subnet)
    case Failure(e) => Failure(e)
    case Success((networkIdentifier, cidr)) =>
      match lookup(networkIdentifier, cidr)
      case Failure(e) => Failure("Error looking up Subnet: " + e)
      case Success(ids) =>
        if |ids| < 1 then Failure("Unable to locate a subnet matching the provided subnet: " + subnet)
        else Success(ids[0])
  }

  /** How Read writes a VLAN's primary subnet back: networkIdentifier + "/" + itoa(cidr). */
  function FormatSubnet(s: VlanSubnet): string {
    s.networkIdentifier + [SubnetSeparator] + Itoa(s.cidr)
  }

  /**
   * A subnet string is accepted exactly when it holds one '/', and then the
   * two parts are the text on either side of it.
   */
  lemma ParseSubnetAccepts(subnet: string)
    ensures ParseSubnet(subnet).Success? <==> CountChar(subnet, SubnetSeparator) == 1
    ensures ParseSubnet(subnet).Success? ==>
      var (networkIdentifier, cidr) := ParseSubnet(subnet).value;
      networkIdentifier + [SubnetSeparator] + cidr == subnet &&
      SubnetSeparator !in networkIdentifier && SubnetSeparator !in cidr
  {
    var parts := Split(subnet, SubnetSeparator);
    if |parts| == 2 {
      JoinSplit(subnet, SubnetSeparator);
      assert Join(parts, [SubnetSeparator]) == parts[0] + [SubnetSeparator] + parts[1];
    }
  }

  lemma {:induction false} SplitAfterFirst(a: string, sep: char, b: string)
    requires sep !in a
    ensures Split(a + [sep] + b, sep) == [a] + Split(b, sep)
  {
    if a == [] {
      assert a + [sep] + b == [sep] + b;
      assert ([sep] + b)[1..] == b;
    } else {
      assert (a + [sep] + b)[1..] == a[1..] + [sep] + b;
      SplitAfterFirst(a[1..], sep, b);
      assert [a[0]] + a[1..] == a;
    }
  }

  /**
   * What Read writes, getSubnetId parses back into the same two parts,
   * provided the network identifier has no '/' of its own; if it has one,
   * the written string is rejected.
   */
  lemma FormatThenParse(s: VlanSubnet)
    ensures SubnetSeparator !in s.networkIdentifier ==>
      ParseSubnet(FormatSubnet(s)) == Success((s.networkIdentifier, Itoa(s.cidr)))
    ensures SubnetSeparator in s.networkIdentifier ==> ParseSubnet(FormatSubnet(s)).Failure?
  {
    var cidr := Itoa(s.cidr);
    assert SubnetSeparator !in cidr;
    if SubnetSeparator !in s.networkIdentifier {
      SplitAfterFirst(s.networkIdentifier, SubnetSeparator, cidr);
      SplitWithoutSeparator(cidr, SubnetSeparator);
    } else {
      CountCharZero(s.networkIdentifier, SubnetSeparator);
      CountCharAppend(s.networkIdentifier, [SubnetSeparator] + cidr, SubnetSeparator);
      assert FormatSubnet(s) == s.networkIdentifier + ([SubnetSeparator] + cidr);
      ParseSubnetAccepts(FormatSubnet(s));
    }
  }
}
