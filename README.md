# SoftLayer NetScaler VPX load balancer, modelled in Dafny

The model covers the `softlayer_lb_vpx` resource of the Terraform SoftLayer provider. This resource orders a Citrix NetScaler VPX application delivery controller. It waits until the controller is provisioned, reads back its network attachments, and pairs two controllers for high availability (HA) through the Nitro REST API.

The model has seven modules:

- **Outcomes** holds the `Option`, `Result` and `Outcome` wrappers for Go's `(value, error)` and `error` returns.
- **Text** holds the parts of `strconv` and `strings` the resource relies on:
  - `Itoa` and `Atoi`;
  - `Replace` for one character;
  - ASCII `ToUpper`;
  - `HasPrefix`;
  - `Split` and `Join`.
- **Catalog** holds the catalog key names and the price selection of `findVPXPriceItems`.
- **Network** holds the subnet, VLAN and subnet-string handling: the split in `getSubnetId` and the `network/cidr` formatter of Read.
- **Readback** holds the VLAN classification and VIP accumulation of `resourceSoftLayerLbVpxRead`.
- **Provisioning** holds the three readiness waits of `resourceSoftLayerLbVpxCreate`:
  - the order-binding refresh closure of `findVPXByOrderId`, run by a bounded `WaitForState`;
  - the VIP poll loop;
  - the REST probe loop.

  It also holds the chain of steps in Create up to its final Read.
- **HaPairing** holds `nitroConfigureHA` and `nitroDeleteHA`, and the `ha_secondary` branch of `resourceSoftLayerLbVpxUpdate`.

### How the remote side is modelled

- **Appliances.** Each NetScaler appliance is found by its management IP and is a value with four parts:
  - a root password;
  - HA nodes by id;
  - RPC nodes by IP;
  - a file-sync flag.
- **The `Cloud` class.** It holds the account's controller directory, the appliances, the trace of issued Nitro calls, and a map of injected faults by trace position.
- **When a call is accepted.** A call is accepted when all three of these hold:
  - no fault is injected at its position;
  - its address is known;
  - it authenticates with the appliance's current root password.
- **The `NitroClient` class.** It has a constant `IpAddress` and a mutable `Password`, as in the source's session object.
- **How the methods are proved.** The methods change these objects step by step. They are proved equal to pure plans, `EstablishPlan` and `TeardownPlan`, run through `RunFrom`. Lemmas about the plans then state the order of the calls, where the sequence stops, and how credentials propagate.
- **Oracles.** The SoftLayer API answers are oracles, indexed by poll number or by request:
  - product lookups;
  - order lookups;
  - `GetObject`;
  - `GetLoadBalancers`;
  - subnet search.

## Model

| member | source | states |
|---|---|---|
| Text.Itoa | softlayer/resource_softlayer_lb_vpx.go:227 | `strconv.Itoa`. The result is non-empty, has a leading '-' exactly for negative numbers, and otherwise holds only digits. It is the canonical spelling: no leading zero, so "0" is the only spelling that starts with '0', and no "-0" |
| Text.AtoiItoa | softlayer/resource_softlayer_lb_vpx.go:599-606 | Formatting an id with `%d` and parsing it back with `strconv.Atoi` gives back the same number, so Create's Atoi of its own id never fails |
| Text.ItoaInjective | softlayer/resource_softlayer_lb_vpx.go:227 | Different numbers have different decimal spellings |
| Text.Atoi | softlayer/resource_softlayer_lb_vpx.go:661-664 | `strconv.Atoi` succeeds exactly on an optional sign followed by at least one digit. The number it returns is the one whose `Itoa` spelling is the input with any '+', any leading zeros and the sign of a zero removed, so "+7", "007" and "7" all give 7 |
| Text.Replace | softlayer/resource_softlayer_lb_vpx.go:226 | `strings.Replace(version, ".", "_", -1)`: the length is kept, every '.' becomes '_', and every other character stays in place |
| Text.ToUpper | softlayer/resource_softlayer_lb_vpx.go:229 | `strings.ToUpper` on the plan: the length is kept, every lower-case ASCII letter becomes its upper-case form, and every other character is unchanged |
| Text.Split | softlayer/resource_softlayer_lb_vpx.go:192 | `strings.Split` on '/': one more piece than there are separators, and no piece contains the separator |
| Text.JoinSplit | softlayer/resource_softlayer_lb_vpx.go:192 | Joining the pieces of a split with the separator gives back the original string |
| Catalog.VpxKeyLayout | softlayer/resource_softlayer_lb_vpx.go:223-230 | The VPX key is "CITRIX_NETSCALER_VPX_" + the version with every '.' turned into '_' + "_" + itoa(speed) + "MBPS_" + the upper-cased plan |
| Catalog.VpxKeyAroundSpeed | softlayer/resource_softlayer_lb_vpx.go:223-230 | The VPX key is the text before the speed, the decimal speed, and the text after it |
| Catalog.PublicIpKeyLayout | softlayer/resource_softlayer_lb_vpx.go:232-237 | The IP key is itoa(ipCount) + "_STATIC_PUBLIC_IP_ADDRESSES" |
| Catalog.KeysNeverCollide | softlayer/resource_softlayer_lb_vpx.go:223-237 | No VPX key is equal to any IP key, so one catalog item can never supply both prices |
| Catalog.PublicIpKeyInjective | softlayer/resource_softlayer_lb_vpx.go:232-237 | Two IP counts give the same key if and only if they are equal |
| Catalog.VpxKeySpeedInjective | softlayer/resource_softlayer_lb_vpx.go:223-230 | With version and plan fixed, two speeds give the same key if and only if they are equal |
| Catalog.SelectedPriceIsLastMatch | softlayer/resource_softlayer_lb_vpx.go:258-268 | The scan keeps `Prices[0]` of the last item whose key matches; later matches overwrite earlier ones |
| Catalog.SelectedPriceWithoutMatch | softlayer/resource_softlayer_lb_vpx.go:258-268 | With no matching item, the zero-valued price (no id) is kept |
| Catalog.PriceSelectionOutcome | softlayer/resource_softlayer_lb_vpx.go:270-292 | The selection succeeds exactly when both prices have ids, and then returns [vpx id, ip id] in that order. Otherwise the error has one message per missing item, joined by "\n" (VPX message first) |
| Catalog.FindVpxPriceItems | softlayer/resource_softlayer_lb_vpx.go:239-293 | A failure of either package lookup is returned unchanged. Otherwise the loop over the items and the error collection give exactly the selection above |
| Network.GetSubnetId | softlayer/resource_softlayer_lb_vpx.go:189-221 | A string that does not split into two parts is rejected with the parse error. After a good parse: a lookup error gives "Error looking up Subnet: " and the error; an empty answer gives "Unable to locate a subnet matching the provided subnet"; otherwise the result is the first id found |
| Network.ParseSubnetAccepts | softlayer/resource_softlayer_lb_vpx.go:192-199 | A subnet string is accepted if and only if it contains exactly one '/'. Its two parts, joined with '/', give back the string, and neither part contains '/' |
| Network.FormatThenParse | softlayer/resource_softlayer_lb_vpx.go:694-698 | What Read writes, `networkIdentifier + "/" + itoa(cidr)`, parses back into (networkIdentifier, itoa(cidr)) when the identifier has no '/'. If the identifier has a '/', the string is rejected |
| Readback.VlanAttributesFrame | softlayer/resource_softlayer_lb_vpx.go:686-712 | The VLAN loop writes only "primary_router_hostname" and "vlan_number"; every other entry of the prior map stays as it was |
| Readback.LastVlanWins | softlayer/resource_softlayer_lb_vpx.go:686-712 | The last listed VLAN whose router starts with the prefix decides both keys |
| Readback.NoVlanKeepsAttributes | softlayer/resource_softlayer_lb_vpx.go:686-712 | With no VLAN on a matching router, the prior map is kept exactly |
| Readback.LastSubnetWins | softlayer/resource_softlayer_lb_vpx.go:694-698 | The subnet string comes from the last matching VLAN that has a primary subnet. That need not be the VLAN that set the map |
| Readback.NoSubnetLeavesEmpty | softlayer/resource_softlayer_lb_vpx.go:683-684 | With no matching VLAN that has a subnet, the subnet string stays "" |
| Readback.VipPoolStartsWithFirstSubnet | softlayer/resource_softlayer_lb_vpx.go:719-728 | ip_count counts only the first subnet's addresses, and vip_pool starts with exactly those, so ip_count never exceeds the pool's size |
| Readback.ReadVlans | softlayer/resource_softlayer_lb_vpx.go:681-712 | The VLAN loop leaves the front-end and back-end maps and subnet strings equal to `VlanAttributes` / `SubnetAttribute` for "fcr" and "bcr" |
| Readback.CollectVips | softlayer/resource_softlayer_lb_vpx.go:719-728 | The nested loop yields every address of every subnet in order, and the first subnet's address count |
| Readback.ReadNetwork | softlayer/resource_softlayer_lb_vpx.go:681-731 | All six network attributes Read sets, each given by its specification function |
| Readback.Read | softlayer/resource_softlayer_lb_vpx.go:657-731 | A non-integer id and a failed GetObject give their errors. Read succeeds if and only if the id parses and GetObject succeeds, and a success carries the six network attributes of the fetched controller |
| Provisioning.RefreshOrderCases | softlayer/resource_softlayer_lb_vpx.go:301-318 | The refresh closure's cases: a lookup error is fatal; zero matches is "pending"; exactly one is "complete" with that controller; more than one is fatal and never pending |
| Provisioning.WaitPendingThenComplete | softlayer/resource_softlayer_lb_vpx.go:298-325 | N pending refreshes, then a complete one: the wait makes N + 1 refreshes and yields the result |
| Provisioning.WaitFatalNotRetried | softlayer/resource_softlayer_lb_vpx.go:298-325 | A refresh error ends the wait at once with that error, whatever budget is left |
| Provisioning.WaitTimesOut | softlayer/resource_softlayer_lb_vpx.go:320-325 | Pending throughout the budget ends in the timeout error |
| Provisioning.WaitSkipsPending | softlayer/resource_softlayer_lb_vpx.go:298-325 | A run of pending refreshes has no effect on the wait's outcome |
| Provisioning.WaitSuccessMeans | softlayer/resource_softlayer_lb_vpx.go:298-325 | A successful wait stays within budget and carries the result of a complete refresh, and every refresh before it was pending |
| Provisioning.WaitForState | softlayer/resource_softlayer_lb_vpx.go:325 | The bounded refresh loop computes exactly `WaitFrom` |
| Provisioning.OrderBindingYieldsMatch | softlayer/resource_softlayer_lb_vpx.go:325-338 | The "Cannot find" branch cannot be reached. A successful binding is the single controller of the lookup that completed, after zero-match lookups only |
| Provisioning.AmbiguousOrderFatal | softlayer/resource_softlayer_lb_vpx.go:316-317 | More than one controller on the order fails at once with "Expected one VPX: %!s(<nil>)" and is not retried |
| Provisioning.OrderBoundOnThirdLookup | softlayer/resource_softlayer_lb_vpx.go:312-315 | Two empty lookups, then one controller: the order is bound to it on the third refresh |
| Provisioning.FindVpxByOrderId | softlayer/resource_softlayer_lb_vpx.go:295-339 | The wait followed by the type assertion computes exactly `OrderBinding` |
| Provisioning.VipWaitSkipsPending | softlayer/resource_softlayer_lb_vpx.go:611-627 | Polls that see no address on the first subnet do not change the VIP wait's outcome |
| Provisioning.VipWaitOutcome | softlayer/resource_softlayer_lb_vpx.go:609-631 | At most 60 polls. The wait ends at the first poll that fails (fatal, with the "Error retrieving" message) or that sees an address on the first subnet (success). After 60 empty polls it reports "Failed to create VIPs" |
| Provisioning.VipReadyOnLastPoll | softlayer/resource_softlayer_lb_vpx.go:611-624 | 59 empty polls and an address on the 60th: the wait succeeds on the 60th poll |
| Provisioning.WaitForVips | softlayer/resource_softlayer_lb_vpx.go:609-631 | The VIP loop with its `IsVipReady` flag and counter computes exactly `VipWaitFrom` |
| Provisioning.RestWaitOutcome | softlayer/resource_softlayer_lb_vpx.go:635-649 | At most 60 probes. Probe errors are only retried; the wait succeeds on the first error-free probe and fails with "Failed to intialize VPX REST Service" only after 60 failed probes |
| Provisioning.WaitForRest | softlayer/resource_softlayer_lb_vpx.go:635-649 | The REST loop with its `IsRESTReady` flag and counter computes exactly `RestWaitFrom` |
| Provisioning.CreateReadyIff | softlayer/resource_softlayer_lb_vpx.go:546-654 | Create reaches its final Read if and only if each step succeeds in order: prices, datacenter (when given), hardware options, order, a single bound controller, VIPs within 60 polls, REST within 60 probes. The id it goes on with is that controller's |
| Provisioning.Create | softlayer/resource_softlayer_lb_vpx.go:546-654 | The chain of calls and early returns in Create computes exactly `CreateOutcome` |
| HaPairing.WithoutNode | softlayer/resource_softlayer_lb_vpx.go:520 | Deleting an HA node by name removes exactly the node whose id the name spells in decimal and keeps every other node's address |
| HaPairing.Deliver | softlayer/resource_softlayer_lb_vpx.go:425 | A Nitro call is accepted if and only if there is no fault at its position, its address is known and its password is the appliance's root password. An accepted call changes only its own appliance; a rejected one changes nothing |
| HaPairing.RunIssuesPrefix | softlayer/resource_softlayer_lb_vpx.go:425-428 | A sequence of calls that stops at the first error has issued a prefix of its calls and nothing else |
| HaPairing.RunLength | softlayer/resource_softlayer_lb_vpx.go:499-503 | A run that passes has issued every call; one that stops short has failed |
| HaPairing.Cloud.Receive | softlayer/resource_softlayer_lb_vpx.go:425 | The remote side of one call: the appliances change as `Deliver` says, and the trace grows by the call |
| HaPairing.NitroClient.Send | softlayer/resource_softlayer_lb_vpx.go:439 | A session's Update, Add or Delete sends the request with the session's current password |
| HaPairing.GetNitroClient | softlayer/resource_softlayer_lb_vpx.go:398-406 | It gives a fresh root session on the controller's management IP with its directory password, if and only if the controller is known; otherwise null |
| HaPairing.SendNext | softlayer/resource_softlayer_lb_vpx.go:425-428 | One call of a plan and its early return: either the run of the remaining plan stops at it, or it carries on from the next call |
| HaPairing.HandOverPassword | softlayer/resource_softlayer_lb_vpx.go:418-430 | Step 1. The secondary's root password is set to the primary's. Only if that is accepted does the secondary session switch to it; on a refusal the session keeps its old password. The primary session's password never changes |
| HaPairing.RegisterHaNodes | softlayer/resource_softlayer_lb_vpx.go:432-454 | Steps 2 and 3: node 2 is added with the secondary's address on the primary, then with the primary's address on the secondary, stopping at the first error |
| HaPairing.RegisterRpcNodes | softlayer/resource_softlayer_lb_vpx.go:456-490 | Steps 4 and 5 on one session: an RPC node for the primary's address with the primary's password, then the same request re-aimed at the secondary's address |
| HaPairing.SyncFiles | softlayer/resource_softlayer_lb_vpx.go:492-503 | Step 6: the primary syncs all files with "action=sync", and the run ends there |
| HaPairing.ConfigureHa | softlayer/resource_softlayer_lb_vpx.go:408-504 | nitroConfigureHA leaves the appliances, the trace and the error exactly as `Establish` says |
| HaPairing.DeleteHa | softlayer/resource_softlayer_lb_vpx.go:506-544 | nitroDeleteHA leaves the appliances, the trace and the error exactly as `Teardown` says |
| HaPairing.SessionsBeforeCalls | softlayer/resource_softlayer_lb_vpx.go:409-416 | If either controller is unknown, nothing is sent and its error is returned. Otherwise establish issues a non-empty prefix of the eight calls, all eight when it passes, and any shorter prefix means it failed |
| HaPairing.EstablishCredentials | softlayer/resource_softlayer_lb_vpx.go:418-499 | The establish order. It begins with the root password update (to the primary's password) on the secondary, authenticated with the secondary's own password. Every later call uses the primary's password, both RPC-node requests carry it, and only the first call updates a system user |
| HaPairing.RunKeepsPassword | softlayer/resource_softlayer_lb_vpx.go:418-544 | Calls that include no system-user update sent to an appliance leave that appliance's root password unchanged |
| HaPairing.PrimaryPasswordKept | softlayer/resource_softlayer_lb_vpx.go:408-544 | Whatever fails, neither establish nor teardown ever changes the primary's root password |
| HaPairing.FirstFaultStops | softlayer/resource_softlayer_lb_vpx.go:425-502 | At the first injected fault, the calls before it stay in effect (no rollback), that call's error is returned, and no later call is issued |
| HaPairing.PrimaryStep | softlayer/resource_softlayer_lb_vpx.go:439 | An accepted call to the primary moves the run on by one call and changes only the primary |
| HaPairing.SecondaryStep | softlayer/resource_softlayer_lb_vpx.go:451 | An accepted call to the secondary moves the run on by one call and changes only the secondary |
| HaPairing.EstablishCall0 | softlayer/resource_softlayer_lb_vpx.go:418-428 | Step 1 accepted: the secondary's root password becomes the primary's |
| HaPairing.EstablishCall1 | softlayer/resource_softlayer_lb_vpx.go:432-442 | Step 2 accepted: the primary has the secondary as HA node 2 |
| HaPairing.EstablishCalls23 | softlayer/resource_softlayer_lb_vpx.go:444-466 | Step 3 and the first call of step 4, accepted: the secondary has the primary as node 2, and the primary has its own RPC node |
| HaPairing.EstablishCalls45 | softlayer/resource_softlayer_lb_vpx.go:468-484 | The secondary's RPC node is registered on the primary, and the primary's on the secondary |
| HaPairing.EstablishCalls67 | softlayer/resource_softlayer_lb_vpx.go:486-503 | The secondary's own RPC node, then the file sync; the run ends passing |
| HaPairing.FirstFourAccepted | softlayer/resource_softlayer_lb_vpx.go:418-466 | The first four calls accepted, composed |
| HaPairing.LastFourAccepted | softlayer/resource_softlayer_lb_vpx.go:468-503 | The last four calls accepted, composed |
| HaPairing.EightAccepted | softlayer/resource_softlayer_lb_vpx.go:418-503 | Any eight accepted calls in the establish order pair the two appliances and leave all the others alone |
| HaPairing.EstablishFaultFree | softlayer/resource_softlayer_lb_vpx.go:408-504 | Without faults, all eight calls are issued and accepted. The secondary ends with the primary's root password, each appliance has the other as node 2, both have both addresses as RPC nodes with the primary's password, the primary is synced, and no other appliance changes |
| HaPairing.EstablishStopsAtFault | softlayer/resource_softlayer_lb_vpx.go:408-504 | A fault at establish call k returns its error. Calls 0..k are issued and the effects of calls 0..k-1 stay in place; nothing after call k is issued |
| HaPairing.StalePasswordRefused | softlayer/resource_softlayer_lb_vpx.go:430 | After the password hand-over, the secondary's old password no longer authenticates. This is why the source switches the secondary session's password |
| HaPairing.PeerNodeNameDesignatesPeer | softlayer/resource_softlayer_lb_vpx.go:520-526 | The node name "2" that teardown deletes is the id 2 that establish registers |
| HaPairing.DeletePeerNode | softlayer/resource_softlayer_lb_vpx.go:520-526 | Deleting node "2" removes exactly HA node 2 |
| HaPairing.RunSparesOtherNodes | softlayer/resource_softlayer_lb_vpx.go:519-541 | Deletes of node "2" and system-user updates neither remove, add nor change any other HA node |
| HaPairing.TeardownOnlyRemovesPeer | softlayer/resource_softlayer_lb_vpx.go:506-544 | Whatever fails, teardown neither removes, adds nor changes any HA node other than node 2, on any appliance |
| HaPairing.TeardownFaultFree | softlayer/resource_softlayer_lb_vpx.go:506-544 | Start from a pair whose secondary has the primary's password, with no faults. Node 2 goes from the secondary and then from the primary, the secondary gets its directory password (`passwordOrg`) back, and nothing else changes |
| HaPairing.TeardownInterrupted | softlayer/resource_softlayer_lb_vpx.go:516-541 | The password is restored only after both deletes succeed. A fault at the first delete changes nothing. A fault at the second leaves the secondary without node 2 but still on the primary's password |
| HaPairing.DecideUpdateCases | softlayer/resource_softlayer_lb_vpx.go:764-792 | Update acts only when ha_secondary changed. With properties present it establishes HA with primary_id as primary and the resource as secondary. With none, it tears down the pair whose primary was recorded before the change |
| HaPairing.Update | softlayer/resource_softlayer_lb_vpx.go:761-795 | resourceSoftLayerLbVpxUpdate as written: the calls it makes and what it returns are exactly `UpdateAsWritten` |
| HaPairing.UpdateHidesTeardownFailure | softlayer/resource_softlayer_lb_vpx.go:791-794 | As written, a teardown reports success whatever its calls did |
| HaPairing.UpdateHidesTeardownFailureExample | softlayer/resource_softlayer_lb_vpx.go:791-794 | For the concrete input below: the teardown fails, the as-written Update reports success, and the intended Update reports the failure |
| HaPairing.UpdateIntendedReports | softlayer/resource_softlayer_lb_vpx.go:776-794 | As intended, Update succeeds if and only if there was nothing to do or the HA operation it chose succeeded. It leaves the same appliances and issues the same calls (the same trace) as the code as written |
| Text.HasPrefix | softlayer/resource_softlayer_lb_vpx.go:688-689 | `strings.HasPrefix`: the prefix is no longer than the string and equals its first characters. It has no contract; `Readback.LastVlanWins` and the Readback rows use it |
| Text.Join | softlayer/resource_softlayer_lb_vpx.go:229 | `strings.Join`: the parts with the separator between each two. It has no contract; `Text.JoinSplit` relates it to `Split`, and `Catalog.VpxKeyLayout` spells out the keys built with it |
| Catalog.VpxPriceItemKeyName | softlayer/resource_softlayer_lb_vpx.go:223-230 | getVPXPriceItemKeyName: the item name, the version with '.' replaced, the speed with "MBPS" and the upper-cased plan, joined by '_'. It has no contract; its layout and injectivity are `Catalog.VpxKeyLayout` and `Catalog.VpxKeySpeedInjective` |
| Catalog.PublicIpItemKeyName | softlayer/resource_softlayer_lb_vpx.go:232-237 | getPublicIpItemKeyName: the IP count and the item name, joined by '_'. It has no contract; see `Catalog.PublicIpKeyLayout` and `Catalog.PublicIpKeyInjective` |
| Catalog.SelectedPrice | softlayer/resource_softlayer_lb_vpx.go:258-268 | The price the item loop ends with for one key. It has no contract; `Catalog.SelectedPriceIsLastMatch` and `Catalog.SelectedPriceWithoutMatch` characterise it |
| Catalog.PriceSelection | softlayer/resource_softlayer_lb_vpx.go:270-292 | The result of findVPXPriceItems once it has the items. It has no contract; `Catalog.PriceSelectionOutcome` characterises it |
| Network.ParseSubnet | softlayer/resource_softlayer_lb_vpx.go:192-199 | The split of getSubnetId into networkIdentifier and cidr, with its parse error. It has no contract; `Network.ParseSubnetAccepts` characterises it |
| Network.FormatSubnet | softlayer/resource_softlayer_lb_vpx.go:694-697 | How Read writes a primary subnet: networkIdentifier + "/" + itoa(cidr). It has no contract; `Network.FormatThenParse` relates it to `ParseSubnet` |
| Readback.VlanAttributes | softlayer/resource_softlayer_lb_vpx.go:686-712 | The front-end or back-end VLAN map after the loop. It has no contract; `Readback.VlanAttributesFrame`, `Readback.LastVlanWins` and `Readback.NoVlanKeepsAttributes` characterise it |
| Readback.SubnetAttribute | softlayer/resource_softlayer_lb_vpx.go:683-712 | The front-end or back-end subnet string after the loop. It has no contract; `Readback.LastSubnetWins` and `Readback.NoSubnetLeavesEmpty` characterise it |
| Readback.AllIps | softlayer/resource_softlayer_lb_vpx.go:719-728 | vip_pool: every address of every subnet, in order. It has no contract; see `Readback.VipPoolStartsWithFirstSubnet` |
| Provisioning.RefreshOrder | softlayer/resource_softlayer_lb_vpx.go:301-318 | The refresh closure of findVPXByOrderId. It has no contract; `Provisioning.RefreshOrderCases` characterises it |
| Provisioning.WaitFrom | softlayer/resource_softlayer_lb_vpx.go:298-325 | WaitForState over the refreshes, bounded by `budget`. It has no contract; the `Wait…` lemmas characterise it |
| Provisioning.OrderBinding | softlayer/resource_softlayer_lb_vpx.go:325-338 | findVPXByOrderId: the wait, then the type assertion with its "Cannot find" error. It has no contract; see `Provisioning.OrderBindingYieldsMatch` and `Provisioning.AmbiguousOrderFatal` |
| Provisioning.VipWaitFrom | softlayer/resource_softlayer_lb_vpx.go:609-631 | The VIP wait. It has no contract; `Provisioning.VipWaitOutcome` characterises it |
| Provisioning.RestWaitFrom | softlayer/resource_softlayer_lb_vpx.go:635-649 | The REST wait. It has no contract; `Provisioning.RestWaitOutcome` characterises it |
| Provisioning.CreateOutcome | softlayer/resource_softlayer_lb_vpx.go:546-654 | Create's chain of steps and early returns up to the final Read. It has no contract; `Provisioning.CreateReadyIff` characterises it |
| HaPairing.Apply | softlayer/resource_softlayer_lb_vpx.go:419-538 | What each accepted Nitro request does to its appliance: the root password, an HA node, an RPC node, the file sync, the deletion of a node. It has no contract; `HaPairing.Deliver` and `HaPairing.DeletePeerNode` use it |
| HaPairing.RunFrom | softlayer/resource_softlayer_lb_vpx.go:425-503 | Issuing calls in order and stopping at the first error (`if err != nil { return err }`). It keeps the set of appliances; `HaPairing.RunIssuesPrefix`, `HaPairing.RunLength` and `HaPairing.FirstFaultStops` characterise the rest |
| HaPairing.EstablishPlan | softlayer/resource_softlayer_lb_vpx.go:418-503 | The eight calls of nitroConfigureHA in order. It has no contract; `HaPairing.EstablishCredentials` states their credentials and `HaPairing.EstablishFaultFree` their effect |
| HaPairing.TeardownPlan | softlayer/resource_softlayer_lb_vpx.go:516-541 | The three calls of nitroDeleteHA in order. It has no contract; see `HaPairing.TeardownFaultFree` and `HaPairing.TeardownInterrupted` |
| HaPairing.Establish | softlayer/resource_softlayer_lb_vpx.go:408-504 | nitroConfigureHA on a given state: both sessions first, then the plan. It has no contract; see `HaPairing.SessionsBeforeCalls` |
| HaPairing.Teardown | softlayer/resource_softlayer_lb_vpx.go:506-544 | nitroDeleteHA on a given state. It has no contract; see `HaPairing.SessionsBeforeCalls` and `HaPairing.TeardownOnlyRemovesPeer` |
| HaPairing.DecideUpdate | softlayer/resource_softlayer_lb_vpx.go:764-792 | The branch that resourceSoftLayerLbVpxUpdate takes. It has no contract; `HaPairing.DecideUpdateCases` characterises it |
| HaPairing.UpdateAsWritten | softlayer/resource_softlayer_lb_vpx.go:761-795 | resourceSoftLayerLbVpxUpdate as written, with the teardown error dropped. It has no contract; see `HaPairing.UpdateHidesTeardownFailure` |
| HaPairing.UpdateIntended | softlayer/resource_softlayer_lb_vpx.go:776-794 | resourceSoftLayerLbVpxUpdate with the teardown error returned. It has no contract; see `HaPairing.UpdateIntendedReports` |

## Left out

- The schema declaration, `d.Get`/`d.Set` plumbing, logging, and `prepareHardwareOptions`, `getVlanId`, Delete and Exists are left out. They are provider glue or forward a single remote call. `prepareHardwareOptions` appears only as the `hardwareOptions` oracle of `CreateRemote`.
- The parsing of the description in Read (speed, version, plan) is left out. It depends on Go `regexp` semantics.
- Sleeps are left out: the 10-second pauses in the VIP and REST loops, and the 60-second settle before the final Read.
- The internals of Terraform's `WaitForState` are left out: the delay, the minimum timeout, backoff, not-found checks and the ten-minute wall clock. The wait is a loop over at most `budget` refreshes, and running out of budget gives the timeout error. `budget` stands for every bound the library puts on the wait, including its count of refreshes with a nil result (the pending case returns one). The text of `WaitTimeout`, and of the unexpected-state error (`WaitFrom`, `WaitForState`; a branch `RefreshOrder` never reaches), is the model's own wording, not a message taken from the library.
- The SoftLayer and Nitro services, `product.*` and `location.GetDatacenterByName` are left out. Each appears only as an oracle outcome; the appliances' remote state is the abstraction described above.
- The call that ends Create, `resourceSoftLayerLbVpxRead`, is modelled separately as `Readback.Read`. `Provisioning.Create` returns the id that Read is then called with.
- HaPairing.Apply: the appliance keeps only the root account, the one the pairing updates. The request's user name and sync argument are constructors standing for "root" and "action=sync", and the file selection `All` stands for "all".
- HaPairing.WithoutNode: the node name in a delete is read as its decimal id with `Atoi`. How Nitro resolves the name internally is not modelled.
- HaPairing.ConfigureHa: nitroConfigureHA's body is split into four helper methods. `HandOverPassword` is step 1. `RegisterHaNodes` covers steps 2 and 3 together. `RegisterRpcNodes` is called twice, once per session, for steps 4 and 5. `SyncFiles` is step 6. The order of calls, the early returns and the in-place re-aiming of the RPC-node request are kept.
- Text.Atoi: integers are unbounded, so the 64-bit range error of `strconv.Atoi` is not modelled, nor is the 64-bit width of Go's `int`.
- Text.ToUpper: only ASCII letters are upper-cased. Unicode case mapping is not modelled.
- Text.AtoiSyntaxError: the quoting of `strconv.Quote` is reproduced without escaping special characters.
- Network.GetSubnetId: the account-service subnet search is the oracle `lookup`. Its answer stands for the filter on cidr and networkIdentifier.
- Catalog.FindVpxPriceItems: the model requires that every item with a matching key has a price. The Go code would panic on an item with no prices, and a panic is not modelled. The same requirement (`PricedWhereMatched`, or `CatalogPriced` for every poll of the catalog) is carried by Catalog.SelectedPrice, Catalog.PriceSelection, Provisioning.CreateOutcome, Provisioning.CreateReadyIff and Provisioning.Create.
- Every SoftLayer object field the Go code dereferences is taken as present; the model's records carry them as plain values, so no nil-pointer panic is modelled. Among them: `*item.KeyName` in the price loop; `*receipt.OrderId` and `*VPX.Id` in Create; `*getObjectResult.Name` and `*getObjectResult.Type.Name` in Read; `*vlan.PrimaryRouter.Hostname`, `*vlan.VlanNumber` and `*vlan.PrimarySubnets[0].NetworkIdentifier` and `.Cidr` in Read's VLAN loop; `*ipAddressObj.IpAddress` in the VIP loop; `*nadc.ManagementIpAddress` and `*nadc.Password.Password` in the Nitro session setup.
- softlayer/resource_softlayer_lb_vpx_ha.go is not part of this model. The whole file sits inside a block comment and is never compiled.
- softlayer/resource_softlayer_ssh_key_test.go is not part of this model. It holds acceptance tests against the live API.

## Findings

| source | as written | input that shows it | evidently intended | confidence | as-written member | corrected member |
|---|---|---|---|---|---|---|
| softlayer/resource_softlayer_lb_vpx.go:791-794 | On the teardown branch, the error returned by `nitroDeleteHA` is assigned to `err` and then dropped; Update returns nil | Controllers 1 (10.0.0.1) and 2 (10.0.0.2). Resource id "2", with `ha_secondary` changed to no properties and a previous primary_id of "1". A fault on the first delete call: teardown fails with that error, yet Update reports success | Return the teardown's error, as the establish branch does for nitroConfigureHA | not executed | HaPairing.UpdateAsWritten, HaPairing.UpdateHidesTeardownFailureExample | HaPairing.UpdateIntended, HaPairing.UpdateIntendedReports |

`HaPairing.Update` mirrors the code as written. `HaPairing.UpdateIntended` is the corrected definition, and the properties of the Update decision are stated against it.
