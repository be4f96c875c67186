/**
 * The provisioning half of resourceSoftLayerLbVpxCreate: after the order is
 * placed, three readiness waits run in sequence, namely the order-to-controller
 * binding (findVPXByOrderId with its WaitForState refresh closure), the VIP
 * wait and the REST-service wait. Every remote answer is an oracle indexed by
 * poll number; wall-clock budgets are attempt counts and the sleeps are gone.
 */
module Provisioning {
  import opened Outcomes
  import opened Text
  import opened Network
  import opened Catalog

  const PendingState := "pending"
  const CompleteState := "complete"
  /** The number of VIP polls (in the source, 60 polls with 10 seconds between them). */
  const VipMaxPolls := 60
  /** The number of REST probes (in the source, 60 probes with 10 seconds between them). */
  const RestMaxPolls := 60
  const MultipleMatches := "Expected one VPX: %!s(<nil>)"
  const WaitTimeout := "timeout while waiting for state to become 'complete' (last state: 'pending')"
  const CreateFailed := "Error creating network application delivery controller: "
  const RetrieveFailed := "Error retrieving network application delivery controller: "

  /** An application delivery controller as the account service returns it. */
  datatype Controller = Controller(id: int)

  /** One answer of the order lookup: an API error, or the controllers billed to the order. */
  datatype OrderLookup = LookupFailed(error: string) | Found(vpxs: seq<Controller>)

  /** The refresh closure's triple: result, state and error. */
  datatype Refresh = Refresh(result: Option<Controller>, state: string, error: Option<string>)

  /** What the VIP wait's GetObject returns. */
  datatype VipPoll = VipLookupFailed(error: string) | VipObject(subnets: seq<Subnet>)

  /** How a wait ended and how many times it asked the remote side. */
  datatype WaitResult<T> = WaitResult(outcome: Result<T>, polls: nat)

  /**
   * The refresh closure of findVPXByOrderId. A Go `error` formatted with
   * `%s` when it is nil prints as "%!s(<nil>)", hence MultipleMatches. The
   * zero-valued controller returned beside a lookup error is dropped by the
   * wait, so it is `None` here.
   */
  function RefreshOrder(lookup: OrderLookup): Refresh {
    match lookup
    case LookupFailed(e) => Refresh(None, "", Some(e))
    case Found(vpxs) =>
      if |vpxs| == 1 then Refresh(Some(vpxs[0]), CompleteState, None)
      else if |vpxs| == 0 then Refresh(None, PendingState, None)
      else Refresh(None, "", Some(MultipleMatches))
  }

  /** The four cases of the closure: error and ambiguity are fatal, none is pending, one completes. */
  lemma RefreshOrderCases(lookup: OrderLookup)
    ensures lookup.LookupFailed? ==> RefreshOrder(lookup).error == Some(lookup.error)
    ensures lookup.Found? && |lookup.vpxs| == 0 ==> RefreshOrder(lookup) == Refresh(None, PendingState, None)
    ensures lookup.Found? && |lookup.vpxs| == 1 ==>
      RefreshOrder(lookup) == Refresh(Some(lookup.vpxs[0]), CompleteState, None)
    ensures lookup.Found? && |lookup.vpxs| > 1 ==>
      RefreshOrder(lookup).error == Some(MultipleMatches) && RefreshOrder(lookup).state != PendingState
  {
  }

  predicate IsPending(r: Refresh) {
    r.error.None? && r.state == PendingState
  }

  /**
   * WaitForState with Pending ["pending"] and Target ["complete"], after `i`
   * pending refreshes; `budget` refreshes stand for the ten-minute timeout.
   */
  function WaitFrom(refresh: nat -> Refresh, budget: nat, i: nat): WaitResult<Option<Controller>>
    decreases budget - i
  {
    if i >= budget then WaitResult(Failure(WaitTimeout), i)
    else
      var r := refresh(i);
      if r.error.Some? then WaitResult(Failure(r.error.value), i + 1)
      else if r.state == CompleteState then WaitResult(Success(r.result), i + 1)
      else if r.state == PendingState then WaitFrom(refresh, budget, i + 1)
      else WaitResult(Failure("unexpected state '" + r.state + "', wanted target 'complete'"), i + 1)
  }

  /** A run of pending refreshes is skipped over without any effect on the outcome. */
  lemma {:induction false} WaitSkipsPending(refresh: nat -> Refresh, budget: nat, i: nat, n: nat)
    requires i <= n <= budget
    requires forall j :: i <= j < n ==> IsPending(refresh(j))
    ensures WaitFrom(refresh, budget, i) == WaitFrom(refresh, budget, n)
    decreases n - i
  {
    if i < n {
      WaitSkipsPending(refresh, budget, i + 1, n);
    }
  }

  /** Pending N times, then complete: the wait makes exactly N + 1 refreshes and yields the result. */
  lemma WaitPendingThenComplete(refresh: nat -> Refresh, budget: nat, n: nat)
    requires n < budget
    requires forall j :: 0 <= j < n ==> IsPending(refresh(j))
    requires refresh(n).error.None? && refresh(n).state == CompleteState
    ensures WaitFrom(refresh, budget, 0) == WaitResult(Success(refresh(n).result), n + 1)
  {
    WaitSkipsPending(refresh, budget, 0, n);
  }

  /** A fatal refresh ends the wait at once, whatever budget is left. */
  lemma WaitFatalNotRetried(refresh: nat -> Refresh, budget: nat, n: nat)
    requires n < budget
    requires forall j :: 0 <= j < n ==> IsPending(refresh(j))
    requires refresh(n).error.Some?
    ensures WaitFrom(refresh, budget, 0) == WaitResult(Failure(refresh(n).error.value), n + 1)
  {
    WaitSkipsPending(refresh, budget, 0, n);
  }

  /** Pending throughout the budget is a timeout, not a fatal error. */
  lemma WaitTimesOut(refresh: nat -> Refresh, budget: nat)
    requires forall j :: 0 <= j < budget ==> IsPending(refresh(j))
    ensures WaitFrom(refresh, budget, 0) == WaitResult(Failure(WaitTimeout), budget)
  {
    WaitSkipsPending(refresh, budget, 0, budget);
  }

  /**
   * The converse: a successful wait carries the result of a complete refresh
   * that came after nothing but pending ones, and stayed within budget.
   */
  lemma {:induction false} WaitSuccessMeans(refresh: nat -> Refresh, budget: nat, i: nat)
    requires i <= budget
    ensures var w := WaitFrom(refresh, budget, i);
      w.polls <= budget &&
      (w.outcome.Success? ==>
        i < w.polls &&
        refresh(w.polls - 1).error.None? && refresh(w.polls - 1).state == CompleteState &&
        w.outcome.value == refresh(w.polls - 1).result &&
        forall j :: i <= j < w.polls - 1 ==> IsPending(refresh(j)))
    decreases budget - i
  {
    if i < budget {
      var r := refresh(i);
      if r.error.None? && r.state != CompleteState && r.state == PendingState {
        WaitSuccessMeans(refresh, budget, i + 1);
      }
    }
  }

  /** The refresh closure over the successive order lookups. */
  function OrderRefresh(lookups: nat -> OrderLookup): nat -> Refresh {
    (i: nat) => RefreshOrder(lookups(i))
  }

  /** The order-binding wait as findVPXByOrderId sets it up. */
  function OrderWait(lookups: nat -> OrderLookup, budget: nat): WaitResult<Option<Controller>> {
    WaitFrom(OrderRefresh(lookups), budget, 0)
  }

  function CannotFind(orderId: int): string {
    "Cannot find Application Delivery Controller with order id '" + Itoa(orderId) + "'"
  }

  /** findVPXByOrderId: the wait, then the type assertion on its result. */
  function OrderBinding(orderId: int, lookups: nat -> OrderLookup, budget: nat): Result<Controller> {
    var w := OrderWait(lookups, budget);
    if w.outcome.Failure? then Failure(w.outcome.error)
    else if w.outcome.value.Some? then Success(w.outcome.value.value)
    else Failure(CannotFind(orderId))
  }

  /**
   * The "Cannot find" branch is dead: a successful wait always holds the one
   * controller the lookup matched, after zero-match lookups only.
   */
  lemma OrderBindingYieldsMatch(orderId: int, lookups: nat -> OrderLookup, budget: nat)
    ensures OrderWait(lookups, budget).outcome.Success? ==> OrderWait(lookups, budget).outcome.value.Some?
    ensures OrderBinding(orderId, lookups, budget).Success? <==> OrderWait(lookups, budget).outcome.Success?
    ensures OrderBinding(orderId, lookups, budget).Success? ==>
      var n := OrderWait(lookups, budget).polls - 1;
      0 <= n < budget && lookups(n).Found? && |lookups(n).vpxs| == 1 &&
      OrderBinding(orderId, lookups, budget).value == lookups(n).vpxs[0] &&
      forall j :: 0 <= j < n ==> lookups(j) == Found([])
  {
    var refresh := OrderRefresh(lookups);
    WaitSuccessMeans(refresh, budget, 0);
    var w := OrderWait(lookups, budget);
    if w.outcome.Success? {
      var n := w.polls - 1;
      assert RefreshOrder(lookups(n)).state == CompleteState;
      forall j | 0 <= j < n ensures lookups(j) == Found([]) {
        assert IsPending(refresh(j));
      }
    }
  }

  /** More than one controller on the order is fatal at once and never retried. */
  lemma AmbiguousOrderFatal(orderId: int, lookups: nat -> OrderLookup, budget: nat, n: nat)
    requires n < budget
    requires forall j :: 0 <= j < n ==> lookups(j) == Found([])
    requires lookups(n).Found? && |lookups(n).vpxs| > 1
    ensures OrderWait(lookups, budget) == WaitResult(Failure(MultipleMatches), n + 1)
    ensures OrderBinding(orderId, lookups, budget) == Failure(MultipleMatches)
  {
    var refresh := OrderRefresh(lookups);
    forall j | 0 <= j < n ensures IsPending(refresh(j)) {
      assert lookups(j) == Found([]);
    }
    WaitFatalNotRetried(refresh, budget, n);
  }

  /** An order on which the controller shows up at the third lookup. */
  function BoundOnThirdLookup(x: Controller): nat -> OrderLookup {
    (i: nat) => if i < 2 then Found([]) else Found([x])
  }

  /** No controller yet, twice, then one: bound on the third lookup. */
  lemma OrderBoundOnThirdLookup(orderId: int, x: Controller, budget: nat)
    requires budget >= 3
    ensures OrderWait(BoundOnThirdLookup(x), budget).polls == 3
    ensures OrderBinding(orderId, BoundOnThirdLookup(x), budget) == Success(x)
  {
    var refresh := OrderRefresh(BoundOnThirdLookup(x));
    assert BoundOnThirdLookup(x)(0) == Found([]) && BoundOnThirdLookup(x)(1) == Found([]);
    assert BoundOnThirdLookup(x)(2) == Found([x]);
    assert IsPending(refresh(0)) && IsPending(refresh(1));
    WaitPendingThenComplete(refresh, budget, 2);
  }

  /** Terraform's WaitForState, as a loop over at most `budget` refreshes. */
  method WaitForState(refresh: nat -> Refresh, budget: nat) returns (w: WaitResult<Option<Controller>>)
    ensures w == WaitFrom(refresh, budget, 0)
  {
    var i := 0;
    while i < budget
      invariant i <= budget
      invariant WaitFrom(refresh, budget, 0) == WaitFrom(refresh, budget, i)
    {
      var r := refresh(i);
      if r.error.Some? {
        return WaitResult(Failure(r.error.value), i + 1);
      }
      if r.state == CompleteState {
        return WaitResult(Success(r.result), i + 1);
      }
      if r.state != PendingState {
        return WaitResult(Failure("unexpected state '" + r.state + "', wanted target 'complete'"), i + 1);
      }
      i := i + 1;
    }
    return WaitResult(Failure(WaitTimeout), i);
  }

  /** findVPXByOrderId. */
  method FindVpxByOrderId(orderId: int, lookups: nat -> OrderLookup, budget: nat) returns (r: Result<Controller>)
    ensures r == OrderBinding(orderId, lookups, budget)
  {
    var w := WaitForState(OrderRefresh(lookups), budget);
    if w.outcome.Failure? {
      return Failure(w.outcome.error);
    }
    var pendingResult := w.outcome.value;
    if pendingResult.Some? {
      return Success(pendingResult.value);
    }
    return Failure(CannotFind(orderId));
  }

  function VipsFailed(id: int): string {
    "Failed to create VIPs for Netscaler VPX ID: " + Itoa(id)
  }

  /** Whether a VIP poll saw no error and no IP address on the first subnet. */
  predicate VipPending(p: VipPoll) {
    p.VipObject? && FirstSubnetIpCount(p.subnets) == 0
  }

  /** The VIP wait after `i` polls that saw no address. */
  function VipWaitFrom(id: int, poll: nat -> VipPoll, i: nat): WaitResult<()>
    decreases VipMaxPolls - i
  {
    if i >= VipMaxPolls then WaitResult(Failure(VipsFailed(id)), i)
    else
      match poll(i)
      case VipLookupFailed(e) => WaitResult(Failure(RetrieveFailed + e), i + 1)
      case VipObject(subnets) =>
        if FirstSubnetIpCount(subnets) > 0 then WaitResult(Success(()), i + 1)
        else VipWaitFrom(id, poll, i + 1)
  }

  lemma {:induction false} VipWaitSkipsPending(id: int, poll: nat -> VipPoll, i: nat, n: nat)
    requires i <= n <= VipMaxPolls
    requires forall j :: i <= j < n ==> VipPending(poll(j))
    ensures VipWaitFrom(id, poll, i) == VipWaitFrom(id, poll, n)
    decreases n - i
  {
    if i < n {
      VipWaitSkipsPending(id, poll, i + 1, n);
    }
  }

  /**
   * The VIP wait in full: it ends at the first poll that fails or sees an
   * address on the first subnet, failing or succeeding accordingly, and
   * after 60 polls without an address it reports that the VIPs were not created.
   */
  lemma {:induction false} VipWaitOutcome(id: int, poll: nat -> VipPoll, i: nat)
    requires i <= VipMaxPolls
    ensures var w := VipWaitFrom(id, poll, i);
      && i <= w.polls <= VipMaxPolls
      && (forall j :: i <= j < w.polls - 1 ==> VipPending(poll(j)))
      && (|| (w.polls > i && poll(w.polls - 1).VipObject? && FirstSubnetIpCount(poll(w.polls - 1).subnets) > 0 &&
              w.outcome == Success(()))
          || (w.polls > i && poll(w.polls - 1).VipLookupFailed? &&
              w.outcome == Failure(RetrieveFailed + poll(w.polls - 1).error))
          || (w.polls == VipMaxPolls && (forall j :: i <= j < VipMaxPolls ==> VipPending(poll(j))) &&
              w.outcome == Failure(VipsFailed(id))))
    decreases VipMaxPolls - i
  {
    if i < VipMaxPolls && VipPending(poll(i)) {
      VipWaitOutcome(id, poll, i + 1);
    }
  }

  /** Zero addresses for 59 polls and one on the 60th: the wait succeeds on the 60th poll. */
  lemma VipReadyOnLastPoll(id: int, poll: nat -> VipPoll)
    requires forall j :: 0 <= j < VipMaxPolls - 1 ==> VipPending(poll(j))
    requires poll(VipMaxPolls - 1).VipObject? && FirstSubnetIpCount(poll(VipMaxPolls - 1).subnets) > 0
    ensures VipWaitFrom(id, poll, 0) == WaitResult(Success(()), VipMaxPolls)
  {
    VipWaitSkipsPending(id, poll, 0, VipMaxPolls - 1);
  }

  /** The VIP loop of Create. */
  method WaitForVips(id: int, poll: nat -> VipPoll) returns (w: WaitResult<()>)
    ensures w == VipWaitFrom(id, poll, 0)
  {
    var isVipReady := false;
    var vipWaitCount := 0;
    while vipWaitCount < VipMaxPolls
      invariant vipWaitCount <= VipMaxPolls
      invariant VipWaitFrom(id, poll, 0) == VipWaitFrom(id, poll, vipWaitCount)
    {
      var getObjectResult := poll(vipWaitCount);
      if getObjectResult.VipLookupFailed? {
        return WaitResult(Failure(RetrieveFailed + getObjectResult.error), vipWaitCount + 1);
      }
      var ipCount := 0;
      if |getObjectResult.subnets| > 0 {
        ipCount := |getObjectResult.subnets[0].ipAddresses|;
      }
      if ipCount > 0 {
        isVipReady := true;
        break;
      }
      vipWaitCount := vipWaitCount + 1;
    }
    if !isVipReady {
      return WaitResult(Failure(VipsFailed(id)), vipWaitCount);
    }
    return WaitResult(Success(()), vipWaitCount + 1);
  }

  function RestFailed(id: int): string {
    "Failed to intialize VPX REST Service for Netscaler VPX ID: " + Itoa(id)
  }

  /** The REST wait after `i` failed probes; `probe(k)` is the error of the k-th GetLoadBalancers call. */
  function RestWaitFrom(id: int, probe: nat -> Outcome, i: nat): WaitResult<()>
    decreases RestMaxPolls - i
  {
    if i >= RestMaxPolls then WaitResult(Failure(RestFailed(id)), i)
    else if probe(i).Pass? then WaitResult(Success(()), i + 1)
    else RestWaitFrom(id, probe, i + 1)
  }

  /**
   * The REST wait in full: probe errors are never fatal; it succeeds on the
   * first error-free probe, and fails only after 60 failed probes.
   */
  lemma {:induction false} RestWaitOutcome(id: int, probe: nat -> Outcome, i: nat)
    requires i <= RestMaxPolls
    ensures var w := RestWaitFrom(id, probe, i);
      && i <= w.polls <= RestMaxPolls
      && (forall j :: i <= j < w.polls - 1 ==> probe(j).Fail?)
      && (|| (w.polls > i && probe(w.polls - 1).Pass? && w.outcome == Success(()))
          || (w.polls == RestMaxPolls && (forall j :: i <= j < RestMaxPolls ==> probe(j).Fail?) &&
              w.outcome == Failure(RestFailed(id))))
    decreases RestMaxPolls - i
  {
    if i < RestMaxPolls && probe(i).Fail? {
      RestWaitOutcome(id, probe, i + 1);
    }
  }

  /** The REST loop of Create. */
  method WaitForRest(id: int, probe: nat -> Outcome) returns (w: WaitResult<()>)
    ensures w == RestWaitFrom(id, probe, 0)
  {
    var isRestReady := false;
    var restWaitCount := 0;
    while restWaitCount < RestMaxPolls
      invariant restWaitCount <= RestMaxPolls
      invariant RestWaitFrom(id, probe, 0) == RestWaitFrom(id, probe, restWaitCount)
    {
      var err := probe(restWaitCount);
      if err.Pass? {
        isRestReady := true;
        break;
      }
      restWaitCount := restWaitCount + 1;
    }
    if !isRestReady {
      return WaitResult(Failure(RestFailed(id)), restWaitCount);
    }
    return WaitResult(Success(()), restWaitCount + 1);
  }

  /** The remote side of one Create call: an oracle per remote step. */
  datatype CreateRemote = CreateRemote(
    products: Result<seq<Item>>,
    datacenterId: Result<int>,
    hardwareOptions: Outcome,
    placeOrder: Result<int>,
    orderLookups: nat -> OrderLookup,
    orderBudget: nat,
    vipPolls: nat -> VipPoll,
    probes: nat -> Outcome)

  /** Every catalog item whose key Create looks for has a price. */
  predicate CatalogPriced(version: string, speed: int, plan: string, ipCount: int, remote: CreateRemote) {
    remote.products.Success? ==>
      PricedWhereMatched(remote.products.value, VpxPriceItemKeyName(version, speed, plan)) &&
      PricedWhereMatched(remote.products.value, PublicIpItemKeyName(ipCount))
  }

  /**
   * Create up to the Read it ends with: `Success(id)` is the controller id
   * Read is then called with.
   */
  function CreateOutcome(version: string, speed: int, plan: string, ipCount: int, datacenter: string,
                         remote: CreateRemote): Result<int>
    requires CatalogPriced(version, speed, plan, ipCount, remote)
  {
    var prices :=
      if remote.products.Failure? then Failure(remote.products.error)
      else PriceSelection(remote.products.value, VpxPriceItemKeyName(version, speed, plan), PublicIpItemKeyName(ipCount));
    if prices.Failure? then Failure("Error Cannot find Application Delivery Controller prices '" + prices.error + "'.")
    else if |datacenter| > 0 && remote.datacenterId.Failure? then Failure(CreateFailed + remote.datacenterId.error)
    else if remote.hardwareOptions.Fail? then Failure("Error Cannot get hardware options '" + remote.hardwareOptions.error + "'.")
    else if remote.placeOrder.Failure? then Failure(CreateFailed + remote.placeOrder.error)
    else
      var vpx := OrderBinding(remote.placeOrder.value, remote.orderLookups, remote.orderBudget);
      if vpx.Failure? then Failure(CreateFailed + vpx.error)
      else
        match Atoi(Itoa(vpx.value.id))
        case None => Failure("Not a valid ID, must be an integer: " + AtoiSyntaxError(Itoa(vpx.value.id)))
        case Some(id) =>
          var vips := VipWaitFrom(id, remote.vipPolls, 0);
          if vips.outcome.Failure? then Failure(vips.outcome.error)
          else
            var rest := RestWaitFrom(id, remote.probes, 0);
            if rest.outcome.Failure? then Failure(rest.outcome.error)
            else Success(id)
  }

  /**
   * Create gets past its waits exactly when every step succeeds in order:
   * prices found, order placed, a single controller bound to the order, an
   * address on its first subnet within 60 polls, and an error-free REST
   * probe within 60 probes afterwards; the id it goes on with is that controller's.
   */
  lemma CreateReadyIff(version: string, speed: int, plan: string, ipCount: int, datacenter: string,
                       remote: CreateRemote)
    requires CatalogPriced(version, speed, plan, ipCount, remote)
    ensures CreateOutcome(version, speed, plan, ipCount, datacenter, remote).Success? <==>
      && remote.products.Success?
      && PriceSelection(remote.products.value, VpxPriceItemKeyName(version, speed, plan), PublicIpItemKeyName(ipCount)).Success?
      && (|datacenter| > 0 ==> remote.datacenterId.Success?)
      && remote.hardwareOptions.Pass?
      && remote.placeOrder.Success?
      && OrderBinding(remote.placeOrder.value, remote.orderLookups, remote.orderBudget).Success?
      && var id := OrderBinding(remote.placeOrder.value, remote.orderLookups, remote.orderBudget).value.id;
         && VipWaitFrom(id, remote.vipPolls, 0).outcome.Success?
         && RestWaitFrom(id, remote.probes, 0).outcome.Success?
    ensures CreateOutcome(version, speed, plan, ipCount, datacenter, remote).Success? ==>
      CreateOutcome(version, speed, plan, ipCount, datacenter, remote).value
        == OrderBinding(remote.placeOrder.value, remote.orderLookups, remote.orderBudget).value.id
  {
    if remote.placeOrder.Success? {
      var vpx := OrderBinding(remote.placeOrder.value, remote.orderLookups, remote.orderBudget);
      if vpx.Success? {
        AtoiItoa(vpx.value.id);
      }
    }
  }

  /** resourceSoftLayerLbVpxCreate, from the price lookup to the call to Read. */
  method Create(version: string, speed: int, plan: string, ipCount: int, datacenter: string, remote: CreateRemote)
    returns (r: Result<int>)
    requires CatalogPriced(version, speed, plan, ipCount, remote)
    ensures r == CreateOutcome(version, speed, plan, ipCount, datacenter, remote)
  {
    var prices := FindVpxPriceItems(version, speed, plan, ipCount, remote.products);
    if prices.Failure? {
      return Failure("Error Cannot find Application Delivery Controller prices '" + prices.error + "'.");
    }
    if |datacenter| > 0 && remote.datacenterId.Failure? {
      return Failure(CreateFailed + remote.datacenterId.error);
    }
    if remote.hardwareOptions.Fail? {
      return Failure("Error Cannot get hardware options '" + remote.hardwareOptions.error + "'.");
    }
    if remote.placeOrder.Failure? {
      return Failure(CreateFailed + remote.placeOrder.error);
    }
    var vpx := FindVpxByOrderId(remote.placeOrder.value, remote.orderLookups, remote.orderBudget);
    if vpx.Failure? {
      return Failure(CreateFailed + vpx.error);
    }
    var resourceId := Itoa(vpx.value.id);
    var parsed := Atoi(resourceId);
    if parsed.None? {
      return Failure("Not a valid ID, must be an integer: " + AtoiSyntaxError(resourceId));
    }
    var id := parsed.value;
    var vips := WaitForVips(id, remote.vipPolls);
    if vips.outcome.Failure? {
      return Failure(vips.outcome.error);
    }
    var rest := WaitForRest(id, remote.probes);
    if rest.outcome.Failure? {
      return Failure(rest.outcome.error);
    }
    return Success(id);
  }
}
