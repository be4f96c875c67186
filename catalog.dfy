/**
 * Catalog key names and the price selection of findVPXPriceItems: the
 * package's product items are scanned for the VPX item and the static
 * public IP item, and the first price of each is ordered.
 */
module Catalog {
  import opened Outcomes
  import opened Text

  const DelimiterChar := '_'
  const Delimiter := [DelimiterChar]
  const VpxItemName := "CITRIX_NETSCALER_VPX"
  const SpeedUnit := "MBPS"
  const PublicIpItemName := "STATIC_PUBLIC_IP_ADDRESSES"
  const VpxItemMissing := "VPX version, speed or plan have incorrect values"
  const IpItemMissing := "IP quantity value is incorrect"

  /** A catalog price; `id` is `None` for Go's zero-valued price. */
  datatype Price = Price(id: Option<int>)

  /** A product item of the package, with its key name and prices. */
  datatype Item = Item(keyName: string, prices: seq<Price>)

  /** getVPXPriceItemKeyName. */
  function VpxPriceItemKeyName(version: string, speed: int, plan: string): string {
    Join([VpxItemName, Replace(version, '.', DelimiterChar), Itoa(speed) + SpeedUnit, ToUpper(plan)], Delimiter)
  }

  /** getPublicIpItemKeyName. */
  function PublicIpItemKeyName(ipCount: int): string {
    Join([Itoa(ipCount), PublicIpItemName], Delimiter)
  }

  lemma Regroup(name: string, sep: string, v: string, n: string, unit: string, pl: string)
    ensures name + sep + (v + sep + ((n + unit) + sep + pl)) == (name + sep + v + sep) + n + (unit + sep + pl)
  {
  }

  /** The VPX key as the text before the speed, the speed, and the text after it. */
  lemma VpxKeyAroundSpeed(version: string, speed: int, plan: string)
    ensures VpxPriceItemKeyName(version, speed, plan)
      == (VpxItemName + Delimiter + Replace(version, '.', DelimiterChar) + Delimiter)
         + Itoa(speed) + (SpeedUnit + Delimiter + ToUpper(plan))
  {
    var v, pl := Replace(version, '.', DelimiterChar), ToUpper(plan);
    JoinTwoFour(VpxItemName, v, Itoa(speed) + SpeedUnit, pl, Delimiter);
    Regroup(VpxItemName, Delimiter, v, Itoa(speed), SpeedUnit, pl);
  }

  /**
   * The VPX key spelled out: the item name, the version with every '.'
   * turned into '_', the speed in MBPS and the upper-cased plan, joined by '_'.
   */
  lemma VpxKeyLayout(version: string, speed: int, plan: string)
    ensures VpxPriceItemKeyName(version, speed, plan)
      == "CITRIX_NETSCALER_VPX_" + Replace(version, '.', '_') + "_" + Itoa(speed) + "MBPS_" + ToUpper(plan)
    ensures '.' !in Replace(version, '.', '_')
  {
    VpxKeyAroundSpeed(version, speed, plan);
    assert VpxItemName + Delimiter == "CITRIX_NETSCALER_VPX_";
    assert SpeedUnit + Delimiter == "MBPS_";
    var v, n, pl := Replace(version, '.', '_'), Itoa(speed), ToUpper(plan);
    assert (VpxItemName + Delimiter + v + Delimiter) + n + (SpeedUnit + Delimiter + pl)
      == "CITRIX_NETSCALER_VPX_" + v + "_" + n + "MBPS_" + pl;
  }

  lemma PublicIpKeyLayout(ipCount: int)
    ensures PublicIpItemKeyName(ipCount) == Itoa(ipCount) + "_STATIC_PUBLIC_IP_ADDRESSES"
  {
    IpKeyShape(Itoa(ipCount));
  }

  lemma IpKeyShape(n: string)
    ensures Join([n, PublicIpItemName], Delimiter) == n + "_STATIC_PUBLIC_IP_ADDRESSES"
  {
    JoinTwoFour(n, PublicIpItemName, "", "", Delimiter);
    IpKeyTail();
    assert n + Delimiter + PublicIpItemName == n + (Delimiter + PublicIpItemName);
  }

  lemma IpKeyTail()
    ensures Delimiter + PublicIpItemName == "_STATIC_PUBLIC_IP_ADDRESSES"
  {
  }

  /** A VPX key and an IP key never collide: one starts with 'C', the other with a digit or '-'. */
  lemma KeysNeverCollide(version: string, speed: int, plan: string, ipCount: int)
    ensures VpxPriceItemKeyName(version, speed, plan) != PublicIpItemKeyName(ipCount)
  {
    VpxKeyAroundSpeed(version, speed, plan);
    PublicIpKeyLayout(ipCount);
    assert VpxPriceItemKeyName(version, speed, plan)[0] == VpxItemName[0] == 'C';
    assert PublicIpItemKeyName(ipCount)[0] == Itoa(ipCount)[0];
  }

  /** Different IP counts select different catalog items. */
  lemma PublicIpKeyInjective(a: int, b: int)
    ensures PublicIpItemKeyName(a) == PublicIpItemKeyName(b) <==> a == b
  {
    PublicIpKeyLayout(a);
    PublicIpKeyLayout(b);
    if PublicIpItemKeyName(a) == PublicIpItemKeyName(b) {
      var tail := "_STATIC_PUBLIC_IP_ADDRESSES";
      assert Itoa(a) + tail == Itoa(b) + tail;
      assert [] + Itoa(a) == Itoa(a) && [] + Itoa(b) == Itoa(b);
      CancelAround([], Itoa(a), Itoa(b), tail);
      ItoaInjective(a, b);
    }
  }

  /** For a fixed version and plan, different speeds select different catalog items. */
  lemma VpxKeySpeedInjective(version: string, plan: string, s1: int, s2: int)
    ensures VpxPriceItemKeyName(version, s1, plan) == VpxPriceItemKeyName(version, s2, plan) <==> s1 == s2
  {
    if VpxPriceItemKeyName(version, s1, plan) == VpxPriceItemKeyName(version, s2, plan) {
      VpxKeyAroundSpeed(version, s1, plan);
      VpxKeyAroundSpeed(version, s2, plan);
      var head := VpxItemName + Delimiter + Replace(version, '.', DelimiterChar) + Delimiter;
      var tail := SpeedUnit + Delimiter + ToUpper(plan);
      CancelAround(head, Itoa(s1), Itoa(s2), tail);
      ItoaInjective(s1, s2);
    }
  }

  /** Every item carrying `key` has a price (the source indexes `Prices[0]` of each one). */
  predicate PricedWhereMatched(items: seq<Item>, key: string) {
    forall i :: 0 <= i < |items| && items[i].keyName == key ==> |items[i].prices| > 0
  }

  /** The price the scan keeps for `key`: the first price of the last item with that key, else the zero price. */
  function SelectedPrice(items: seq<Item>, key: string): Price
    requires PricedWhereMatched(items, key)
  {
    if items == [] then Price(None)
    else if items[|items| - 1].keyName == key then items[|items| - 1].prices[0]
    else SelectedPrice(items[..|items| - 1], key)
  }

  /** The scan keeps the first price of the LAST matching item; with no match it keeps the zero price. */
  lemma {:induction false} SelectedPriceIsLastMatch(items: seq<Item>, key: string, k: nat)
    requires PricedWhereMatched(items, key)
    requires k < |items| && items[k].keyName == key
    requires forall j :: k < j < |items| ==> items[j].keyName != key
    ensures SelectedPrice(items, key) == items[k].prices[0]
    decreases |items|
  {
    if k < |items| - 1 {
      var init := items[..|items| - 1];
      assert PricedWhereMatched(init, key);
      SelectedPriceIsLastMatch(init, key, k);
    }
  }

  lemma {:induction false} SelectedPriceWithoutMatch(items: seq<Item>, key: string)
    requires forall i :: 0 <= i < |items| ==> items[i].keyName != key
    ensures SelectedPrice(items, key) == Price(None)
    decreases |items|
  {
    if items != [] {
      SelectedPriceWithoutMatch(items[..|items| - 1], key);
    }
  }

  /** What findVPXPriceItems returns once it has the package's items. */
  function PriceSelection(items: seq<Item>, vpxKey: string, ipKey: string): Result<seq<int>>
    requires PricedWhereMatched(items, vpxKey) && PricedWhereMatched(items, ipKey)
  {
    var vpx := SelectedPrice(items, vpxKey).id;
    var ip := SelectedPrice(items, ipKey).id;
    var errorMessages := (if vpx.None? then [VpxItemMissing] else []) + (if ip.None? then [IpItemMissing] else []);
    if |errorMessages| > 0 then Failure(Join(errorMessages, "\n"))
    else Success([vpx.value, ip.value])
  }

  /**
   * The selection succeeds exactly when both keys yield a price id, and then
   * returns those two ids, VPX first; otherwise its error names each missing
   * item, one message per line.
   */
  lemma PriceSelectionOutcome(items: seq<Item>, vpxKey: string, ipKey: string)
    requires PricedWhereMatched(items, vpxKey) && PricedWhereMatched(items, ipKey)
    ensures var vpx, ip := SelectedPrice(items, vpxKey).id, SelectedPrice(items, ipKey).id;
      var r := PriceSelection(items, vpxKey, ipKey);
      && (r.Success? <==> vpx.Some? && ip.Some?)
      && (r.Success? ==> r.value == [vpx.value, ip.value])
      && (vpx.None? && ip.Some? ==> r == Failure(VpxItemMissing))
      && (vpx.Some? && ip.None? ==> r == Failure(IpItemMissing))
      && (vpx.None? && ip.None? ==> r == Failure(VpxItemMissing + "\n" + IpItemMissing))
  {
    var both := [VpxItemMissing, IpItemMissing];
    assert both[1..] == [IpItemMissing];
    assert Join(both, "\n") == VpxItemMissing + "\n" + IpItemMissing;
  }

  /**
   * findVPXPriceItems: `products` is the outcome of the two package lookups
   * (GetPackageByType, GetPackageProducts); the loop keeps overwriting the
   * prices of matching items, then reports the missing ones.
   */
  method FindVpxPriceItems(version: string, speed: int, plan: string, ipCount: int, products: Result<seq<Item>>)
    returns (r: Result<seq<int>>)
    requires products.Success? ==>
      PricedWhereMatched(products.value, VpxPriceItemKeyName(version, speed, plan)) &&
      PricedWhereMatched(products.value, PublicIpItemKeyName(ipCount))
    ensures products.Failure? ==> r == Failure(products.error)
    ensures products.Success? ==>
      r == PriceSelection(products.value, VpxPriceItemKeyName(version, speed, plan), PublicIpItemKeyName(ipCount))
  {
    if products.Failure? {
      return Failure(products.error);
    }
    var items := products.value;
    var nadcKey := VpxPriceItemKeyName(version, speed, plan);
    var ipKey := PublicIpItemKeyName(ipCount);

    var nadcItemPrice, ipItemPrice := Price(None), Price(None);
    for i := 0 to |items|
      invariant PricedWhereMatched(items[..i], nadcKey) && PricedWhereMatched(items[..i], ipKey)
      invariant nadcItemPrice == SelectedPrice(items[..i], nadcKey)
      invariant ipItemPrice == SelectedPrice(items[..i], ipKey)
    {
      assert items[..i + 1][..i] == items[..i];
      var itemKey := items[i].keyName;
      if itemKey == nadcKey {
        nadcItemPrice := items[i].prices[0];
      }
      if itemKey == ipKey {
        ipItemPrice := items[i].prices[0];
      }
    }
    assert items[..|items|] == items;

    var errorMessages: seq<string> := [];
    if nadcItemPrice.id.None? {
      errorMessages := errorMessages + [VpxItemMissing];
    }
    if ipItemPrice.id.None? {
      errorMessages := errorMessages + [IpItemMissing];
    }
    if |errorMessages| > 0 {
      return Failure(Join(errorMessages, "\n"));
    }
    return Success([nadcItemPrice.id.value, ipItemPrice.id.value]);
  }
}
