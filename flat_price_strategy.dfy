/**
 * Flat price: the bid price is the first `flat_price_micros_usd` param whose
 * value parses as a `long`; 0 when there is none, or when the candidate's
 * strategy is missing or not the flat price one.
 */
module FlatPriceStrategy {
  import opened JavaLang
  import opened Messages
  import opened StrategyParams
  import StrategyFactory

  const FLAT_PRICE_KEY: string := "flat_price_micros_usd"

  /** The flat price a param list carries, if any. */
  function FlatPriceParam(ps: seq<Param>): (r: Option<int>)
    ensures r.Some? ==> LONG_MIN <= r.value <= LONG_MAX
  {
    FirstParsed(ps, FLAT_PRICE_KEY, LONG_MIN, LONG_MAX)
  }

  /** `FlatPriceStrategy.getBidPriceMicrosUSD`; the bid request is unused. */
  function GetBidPriceMicrosUSD(c: Adcandidate, request: BidRequest): (price: Long)
    ensures (|| CustomStrategyOf(c).None?
             || !EqualsIgnoreCase(CustomStrategyOf(c).value.name, StrategyFactory.FLAT_PRICE_STRATEGY))
            ==> price == 0
    ensures price != 0 ==>
              var ps := CustomStrategyOf(c).value.customParams;
              exists i :: 0 <= i < |ps| && EqualsIgnoreCase(ps[i].key, FLAT_PRICE_KEY) &&
                ParseDecimal(ps[i].value, LONG_MIN, LONG_MAX) == Some(price as int) &&
                forall j :: 0 <= j < i ==> Parsed(ps[j], FLAT_PRICE_KEY, LONG_MIN, LONG_MAX).None?
    ensures && CustomStrategyOf(c).Some?
            && EqualsIgnoreCase(CustomStrategyOf(c).value.name, StrategyFactory.FLAT_PRICE_STRATEGY)
            ==> var found := FlatPriceParam(CustomStrategyOf(c).value.customParams);
                && (found.Some? ==> price as int == found.value)
                && (found.None? ==> price == 0)
  {
    match CustomStrategyOf(c)
    case Some(s) =>
      if EqualsIgnoreCase(s.name, StrategyFactory.FLAT_PRICE_STRATEGY) then
        match FlatPriceParam(s.customParams)
        case Some(v) => v
        case None => 0
      else 0
    case None => 0
  }

  /** The price is the value of the first matching param that parses. */
  lemma PriceIsFirstParsed(c: Adcandidate, request: BidRequest, i: int)
    requires CustomStrategyOf(c).Some?
    requires EqualsIgnoreCase(CustomStrategyOf(c).value.name, StrategyFactory.FLAT_PRICE_STRATEGY)
    requires var ps := CustomStrategyOf(c).value.customParams;
             0 <= i < |ps| && EqualsIgnoreCase(ps[i].key, FLAT_PRICE_KEY) && ParseLong(ps[i].value).Some? &&
             forall j :: 0 <= j < i ==> !EqualsIgnoreCase(ps[j].key, FLAT_PRICE_KEY) || ParseLong(ps[j].value).None?
    ensures GetBidPriceMicrosUSD(c, request) == ParseLong(CustomStrategyOf(c).value.customParams[i].value).value
  {
    var ps := CustomStrategyOf(c).value.customParams;
    FirstParsedAt(ps, FLAT_PRICE_KEY, LONG_MIN, LONG_MAX, i);
  }

  /** Without a matching param that parses, the price is 0. */
  lemma NoParsedPriceIsZero(c: Adcandidate, request: BidRequest)
    requires CustomStrategyOf(c).Some? ==>
               var ps := CustomStrategyOf(c).value.customParams;
               forall j :: 0 <= j < |ps| ==> !EqualsIgnoreCase(ps[j].key, FLAT_PRICE_KEY) || ParseLong(ps[j].value).None?
    ensures GetBidPriceMicrosUSD(c, request) == 0
  {
    if CustomStrategyOf(c).Some? {
      var ps := CustomStrategyOf(c).value.customParams;
      assert forall j :: 0 <= j < |ps| ==> Parsed(ps[j], FLAT_PRICE_KEY, LONG_MIN, LONG_MAX).None?;
    }
  }

  /** Missing bidding, missing custom strategy or another strategy name:
      the price is 0. */
  lemma NotFlatPriceIsZero(c: Adcandidate, request: BidRequest)
    requires CustomStrategyOf(c).None? ||
             !EqualsIgnoreCase(CustomStrategyOf(c).value.name, StrategyFactory.FLAT_PRICE_STRATEGY)
    ensures GetBidPriceMicrosUSD(c, request) == 0
  {
  }

  /** A param that contributes nothing (another key, or an unparseable value)
      may be inserted anywhere without changing the price. */
  lemma PriceIgnoresUnusableParam(name: string, ps: seq<Param>, k: int, p: Param,
                                  lineItemId: Long, creativeIds: seq<Long>, request: BidRequest)
    requires 0 <= k <= |ps|
    requires !EqualsIgnoreCase(p.key, FLAT_PRICE_KEY) || ParseLong(p.value).None?
    ensures var before := Adcandidate(lineItemId, creativeIds, Some(Bidding(Some(CustomStrategy(name, ps)))));
            var after := Adcandidate(lineItemId, creativeIds, Some(Bidding(Some(CustomStrategy(name, ps[..k] + [p] + ps[k..])))));
            GetBidPriceMicrosUSD(after, request) == GetBidPriceMicrosUSD(before, request)
  {
    FirstParsedSkips(ps, k, p, FLAT_PRICE_KEY, LONG_MIN, LONG_MAX);
  }

  /** The price depends on the candidate alone, not on the bid request. */
  lemma PriceIgnoresRequest(c: Adcandidate, r1: BidRequest, r2: BidRequest)
    ensures GetBidPriceMicrosUSD(c, r1) == GetBidPriceMicrosUSD(c, r2)
  {
  }

  /** Test evidence: a flat price strategy with "866" bids 866. */
  lemma FlatPrice866(request: BidRequest)
    ensures GetBidPriceMicrosUSD(
              Adcandidate(111, [33], Some(Bidding(Some(CustomStrategy(StrategyFactory.FLAT_PRICE_STRATEGY,
                [Param(FLAT_PRICE_KEY, "866")]))))), request) == 866
  {
    DecimalExample866();
    var ps := [Param(FLAT_PRICE_KEY, "866")];
    assert Parsed(ps[0], FLAT_PRICE_KEY, LONG_MIN, LONG_MAX) == Some(866);
  }

  lemma DecimalExample866()
    ensures ParseDecimal("866", LONG_MIN, LONG_MAX) == Some(866)
  {
    var ds := "866";
    assert ds[..2] == "86" && ds[..2][..1] == "8";
    assert DigitsValue("8") == 8;
    assert DigitsValue("86") == 86;
    assert DigitsValue(ds) == 866;
  }
}
