/**
 * Retargeting: the bid price is the user's score times a base price, in
 * 64-bit arithmetic. The score is a placeholder lookup, the length of the
 * user id found at `request.user.ext.user_id`. The base price is the LAST
 * `base_price_micros_usd` param whose value parses as a `long`, because the
 * scan keeps overwriting it and never breaks. A missing user id or base
 * price, or a candidate whose strategy is missing or not the retargeting
 * one, gives 0.
 */
module RetargetingStrategy {
  import opened JavaLang
  import opened Messages
  import opened StrategyParams
  import StrategyFactory

  const BASE_PRICE_KEY: string := "base_price_micros_usd"

  /** `getUserId`: the user id, only from `user.ext.user_id`. */
  function GetUserId(request: BidRequest): (r: Option<string>)
    ensures r.Some? <==> request.user.Some? && request.user.value.ext.Some? &&
                         request.user.value.ext.value.userId.Some?
    ensures r.Some? ==> r.value == request.user.value.ext.value.userId.value
  {
    match request.user
    case None => None
    case Some(user) =>
      match user.ext
      case None => None
      case Some(ext) => ext.userId
  }

  /** `getUserScore`: 0 for an absent user id, else its length. */
  function GetUserScore(userId: Option<string>): (score: nat)
    ensures userId.None? ==> score == 0
    ensures userId.Some? ==> score == |userId.value|
  {
    match userId
    case None => 0
    case Some(id) => |id|
  }

  /** The base price the params carry: the last matching one that parses. */
  function BasePrice(ps: seq<Param>): (r: Option<int>)
  {
    LastParsed(ps, BASE_PRICE_KEY, LONG_MIN, LONG_MAX)
  }

  /** The price `getBidPriceMicrosUSD` returns. */
  function Price(c: Adcandidate, request: BidRequest): (price: Long)
  {
    match CustomStrategyOf(c)
    case Some(s) =>
      if EqualsIgnoreCase(s.name, StrategyFactory.RETARGETING_STRATEGY) &&
         GetUserId(request).Some? && BasePrice(s.customParams).Some?
      then WrapLong(GetUserScore(GetUserId(request)) * BasePrice(s.customParams).value)
      else 0
    case None => 0
  }

  /** `RetargetingStrategy.getBidPriceMicrosUSD`: the scan over the params
      overwrites the base price at every matching param that parses. */
  method GetBidPriceMicrosUSD(c: Adcandidate, request: BidRequest) returns (price: Long)
    ensures price == Price(c, request)
  {
    if CustomStrategyOf(c).None? {
      return 0;
    }
    var strategy := CustomStrategyOf(c).value;
    if !EqualsIgnoreCase(strategy.name, StrategyFactory.RETARGETING_STRATEGY) {
      return 0;
    }
    var userId := GetUserId(request);
    var basePrice: Option<Long> := None;
    var ps := strategy.customParams;
    var i := 0;
    while i < |ps|
      invariant 0 <= i <= |ps|
      invariant basePrice.None? <==> BasePrice(ps[..i]).None?
      invariant basePrice.Some? ==> basePrice.value as int == BasePrice(ps[..i]).value
    {
      assert ps[..i + 1][..i] == ps[..i];
      if EqualsIgnoreCase(ps[i].key, BASE_PRICE_KEY) {
        var parsed := ParseLong(ps[i].value);
        if parsed.Some? {
          basePrice := Some(parsed.value);
        }
      }
      i := i + 1;
    }
    assert ps[..i] == ps;
    if userId.Some? && basePrice.Some? {
      return WrapLong(GetUserScore(userId) * basePrice.value);
    }
    return 0;
  }

  /** The base price is the value of the last matching param that parses:
      an earlier parsed value is overwritten by a later one, and a later
      unparseable one does not clear it. */
  lemma BasePriceIsLast(ps: seq<Param>, i: int)
    requires 0 <= i < |ps| && EqualsIgnoreCase(ps[i].key, BASE_PRICE_KEY) && ParseLong(ps[i].value).Some?
    requires forall j :: i < j < |ps| ==> !EqualsIgnoreCase(ps[j].key, BASE_PRICE_KEY) || ParseLong(ps[j].value).None?
    ensures BasePrice(ps) == Some(ParseLong(ps[i].value).value as int)
  {
    var r := BasePrice(ps);
    var k :| 0 <= k < |ps| && Parsed(ps[k], BASE_PRICE_KEY, LONG_MIN, LONG_MAX) == r &&
             forall j :: k < j < |ps| ==> Parsed(ps[j], BASE_PRICE_KEY, LONG_MIN, LONG_MAX).None?;
    assert k == i;
  }

  /** With a user id and a base price, the price is the score times the base
      price, wrapped to 64 bits; it is exact whenever the product fits. */
  lemma PriceIsScoreTimesBase(c: Adcandidate, request: BidRequest)
    requires CustomStrategyOf(c).Some?
    requires EqualsIgnoreCase(CustomStrategyOf(c).value.name, StrategyFactory.RETARGETING_STRATEGY)
    requires GetUserId(request).Some? && BasePrice(CustomStrategyOf(c).value.customParams).Some?
    ensures var product := |GetUserId(request).value| * BasePrice(CustomStrategyOf(c).value.customParams).value;
            (Price(c, request) - product) % 0x1_0000_0000_0000_0000 == 0 &&
            (LONG_MIN <= product <= LONG_MAX ==> Price(c, request) == product)
  {
  }

  /** No user id at `user.ext.user_id`, no parsed base price, or a candidate
      that is not a retargeting one: the price is 0. */
  lemma MissingInputPriceIsZero(c: Adcandidate, request: BidRequest)
    requires || GetUserId(request).None?
             || CustomStrategyOf(c).None?
             || !EqualsIgnoreCase(CustomStrategyOf(c).value.name, StrategyFactory.RETARGETING_STRATEGY)
             || forall j :: 0 <= j < |CustomStrategyOf(c).value.customParams| ==>
                  var p := CustomStrategyOf(c).value.customParams[j];
                  !EqualsIgnoreCase(p.key, BASE_PRICE_KEY) || ParseLong(p.value).None?
    ensures Price(c, request) == 0
  {
  }

  /** `user.id` is never consulted: only `user.ext.user_id` matters. */
  lemma UserIdIgnoresUserDotId(id1: Option<string>, id2: Option<string>, ext: Option<UserExtensions>)
    ensures GetUserId(BidRequest(Some(User(id1, ext)))) == GetUserId(BidRequest(Some(User(id2, ext))))
    ensures ext.None? ==> GetUserId(BidRequest(Some(User(id1, ext)))).None?
  {
  }

  /** Test evidence: user id "BITO.123456" (length 11) with base price 50
      after an unrelated param bids 550. */
  lemma RetargetingExample550(lineItemId: Long, creativeIds: seq<Long>)
    ensures var request := BidRequest(Some(User(None, Some(UserExtensions(Some("BITO.123456"))))));
            Price(Adcandidate(lineItemId, creativeIds, Some(Bidding(Some(CustomStrategy(StrategyFactory.RETARGETING_STRATEGY,
              [Param("random_param", "abc"), Param(BASE_PRICE_KEY, "50")]))))), request) == 550
  {
    Parse50And100();
    var ps := [Param("random_param", "abc"), Param(BASE_PRICE_KEY, "50")];
    assert Parsed(ps[1], BASE_PRICE_KEY, LONG_MIN, LONG_MAX) == Some(50);
    assert BasePrice(ps) == Some(50);
    var request := BidRequest(Some(User(None, Some(UserExtensions(Some("BITO.123456"))))));
    assert GetUserScore(GetUserId(request)) == 11;
  }

  /** Test evidence: the same user id with base price 100 followed by an
      unrelated param bids 1100. */
  lemma RetargetingExample1100(lineItemId: Long, creativeIds: seq<Long>)
    ensures var request := BidRequest(Some(User(None, Some(UserExtensions(Some("BITO.123456"))))));
            Price(Adcandidate(lineItemId, creativeIds, Some(Bidding(Some(CustomStrategy(StrategyFactory.RETARGETING_STRATEGY,
              [Param(BASE_PRICE_KEY, "100"), Param("param_2", "999")]))))), request) == 1100
  {
    Parse50And100();
    var ps := [Param(BASE_PRICE_KEY, "100"), Param("param_2", "999")];
    assert !EqualsIgnoreCase(ps[1].key, BASE_PRICE_KEY);
    assert ps == [ps[0]] + [ps[1]];
    LastParsedKeepsEarlier([ps[0]], ps[1], BASE_PRICE_KEY, LONG_MIN, LONG_MAX);
    assert Parsed(ps[0], BASE_PRICE_KEY, LONG_MIN, LONG_MAX) == Some(100);
    assert BasePrice(ps) == Some(100);
    var request := BidRequest(Some(User(None, Some(UserExtensions(Some("BITO.123456"))))));
    assert GetUserScore(GetUserId(request)) == 11;
  }

  lemma Parse50And100()
    ensures ParseDecimal("50", LONG_MIN, LONG_MAX) == Some(50)
    ensures ParseDecimal("100", LONG_MIN, LONG_MAX) == Some(100)
  {
    assert "50"[..1] == "5";
    assert DigitsValue("5") == 5;
    assert "100"[..2] == "10" && "10"[..1] == "1";
    assert DigitsValue("1") == 1;
    assert DigitsValue("10") == 10;
  }
}
