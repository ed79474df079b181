/**
 * Random price: the first `max_price_micros_usd` param whose value parses as
 * an `int` bounds a uniform draw `1 + nextInt(max)`. No such param, or a
 * candidate whose strategy is missing or not the random price one, gives 0.
 * A parsed maximum that is not positive makes `nextInt` throw an
 * `IllegalArgumentException`, which the `NumberFormatException` handler
 * around it does not catch.
 */
module RandomPriceStrategy {
  import opened JavaLang
  import opened Messages
  import opened StrategyParams
  import StrategyFactory

  const MAX_PRICE_KEY: string := "max_price_micros_usd"

  /** The maximum price the candidate carries: the first matching param that
      parses as an `int`, provided the strategy is the random price one. */
  function MaxPrice(c: Adcandidate): (r: Option<int>)
    ensures r.Some? ==> INT_MIN <= r.value <= INT_MAX
    ensures r.Some? ==> CustomStrategyOf(c).Some? &&
                        EqualsIgnoreCase(CustomStrategyOf(c).value.name, StrategyFactory.RANDOM_PRICE_STRATEGY)
  {
    match CustomStrategyOf(c)
    case Some(s) =>
      if EqualsIgnoreCase(s.name, StrategyFactory.RANDOM_PRICE_STRATEGY) then
        FirstParsed(s.customParams, MAX_PRICE_KEY, INT_MIN, INT_MAX)
      else None
    case None => None
  }

  /** Whether the strategy throws for this candidate: a parsed maximum that
      is not positive, which only a random price candidate can carry. */
  predicate Throws(c: Adcandidate)
    ensures Throws(c) ==> StrategyFactory.GetStrategy(c) == StrategyFactory.Resolved(StrategyFactory.RandomPrice)
  {
    MaxPrice(c).Some? && MaxPrice(c).value <= 0
  }

  /** `RandomPriceStrategy.getBidPriceMicrosUSD`; the bid request is unused. */
  method GetBidPriceMicrosUSD(c: Adcandidate, request: BidRequest) returns (r: Outcome<Long>)
    ensures r.Threw? <==> Throws(c)
    ensures r.Threw? ==> r.exception == IllegalArgument(BOUND_MUST_BE_POSITIVE)
    ensures MaxPrice(c).None? ==> r == Returned(0)
    ensures MaxPrice(c).Some? && r.Returned? ==> 1 <= r.value <= MaxPrice(c).value
    ensures r.Returned? ==> 0 <= r.value <= INT_MAX
  {
    var maxPrice := MaxPrice(c);
    if maxPrice.None? {
      return Returned(0);
    }
    var draw := NextInt(maxPrice.value);
    match draw
    case Threw(e) =>
      r := Threw(e);
    case Returned(k) =>
      r := Returned(1 + k);
  }

  /** Later matching params never matter once an earlier one parses: the
      maximum is the first parsed value. */
  lemma MaxPriceIsFirst(c: Adcandidate, i: int)
    requires CustomStrategyOf(c).Some?
    requires EqualsIgnoreCase(CustomStrategyOf(c).value.name, StrategyFactory.RANDOM_PRICE_STRATEGY)
    requires var ps := CustomStrategyOf(c).value.customParams;
             0 <= i < |ps| && EqualsIgnoreCase(ps[i].key, MAX_PRICE_KEY) && ParseInt(ps[i].value).Some? &&
             forall j :: 0 <= j < i ==> !EqualsIgnoreCase(ps[j].key, MAX_PRICE_KEY) || ParseInt(ps[j].value).None?
    ensures MaxPrice(c) == Some(ParseInt(CustomStrategyOf(c).value.customParams[i].value).value as int)
  {
    FirstParsedAt(CustomStrategyOf(c).value.customParams, MAX_PRICE_KEY, INT_MIN, INT_MAX, i);
  }

  /** A value that fails `Integer.parseInt` (not a number, or outside the
      `int` range) is skipped wherever it appears. */
  lemma MaxPriceSkipsUnparseable(name: string, ps: seq<Param>, k: int, value: string,
                                 lineItemId: Long, creativeIds: seq<Long>)
    requires 0 <= k <= |ps|
    requires ParseInt(value).None?
    ensures var before := Adcandidate(lineItemId, creativeIds, Some(Bidding(Some(CustomStrategy(name, ps)))));
            var after := Adcandidate(lineItemId, creativeIds,
                           Some(Bidding(Some(CustomStrategy(name, ps[..k] + [Param(MAX_PRICE_KEY, value)] + ps[k..])))));
            MaxPrice(after) == MaxPrice(before)
  {
    FirstParsedSkips(ps, k, Param(MAX_PRICE_KEY, value), MAX_PRICE_KEY, INT_MIN, INT_MAX);
  }

  /** "2147483648" is one past `Integer.MAX_VALUE` and does not parse. */
  lemma OutOfIntRangeDoesNotParse()
    ensures ParseInt("2147483648").None?
  {
    var s := "2147483648";
    assert AllDigits(s);
    assert DigitsValue(s) > INT_MAX by {
      assert DigitsValue(s) >= 10 * DigitsValue(s[..|s| - 1]);
      var t := s[..|s| - 1];
      assert t == "214748364";
      assert DigitsValue(t) >= 10 * DigitsValue(t[..|t| - 1]);
      var u := t[..|t| - 1];
      assert u == "21474836";
      DigitsValueLower(u);
    }
  }

  lemma DigitsValueLower(u: string)
    requires u == "21474836"
    ensures DigitsValue(u) >= 21474836
  {
    assert u[..7] == "2147483" && u[..6] == "214748" && u[..5] == "21474";
    assert u[..4] == "2147" && u[..3] == "214" && u[..2] == "21" && u[..1] == "2";
    assert "2147483"[..6] == "214748" && "214748"[..5] == "21474" && "21474"[..4] == "2147";
    assert "2147"[..3] == "214" && "214"[..2] == "21" && "21"[..1] == "2";
  }

  /** A first parsed maximum of "0" or "-5" makes the strategy throw,
      whatever follows it. */
  lemma NonPositiveMaxThrows(lineItemId: Long, creativeIds: seq<Long>, rest: seq<Param>)
    ensures Throws(Adcandidate(lineItemId, creativeIds, Some(Bidding(Some(CustomStrategy(
              StrategyFactory.RANDOM_PRICE_STRATEGY, [Param(MAX_PRICE_KEY, "0")] + rest))))))
    ensures Throws(Adcandidate(lineItemId, creativeIds, Some(Bidding(Some(CustomStrategy(
              StrategyFactory.RANDOM_PRICE_STRATEGY, [Param(MAX_PRICE_KEY, "-5")] + rest))))))
  {
    assert "-5"[1..] == "5";
    assert DigitsValue("0") == 0 && DigitsValue("5") == 5;
    var name := StrategyFactory.RANDOM_PRICE_STRATEGY;
    assert EqualsIgnoreCase(name, StrategyFactory.RANDOM_PRICE_STRATEGY);
    var ps0 := [Param(MAX_PRICE_KEY, "0")] + rest;
    var ps5 := [Param(MAX_PRICE_KEY, "-5")] + rest;
    assert ps0[0] == Param(MAX_PRICE_KEY, "0") && ps5[0] == Param(MAX_PRICE_KEY, "-5");
    FirstParsedAt(ps0, MAX_PRICE_KEY, INT_MIN, INT_MAX, 0);
    FirstParsedAt(ps5, MAX_PRICE_KEY, INT_MIN, INT_MAX, 0);
  }

  /** Test evidence: params 123 then 399 always draw from [1, 123]. */
  method FirstOf123And399(request: BidRequest) returns (r: Outcome<Long>)
    ensures r.Returned? && 0 < r.value <= 123
  {
    var c := Adcandidate(0, [], Some(Bidding(Some(CustomStrategy(StrategyFactory.RANDOM_PRICE_STRATEGY,
               [Param(MAX_PRICE_KEY, "123"), Param(MAX_PRICE_KEY, "399")])))));
    Parse123();
    MaxPriceIsFirst(c, 0);
    r := GetBidPriceMicrosUSD(c, request);
  }

  lemma Parse123()
    ensures ParseInt("123") == Some(123)
  {
    var s := "123";
    assert s[..2] == "12" && s[..2][..1] == "1";
    assert DigitsValue("1") == 1;
    assert DigitsValue("12") == 12;
    assert DigitsValue(s) == 123;
  }
}
