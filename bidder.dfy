/**
 * The decision engine: `Bidder.SetBid` walks the ad candidates in order and,
 * for each, picks a creative at random, prices it with its resolved strategy
 * and appends a bid stamped with constant agent data. A candidate whose
 * strategy cannot be resolved, or whose strategy throws
 * `IllegalArgumentException`, is skipped. The creative is picked BEFORE the
 * guarded pricing step, so an empty creative id list throws out of `SetBid`
 * itself and no later candidate is processed.
 */
module Bidder {
  import opened JavaLang
  import opened Messages
  import StrategyFactory
  import FlatPriceStrategy
  import RandomPriceStrategy
  import RetargetingStrategy

  const AGENT_ID: string := "beeswax-hexbid"
  const VERSION_KEY: string := "version"
  const VERSION: string := "1.0.0"

  // ---------------------------------------------------------------------
  // What one candidate contributes

  /** Whether pricing the candidate throws, which makes `SetBid` skip it:
      resolution fails, or the random price strategy meets a maximum that
      is not positive. */
  predicate Skipped(c: Adcandidate)
    ensures Skipped(c) <==> StrategyFactory.GetStrategy(c).Failed? || RandomPriceStrategy.Throws(c)
  {
    match StrategyFactory.GetStrategy(c)
    case Failed(_) => true
    case Resolved(kind) => kind == StrategyFactory.RandomPrice && RandomPriceStrategy.Throws(c)
  }

  /** Whether `price` is a price the candidate's strategy can return for the
      bid request: the flat and retargeting prices are determined; the random
      price is any value in [1, max], or 0 without a maximum. */
  predicate PossiblePrice(c: Adcandidate, request: BidRequest, price: int) {
    match StrategyFactory.GetStrategy(c)
    case Failed(_) => false
    case Resolved(kind) =>
      match kind
      case FlatPrice => price == FlatPriceStrategy.GetBidPriceMicrosUSD(c, request)
      case Retargeting => price == RetargetingStrategy.Price(c, request)
      case RandomPrice =>
        match RandomPriceStrategy.MaxPrice(c)
        case None => price == 0
        case Some(m) => 1 <= price <= m
  }

  /** `getAgentData`: the fixed agent id and a single version param. */
  function GetAgentData(c: Adcandidate): (d: AgentData)
    ensures d.agentId == AGENT_ID
    ensures |d.agentParams| == 1 && d.agentParams[0] == AgentParams(VERSION_KEY, VERSION)
  {
    AgentData(AGENT_ID, [AgentParams(VERSION_KEY, VERSION)])
  }

  /** `getCreativeId`: an element of the candidate's creative ids, picked by
      `nextInt(size)`, which throws when the list is empty. */
  method GetCreativeId(c: Adcandidate) returns (r: Outcome<Long>)
    ensures r.Threw? <==> |c.creativeIds| == 0
    ensures r.Threw? ==> r.exception == IllegalArgument(BOUND_MUST_BE_POSITIVE)
    ensures r.Returned? ==> r.value in c.creativeIds
  {
    var index := NextInt(|c.creativeIds|);
    match index
    case Threw(e) =>
      r := Threw(e);
    case Returned(k) =>
      r := Returned(c.creativeIds[k]);
  }

  /** `getBidPrice`: resolve the strategy, then ask it for a price. */
  method GetBidPrice(c: Adcandidate, request: BidRequest) returns (r: Outcome<Long>)
    ensures r.Threw? <==> Skipped(c)
    ensures r.Threw? ==> r.exception.IllegalArgument?
    ensures r.Returned? ==> PossiblePrice(c, request, r.value)
  {
    match StrategyFactory.GetStrategy(c)
    case Failed(error) =>
      r := Threw(IllegalArgument(error.Message()));
    case Resolved(kind) =>
      match kind
      case FlatPrice =>
        r := Returned(FlatPriceStrategy.GetBidPriceMicrosUSD(c, request));
      case RandomPrice =>
        r := RandomPriceStrategy.GetBidPriceMicrosUSD(c, request);
      case Retargeting =>
        var price := RetargetingStrategy.GetBidPriceMicrosUSD(c, request);
        r := Returned(price);
  }

  // ---------------------------------------------------------------------
  // What a batch contributes

  /** The candidates that yield a bid, in input order. */
  function Kept(cs: seq<Adcandidate>): (kept: seq<Adcandidate>)
    ensures |kept| <= |cs|
    ensures forall i :: 0 <= i < |kept| ==> !Skipped(kept[i])
  {
    if |cs| == 0 then []
    else Kept(cs[..|cs| - 1]) + (if Skipped(cs[|cs| - 1]) then [] else [cs[|cs| - 1]])
  }

  /** The positions in `cs` of the kept candidates. */
  function KeptIndices(cs: seq<Adcandidate>): seq<nat>
  {
    if |cs| == 0 then []
    else KeptIndices(cs[..|cs| - 1]) + (if Skipped(cs[|cs| - 1]) then [] else [|cs| - 1])
  }

  /** `b` is a bid `SetBid` can build for candidate `c`. */
  predicate IsBidFor(c: Adcandidate, request: BidRequest, b: Bid) {
    && b.lineItemId == c.lineItemId
    && b.creative.id in c.creativeIds
    && PossiblePrice(c, request, b.bidPriceMicros)
    && b.agentData == GetAgentData(c)
  }

  /** `bids` are bids for `kept`, one each, in the same order. */
  predicate BidsFor(kept: seq<Adcandidate>, request: BidRequest, bids: seq<Bid>) {
    |bids| == |kept| && forall i :: 0 <= i < |bids| ==> IsBidFor(kept[i], request, bids[i])
  }

  /** `Bidder.SetBid` */
  method SetBid(request: BidAgentRequest) returns (r: Outcome<Option<BidAgentResponse>>)
    ensures |request.adcandidates| == 0 ==> r == Returned(None)
    ensures r.Threw? <==> exists i :: 0 <= i < |request.adcandidates| && |request.adcandidates[i].creativeIds| == 0
    ensures r.Threw? ==> r.exception == IllegalArgument(BOUND_MUST_BE_POSITIVE)
    ensures r.Returned? && |request.adcandidates| > 0 ==>
              r.value.Some? && BidsFor(Kept(request.adcandidates), request.bidRequest, r.value.value.bids)
  {
    var cs := request.adcandidates;
    if |cs| == 0 {
      return Returned(None);
    }
    var bids: seq<Bid> := [];
    var i := 0;
    while i < |cs|
      invariant 0 <= i <= |cs|
      invariant forall j :: 0 <= j < i ==> |cs[j].creativeIds| > 0
      invariant BidsFor(Kept(cs[..i]), request.bidRequest, bids)
    {
      var c := cs[i];
      assert cs[..i + 1][..i] == cs[..i] && cs[..i + 1][i] == c;
      var creativeId := GetCreativeId(c);
      if creativeId.Threw? {
        return Threw(creativeId.exception);
      }
      var price := GetBidPrice(c, request.bidRequest);
      if price.Threw? {
        i := i + 1;
        continue;
      }
      var bid := Bid(c.lineItemId, Creative(creativeId.value), price.value, GetAgentData(c));
      bids := bids + [bid];
      i := i + 1;
    }
    assert cs[..i] == cs;
    return Returned(Some(BidAgentResponse(bids)));
  }

  // ---------------------------------------------------------------------
  // Properties of the batch

  /** `kept` is the subsequence of `cs` at the strictly increasing
      positions `idx`. */
  predicate IsSubsequenceAt(kept: seq<Adcandidate>, idx: seq<nat>, cs: seq<Adcandidate>) {
    && |idx| == |kept| <= |cs|
    && (forall i :: 0 <= i < |kept| ==> idx[i] < |cs| && kept[i] == cs[idx[i]])
    && (forall i, j :: 0 <= i < j < |kept| ==> idx[i] < idx[j])
  }

  /** Appending a candidate to the input keeps a subsequence one, whether or
      not the new candidate joins it. */
  lemma SubsequenceExtends(kept: seq<Adcandidate>, idx: seq<nat>, init: seq<Adcandidate>, c: Adcandidate)
    requires IsSubsequenceAt(kept, idx, init)
    ensures IsSubsequenceAt(kept, idx, init + [c])
    ensures IsSubsequenceAt(kept + [c], idx + [|init|], init + [c])
  {
    var cs := init + [c];
    assert forall k :: 0 <= k < |init| ==> cs[k] == init[k];
  }

  /** The kept candidates are a subsequence of the input: each sits at a
      strictly increasing position of it, so there are at most as many bids
      as candidates and they come in input order. */
  lemma {:induction false} KeptIsSubsequence(cs: seq<Adcandidate>)
    ensures |KeptIndices(cs)| == |Kept(cs)| <= |cs|
    ensures forall i :: 0 <= i < |Kept(cs)| ==> KeptIndices(cs)[i] < |cs| && Kept(cs)[i] == cs[KeptIndices(cs)[i]]
    ensures forall i, j :: 0 <= i < j < |Kept(cs)| ==> KeptIndices(cs)[i] < KeptIndices(cs)[j]
  {
    KeptIsSubsequenceAt(cs);
  }

  lemma {:induction false} KeptIsSubsequenceAt(cs: seq<Adcandidate>)
    ensures IsSubsequenceAt(Kept(cs), KeptIndices(cs), cs)
  {
    if |cs| > 0 {
      var init := cs[..|cs| - 1];
      var c := cs[|cs| - 1];
      assert cs == init + [c];
      KeptIsSubsequenceAt(init);
      SubsequenceExtends(Kept(init), KeptIndices(init), init, c);
    }
  }

  /** A candidate is kept exactly when it is in the input and not skipped. */
  lemma {:induction false} KeptMembers(cs: seq<Adcandidate>, c: Adcandidate)
    ensures c in Kept(cs) <==> c in cs && !Skipped(c)
  {
    if |cs| > 0 {
      var init := cs[..|cs| - 1];
      KeptMembers(init, c);
      assert cs == init + [cs[|cs| - 1]];
    }
  }

  /** Candidates are handled independently: the kept candidates of a
      concatenation are those of each part, so one failing candidate never
      affects its siblings. */
  lemma {:induction false} KeptAppend(a: seq<Adcandidate>, b: seq<Adcandidate>)
    ensures Kept(a + b) == Kept(a) + Kept(b)
  {
    if |b| > 0 {
      var b' := b[..|b| - 1];
      assert (a + b)[..|a + b| - 1] == a + b';
      KeptAppend(a, b');
    } else {
      assert a + b == a;
    }
  }

  /** With no candidate skipped, every candidate gets a bid; with every
      candidate skipped, none does. */
  lemma {:induction false} KeptExtremes(cs: seq<Adcandidate>)
    ensures (forall i :: 0 <= i < |cs| ==> !Skipped(cs[i])) ==> Kept(cs) == cs
    ensures (forall i :: 0 <= i < |cs| ==> Skipped(cs[i])) ==> Kept(cs) == []
  {
    if |cs| > 0 {
      var init := cs[..|cs| - 1];
      KeptExtremes(init);
      assert forall k :: 0 <= k < |init| ==> init[k] == cs[k];
      assert cs == init + [cs[|cs| - 1]];
    }
  }

  /** A skipped candidate contributes nothing, and its siblings on either
      side keep their bids. */
  lemma SkippedDropped(before: seq<Adcandidate>, c: Adcandidate, after: seq<Adcandidate>)
    requires Skipped(c)
    ensures Kept(before + [c] + after) == Kept(before) + Kept(after)
  {
    assert Kept([c]) == [] by {
      assert [c][..0] == [];
    }
    KeptAppend(before, [c]);
    KeptAppend(before + [c], after);
  }

  /** A candidate with a strategy name no strategy answers to gets no bid,
      while its siblings still get theirs. */
  lemma UnknownStrategyDropped(before: seq<Adcandidate>, c: Adcandidate, after: seq<Adcandidate>)
    requires CustomStrategyOf(c).Some?
    requires forall k :: !EqualsIgnoreCase(CustomStrategyOf(c).value.name, StrategyFactory.NameOf(k))
    ensures Kept(before + [c] + after) == Kept(before) + Kept(after)
  {
    StrategyFactory.UnknownNameFails(c);
    SkippedDropped(before, c, after);
  }

  /** A random price candidate whose first parsed maximum is not positive
      gets no bid (the exception from `nextInt` is caught as an illegal
      argument), while its siblings still get theirs. */
  lemma NonPositiveMaxDropped(before: seq<Adcandidate>, c: Adcandidate, after: seq<Adcandidate>)
    requires CustomStrategyOf(c).Some?
    requires EqualsIgnoreCase(CustomStrategyOf(c).value.name, StrategyFactory.RANDOM_PRICE_STRATEGY)
    requires RandomPriceStrategy.MaxPrice(c).Some? && RandomPriceStrategy.MaxPrice(c).value <= 0
    ensures Kept(before + [c] + after) == Kept(before) + Kept(after)
  {
    StrategyFactory.ResolvesByName(c, StrategyFactory.RandomPrice);
    SkippedDropped(before, c, after);
  }

  /** Flat price and retargeting are deterministic: two bid lists for the
      same candidates agree on line items and prices. */
  lemma DeterministicPrices(kept: seq<Adcandidate>, request: BidRequest, b1: seq<Bid>, b2: seq<Bid>)
    requires BidsFor(kept, request, b1) && BidsFor(kept, request, b2)
    requires forall i :: 0 <= i < |kept| ==> StrategyFactory.GetStrategy(kept[i]) != StrategyFactory.Resolved(StrategyFactory.RandomPrice)
    ensures |b1| == |b2|
    ensures forall i :: 0 <= i < |b1| ==>
              b1[i].lineItemId == b2[i].lineItemId && b1[i].bidPriceMicros == b2[i].bidPriceMicros &&
              b1[i].agentData == b2[i].agentData
  {
  }
}
