/**
 * Strategy resolution: a candidate's bidding block and custom-strategy name
 * select one of the three built-in strategies, or resolution fails with an
 * `IllegalArgumentException` of one of three kinds.
 */
module StrategyFactory {
  import opened JavaLang
  import opened Messages

  const FLAT_PRICE_STRATEGY: string := "FLAT_PRICE_STRATEGY"
  const RANDOM_PRICE_STRATEGY: string := "RANDOM_PRICE_STRATEGY"
  const RETARGETING_STRATEGY: string := "RETARGETING_STRATEGY"

  /** The closed set of strategies the factory can return. */
  datatype StrategyKind = FlatPrice | RandomPrice | Retargeting

  const NO_BIDDING_MESSAGE: string := "No Bidding found in Adcandidate message."
  const NO_CUSTOM_STRATEGY_PREFIX: string := "No custom strategy found for line item : "
  const UNSUPPORTED_STRATEGY_PREFIX: string := "Unsupported custom strategy : "

  /** Why resolution failed; each is thrown as `IllegalArgumentException`. */
  datatype ResolveError =
    | NoBidding
    | NoCustomStrategy(lineItemId: Long)
    | UnsupportedStrategy(name: string)
  {
    /** The exception message: a fixed text per kind, followed by the line
        item id or the strategy name where there is one. */
    function Message(): (msg: string)
      ensures this.NoBidding? ==> msg == NO_BIDDING_MESSAGE
      ensures this.NoCustomStrategy? ==> msg == NO_CUSTOM_STRATEGY_PREFIX + ToDecimalString(lineItemId)
      ensures this.UnsupportedStrategy? ==> msg == UNSUPPORTED_STRATEGY_PREFIX + name
    {
      match this
      case NoBidding => NO_BIDDING_MESSAGE
      case NoCustomStrategy(id) => NO_CUSTOM_STRATEGY_PREFIX + ToDecimalString(id)
      case UnsupportedStrategy(name) => UNSUPPORTED_STRATEGY_PREFIX + name
    }
  }

  /** The message alone tells which failure occurred, down to the line item
      or the strategy name. */
  lemma MessageIdentifiesError(e1: ResolveError, e2: ResolveError)
    ensures e1.Message() == e2.Message() ==> e1 == e2
  {
    if e1 != e2 {
      if e1.NoCustomStrategy? && e2.NoCustomStrategy? {
        NoCustomStrategyMessagesDiffer(e1.lineItemId, e2.lineItemId);
      } else if e1.UnsupportedStrategy? && e2.UnsupportedStrategy? {
        SuffixesDiffer(UNSUPPORTED_STRATEGY_PREFIX, e1.name, e2.name);
      } else {
        KindMessagesDiffer(e1, e2);
      }
    }
  }

  /** Different line items give different messages, because printing a
      number is injective. */
  lemma NoCustomStrategyMessagesDiffer(id1: Long, id2: Long)
    requires id1 != id2
    ensures NoCustomStrategy(id1).Message() != NoCustomStrategy(id2).Message()
  {
    PrintedText(id1);
    PrintedText(id2);
    SuffixesDiffer(NO_CUSTOM_STRATEGY_PREFIX, ToDecimalString(id1), ToDecimalString(id2));
  }

  /** Failures of different kinds give different messages. */
  lemma KindMessagesDiffer(e1: ResolveError, e2: ResolveError)
    requires e1.NoBidding? != e2.NoBidding? || e1.UnsupportedStrategy? != e2.UnsupportedStrategy?
    ensures e1.Message() != e2.Message()
  {
    MessageHead(e1);
    MessageHead(e2);
  }

  /** The first and fourth characters of a message tell its kind. */
  lemma MessageHead(e: ResolveError)
    ensures |e.Message()| > 3
    ensures e.Message()[0] == (if e.UnsupportedStrategy? then 'U' else 'N')
    ensures e.Message()[3] == (match e case NoBidding => 'B' case NoCustomStrategy(_) => 'c' case UnsupportedStrategy(_) => 'u')
  {
    match e
    case NoBidding =>
    case NoCustomStrategy(id) =>
      var p := NO_CUSTOM_STRATEGY_PREFIX;
      assert (p + ToDecimalString(id))[..4] == p[..4];
    case UnsupportedStrategy(name) =>
      var p := UNSUPPORTED_STRATEGY_PREFIX;
      assert (p + name)[..4] == p[..4];
  }

  /** A common prefix keeps different suffixes apart. */
  lemma SuffixesDiffer(p: string, a: string, b: string)
    requires a != b
    ensures p + a != p + b
  {
    assert (p + a)[|p|..] == a && (p + b)[|p|..] == b;
  }

  datatype Resolution = Resolved(kind: StrategyKind) | Failed(error: ResolveError)

  /** `StrategyFactory.getStrategy`: no bidding block, no custom strategy,
      or one of the three registered names matched ignoring case; any
      other name is unsupported. */
  function GetStrategy(c: Adcandidate): (r: Resolution)
    ensures r == Failed(NoBidding) <==> c.bidding.None?
    ensures r == Failed(NoCustomStrategy(c.lineItemId)) <==> c.bidding.Some? && c.bidding.value.customStrategy.None?
    ensures r.Resolved? ==> CustomStrategyOf(c).Some?
    ensures r == Resolved(FlatPrice) <==>
              CustomStrategyOf(c).Some? && EqualsIgnoreCase(CustomStrategyOf(c).value.name, FLAT_PRICE_STRATEGY)
    ensures r == Resolved(RandomPrice) <==>
              CustomStrategyOf(c).Some? && EqualsIgnoreCase(CustomStrategyOf(c).value.name, RANDOM_PRICE_STRATEGY)
    ensures r == Resolved(Retargeting) <==>
              CustomStrategyOf(c).Some? && EqualsIgnoreCase(CustomStrategyOf(c).value.name, RETARGETING_STRATEGY)
    ensures r.Failed? && r.error.UnsupportedStrategy? ==>
              CustomStrategyOf(c).Some? && r.error.name == CustomStrategyOf(c).value.name
  {
    match c.bidding
    case None => Failed(NoBidding)
    case Some(bidding) =>
      match bidding.customStrategy
      case None => Failed(NoCustomStrategy(c.lineItemId))
      case Some(s) =>
        if EqualsIgnoreCase(s.name, FLAT_PRICE_STRATEGY) then Resolved(FlatPrice)
        else if EqualsIgnoreCase(s.name, RANDOM_PRICE_STRATEGY) then Resolved(RandomPrice)
        else if EqualsIgnoreCase(s.name, RETARGETING_STRATEGY) then Resolved(Retargeting)
        else Failed(UnsupportedStrategy(s.name))
  }

  /** The registered name of each strategy. */
  function NameOf(k: StrategyKind): (name: string) {
    match k
    case FlatPrice => FLAT_PRICE_STRATEGY
    case RandomPrice => RANDOM_PRICE_STRATEGY
    case Retargeting => RETARGETING_STRATEGY
  }

  /** The three names differ even ignoring case, so no name matches two. */
  lemma NamesDistinct(name: string, k1: StrategyKind, k2: StrategyKind)
    requires EqualsIgnoreCase(name, NameOf(k1)) && EqualsIgnoreCase(name, NameOf(k2))
    ensures k1 == k2
  {
  }

  /** A present strategy resolves to kind k exactly when its name equals k's
      registered name ignoring case. */
  lemma ResolvesByName(c: Adcandidate, k: StrategyKind)
    ensures GetStrategy(c) == Resolved(k) <==>
              CustomStrategyOf(c).Some? && EqualsIgnoreCase(CustomStrategyOf(c).value.name, NameOf(k))
  {
    if CustomStrategyOf(c).Some? && EqualsIgnoreCase(CustomStrategyOf(c).value.name, NameOf(k)) {
      var name := CustomStrategyOf(c).value.name;
      match GetStrategy(c)
      case Resolved(k') =>
        NamesDistinct(name, k, k');
      case Failed(_) =>
    }
  }

  /** Any other name, the empty one included, is unsupported. */
  lemma UnknownNameFails(c: Adcandidate)
    requires CustomStrategyOf(c).Some?
    ensures (forall k :: !EqualsIgnoreCase(CustomStrategyOf(c).value.name, NameOf(k))) <==>
              GetStrategy(c) == Failed(UnsupportedStrategy(CustomStrategyOf(c).value.name))
  {
    var name := CustomStrategyOf(c).value.name;
    if GetStrategy(c).Failed? {
      forall k ensures !EqualsIgnoreCase(name, NameOf(k)) {
        ResolvesByName(c, k);
      }
    }
    if forall k :: !EqualsIgnoreCase(name, NameOf(k)) {
      assert !EqualsIgnoreCase(name, NameOf(FlatPrice));
      assert !EqualsIgnoreCase(name, NameOf(RandomPrice));
      assert !EqualsIgnoreCase(name, NameOf(Retargeting));
    }
  }

  /** Test evidence: "FLAT_PRICE_STRATEGY" and "RETARGETING_STRATEGY" as
      written, and "random_price_strategy" in lower case, resolve; the empty
      name is unsupported. */
  lemma RegisteredNamesResolve(lineItemId: Long)
    ensures GetStrategy(Adcandidate(lineItemId, [], Some(Bidding(Some(CustomStrategy(FLAT_PRICE_STRATEGY, []))))))
              == Resolved(FlatPrice)
    ensures GetStrategy(Adcandidate(lineItemId, [], Some(Bidding(Some(CustomStrategy("random_price_strategy", []))))))
              == Resolved(RandomPrice)
    ensures GetStrategy(Adcandidate(lineItemId, [], Some(Bidding(Some(CustomStrategy(RETARGETING_STRATEGY, []))))))
              == Resolved(Retargeting)
    ensures GetStrategy(Adcandidate(lineItemId, [], Some(Bidding(Some(CustomStrategy("", []))))))
              == Failed(UnsupportedStrategy(""))
    ensures GetStrategy(Adcandidate(lineItemId, [], Some(Bidding(None)))) == Failed(NoCustomStrategy(lineItemId))
  {
    var lower := "random_price_strategy";
    assert forall i :: 0 <= i < |lower| ==> ToUpperAscii(lower[i]) == RANDOM_PRICE_STRATEGY[i];
  }
}
