/**
 * The protobuf messages the bid engine reads and writes, as values: a bid
 * agent request (ad candidates plus the OpenRTB bid request) and a bid agent
 * response (bids). Optional protobuf sub-messages and fields are `Option`s;
 * an unset `bid_request` is the default instance, `BidRequest(None)`.
 */
module Messages {
  import opened JavaLang

  /** `Adcandidate.Bidding.CustomStrategy.Params` */
  datatype Param = Param(key: string, value: string)

  /** `Adcandidate.Bidding.CustomStrategy` */
  datatype CustomStrategy = CustomStrategy(name: string, customParams: seq<Param>)

  /** `Adcandidate.Bidding` */
  datatype Bidding = Bidding(customStrategy: Option<CustomStrategy>)

  /** `Adcandidate` */
  datatype Adcandidate = Adcandidate(lineItemId: Long, creativeIds: seq<Long>, bidding: Option<Bidding>)

  /** `UserExtensions` */
  datatype UserExtensions = UserExtensions(userId: Option<string>)

  /** `BidRequest.User` */
  datatype User = User(id: Option<string>, ext: Option<UserExtensions>)

  /** `BidRequest` (only the part the engine reads) */
  datatype BidRequest = BidRequest(user: Option<User>)

  /** `BidAgentRequest` */
  datatype BidAgentRequest = BidAgentRequest(adcandidates: seq<Adcandidate>, bidRequest: BidRequest)

  /** `BidAgentResponse.Creative` */
  datatype Creative = Creative(id: Long)

  /** `BidAgentResponse.AgentParams` */
  datatype AgentParams = AgentParams(key: string, stringValue: string)

  /** `BidAgentResponse.AgentData` */
  datatype AgentData = AgentData(agentId: string, agentParams: seq<AgentParams>)

  /** `BidAgentResponse.Bid` */
  datatype Bid = Bid(lineItemId: Long, creative: Creative, bidPriceMicros: Long, agentData: AgentData)

  /** `BidAgentResponse` */
  datatype BidAgentResponse = BidAgentResponse(bids: seq<Bid>)

  /** The candidate's custom strategy, when both `bidding` and
      `bidding.custom_strategy` are set. */
  function CustomStrategyOf(c: Adcandidate): (r: Option<CustomStrategy>)
    ensures r.Some? <==> c.bidding.Some? && c.bidding.value.customStrategy.Some?
    ensures r.Some? ==> r.value == c.bidding.value.customStrategy.value
  {
    match c.bidding
    case None => None
    case Some(b) => b.customStrategy
  }
}
