/**
 * The `/bid` endpoint: decode the body as a `BidAgentRequest`, run the
 * bidder, and map the outcome to an HTTP response. Decoding and encoding are
 * the protobuf library's; here the decoded request arrives as an `Outcome`
 * (decode failures are `InvalidProtocolBuffer`) and an encoded response body
 * is represented by the response message itself.
 */
module BidHandler {
  import opened JavaLang
  import opened Messages
  import Bidder
  import StrategyFactory
  import FlatPriceStrategy

  const PATH: string := "/bid"

  const OK: int := 200
  const NO_CONTENT: int := 204
  const BAD_REQUEST: int := 400
  const INTERNAL_SERVER_ERROR: int := 500

  const BAD_REQUEST_MESSAGE: string := "Bad request"
  const INTERNAL_ERROR_MESSAGE: string := "Internal error when setting bid"
  const PROTOBUF_CONTENT_TYPE: string := "application/x-protobuf"

  /** A response body: nothing, plain text, or an encoded protobuf message. */
  datatype Body = Empty | Text(text: string) | Protobuf(message: BidAgentResponse)

  /** The parts of `FullHttpResponse` the handler sets. */
  datatype Response = Response(status: int, body: Body, contentType: Option<string>)

  /** The response for an exception caught in `processRequest`: protobuf
      and illegal-argument failures are the client's fault, anything else
      the server's. */
  function ErrorResponse(e: Exception): (resp: Response)
    ensures resp.status == BAD_REQUEST <==> e.InvalidProtocolBuffer? || e.IllegalArgument?
    ensures resp.status == INTERNAL_SERVER_ERROR <==> e.RuntimeFault?
    ensures resp.contentType.None?
    ensures resp.body == Text(if e.RuntimeFault? then INTERNAL_ERROR_MESSAGE else BAD_REQUEST_MESSAGE)
  {
    match e
    case InvalidProtocolBuffer(_) => Response(BAD_REQUEST, Text(BAD_REQUEST_MESSAGE), None)
    case IllegalArgument(_) => Response(BAD_REQUEST, Text(BAD_REQUEST_MESSAGE), None)
    case RuntimeFault(_) => Response(INTERNAL_SERVER_ERROR, Text(INTERNAL_ERROR_MESSAGE), None)
  }

  /** The response for what `SetBid` produced. */
  function BidderResponse(outcome: Outcome<Option<BidAgentResponse>>): (resp: Response)
    ensures outcome == Returned(None) <==> resp == Response(NO_CONTENT, Empty, None)
    ensures resp.status == OK <==> outcome.Returned? && outcome.value.Some?
    ensures resp.status == OK ==> resp == Response(OK, Protobuf(outcome.value.value), Some(PROTOBUF_CONTENT_TYPE))
    ensures outcome.Threw? ==> resp == ErrorResponse(outcome.exception)
  {
    match outcome
    case Threw(e) => ErrorResponse(e)
    case Returned(None) => Response(NO_CONTENT, Empty, None)
    case Returned(Some(message)) => Response(OK, Protobuf(message), Some(PROTOBUF_CONTENT_TYPE))
  }

  /** `BidHandler.processRequest`, given the result of decoding the body.
      Every path yields exactly one response; nothing propagates. */
  method ProcessRequest(decoded: Outcome<BidAgentRequest>) returns (resp: Response)
    ensures resp.status in {OK, NO_CONTENT, BAD_REQUEST, INTERNAL_SERVER_ERROR}
    ensures decoded.Threw? ==> resp == ErrorResponse(decoded.exception)
    ensures decoded.Returned? && |decoded.value.adcandidates| == 0 ==>
              resp == Response(NO_CONTENT, Empty, None)
    ensures decoded.Returned? &&
            (exists i :: 0 <= i < |decoded.value.adcandidates| && |decoded.value.adcandidates[i].creativeIds| == 0) ==>
              resp == Response(BAD_REQUEST, Text(BAD_REQUEST_MESSAGE), None)
    ensures decoded.Returned? && |decoded.value.adcandidates| > 0 &&
            (forall i :: 0 <= i < |decoded.value.adcandidates| ==> |decoded.value.adcandidates[i].creativeIds| > 0) ==>
              && resp.status == OK
              && resp.contentType == Some(PROTOBUF_CONTENT_TYPE)
              && resp.body.Protobuf?
              && Bidder.BidsFor(Bidder.Kept(decoded.value.adcandidates), decoded.value.bidRequest, resp.body.message.bids)
  {
    match decoded
    case Threw(e) =>
      resp := ErrorResponse(e);
    case Returned(request) =>
      var outcome := Bidder.SetBid(request);
      resp := BidderResponse(outcome);
  }

  /** A request whose candidates are all skipped still succeeds, with zero
      bids; it is not turned into "no content". */
  method AllSkippedIsOkWithNoBids(request: BidAgentRequest) returns (resp: Response)
    requires |request.adcandidates| > 0
    requires forall i :: 0 <= i < |request.adcandidates| ==>
               |request.adcandidates[i].creativeIds| > 0 && Bidder.Skipped(request.adcandidates[i])
    ensures resp.status == OK && resp.body == Protobuf(BidAgentResponse([]))
  {
    Bidder.KeptExtremes(request.adcandidates);
    resp := ProcessRequest(Returned(request));
  }

  /** End to end: one flat price candidate (line item 111, creative 33,
      price "866") gets exactly one bid with those values. */
  method FlatPriceEndToEnd() returns (resp: Response)
    ensures resp.status == OK && resp.body.Protobuf?
    ensures |resp.body.message.bids| == 1
    ensures var bid := resp.body.message.bids[0];
            bid.lineItemId == 111 && bid.creative.id == 33 && bid.bidPriceMicros == 866
  {
    var c := Adcandidate(111, [33], Some(Bidding(Some(CustomStrategy("FLAT_PRICE_STRATEGY",
               [Param("flat_price_micros_usd", "866")])))));
    var request := BidAgentRequest([c], BidRequest(None));
    FlatPriceStrategyExample(c);
    assert Bidder.Kept([c]) == [c] by {
      assert [c][..0] == [];
    }
    resp := ProcessRequest(Returned(request));
  }

  /** The candidate above resolves to the flat price strategy and prices at 866. */
  lemma FlatPriceStrategyExample(c: Adcandidate)
    requires c == Adcandidate(111, [33], Some(Bidding(Some(CustomStrategy("FLAT_PRICE_STRATEGY",
                    [Param("flat_price_micros_usd", "866")])))))
    ensures !Bidder.Skipped(c)
    ensures forall p :: Bidder.PossiblePrice(c, BidRequest(None), p) <==> p == 866
  {
    FlatPriceStrategy.FlatPrice866(BidRequest(None));
    StrategyFactory.ResolvesByName(c, StrategyFactory.FlatPrice);
  }
}
