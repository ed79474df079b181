# hexbid bid decision engine, in Dafny

hexbid is a bidding agent for the Beeswax auction platform. For each request, the
`/bid` handler decodes a protobuf `BidAgentRequest` and passes it to `Bidder.SetBid`.
The bidder walks the ad candidates in order. For each one it:

- picks a creative id at random;
- resolves the candidate's custom strategy by name, through `StrategyFactory`;
- prices the candidate with that strategy, which is one of flat price, random price
  or retargeting;
- stamps the bid with constant agent data.

The handler then maps the outcome to an HTTP status: 200, 204, 400 or 500. Next to
the engine sit the routing table (`HexbidHandlerFactory`) and the typed property
getters (`PropertyParserUtils`).

The project has one module per Java source file, plus three supporting modules:

- `JavaLang` models the Java platform behaviour the engine depends on:
  - `long` and `int` ranges, and 64-bit wrap-around;
  - `Long.parseLong` and `Integer.parseInt`;
  - `Long.toString` and `Integer.toString`;
  - `String.trim` and `equalsIgnoreCase`;
  - `Random.nextInt(bound)`;
  - exceptions, as an `Outcome` datatype.
- `Messages` holds the protobuf messages as datatypes.
- `StrategyParams` holds the scans over a strategy's parameters, shared by the three
  strategies.

Code that computes a value is written as Dafny functions. Code whose loop updates
variables is written as Dafny methods with loops: the retargeting scan and
`SetBid`. Randomness is written as methods: `nextInt`, creative selection and the
random price. Each method is proved against a specification function or predicate:

- `RetargetingStrategy.Price` specifies the retargeting scan.
- `Bidder.Kept`, `Bidder.PossiblePrice` and `Bidder.BidsFor` specify `SetBid`.

Behaviours that are easy to misread and that the proofs pin down:

- One candidate with an empty `creativeIds` list makes the whole request a 400.
  `nextInt(0)` throws before the try block that guards the pricing step.
- Retargeting uses the **last** `base_price_micros_usd` that parses, because its
  loop never breaks. Flat price and random price use the **first** match.
- In the random price strategy, a parsed maximum ≤ 0 makes `nextInt` throw
  `IllegalArgumentException`. The strategy's `NumberFormatException` handler does
  not catch it. `SetBid` does catch it, so the candidate is dropped.
- If every candidate is dropped, the answer is still 200, with zero bids.
- A decode failure or an illegal argument gets a 400 whose body is the text
  "Bad request"; any other failure gets a 500 whose body is "Internal error when setting bid"
  (`BidHandler.ErrorResponse`).
- The bids keep the candidates' input order (`Bidder.KeptIsSubsequence`).

## Model

| member | source | states |
|---|---|---|
| JavaLang.WrapLong | java/src/main/java/com/beeswax/hexbid/strategy/RetargetingStrategy.java:69 | `long` multiplication: the result is congruent to the exact product mod 2^64, and equals it whenever the product fits in a `long` |
| JavaLang.ParseDecimal | java/src/main/java/com/beeswax/hexbid/strategy/FlatPriceStrategy.java:53-59 | `parseLong`/`parseInt` in radix 10: any parsed value lies in the requested range; the empty string never parses |
| JavaLang.ParseDecimalGrammar | java/src/main/java/com/beeswax/hexbid/strategy/FlatPriceStrategy.java:53-59 | a string parses exactly when it is decimal text `[+-]?[0-9]+` whose value lies in the range, and then to that value |
| JavaLang.ParseLong | java/src/main/java/com/beeswax/hexbid/strategy/FlatPriceStrategy.java:54 | `Long.parseLong` succeeds exactly on decimal text `[+-]?[0-9]+` whose value fits in a `long`, and returns that value |
| JavaLang.ParseInt | java/src/main/java/com/beeswax/hexbid/strategy/RandomPriceStrategy.java:56 | `Integer.parseInt` succeeds exactly on decimal text `[+-]?[0-9]+` whose value fits in an `int`, and returns that value |
| JavaLang.ParseIntNarrowsParseLong | java/src/main/java/com/beeswax/hexbid/strategy/RandomPriceStrategy.java:56 | an `int` parse succeeds exactly when a `long` parse of the same text does with a value in the `int` range, and gives the same value |
| JavaLang.ParseToDecimalString | java/src/main/java/com/beeswax/http/config/PropertyParserUtils.java:95-97 | round trip: parsing the printed form of any in-range number gives that number back |
| JavaLang.OutOfRangeRejected | java/src/main/java/com/beeswax/hexbid/strategy/RandomPriceStrategy.java:56-58 | a number outside the range is rejected even in its own printed form, so a `long`-sized maximum is not a random price bound |
| JavaLang.PrintedText | java/src/main/java/com/beeswax/http/config/PropertyParserUtils.java:77 | `toString` prints decimal text whose value is the number printed |
| JavaLang.ParseThenPrint | java/src/main/java/com/beeswax/hexbid/strategy/FlatPriceStrategy.java:53-59 | parse then print: a parsed number prints as its text without a '+' sign, without superfluous leading zeros, and without a '-' on zero |
| JavaLang.PrintDigitsValue | java/src/main/java/com/beeswax/http/config/PropertyParserUtils.java:77 | printing the value of a run of digits with no superfluous leading zero gives that run back |
| JavaLang.StripZeros | java/src/main/java/com/beeswax/hexbid/strategy/FlatPriceStrategy.java:54 | dropping superfluous leading zeros keeps a non-empty run of digits and its value, and leaves no leading zero except in "0" |
| JavaLang.NatToDigitsValue | java/src/main/java/com/beeswax/http/config/PropertyParserUtils.java:77 | the digits `toString` prints for a natural number have that number as their value |
| JavaLang.Trim | java/src/main/java/com/beeswax/http/config/PropertyParserUtils.java:79 | `trim` returns a contiguous middle `s[i..j]` of its input: every character removed before `i` or after `j` is ≤ U+0020, and the result has no character ≤ U+0020 at either end |
| JavaLang.TrimBothEnds | java/src/main/java/com/beeswax/http/config/PropertyParserUtils.java:79 | when a leading run and then a trailing run, both of characters ≤ U+0020, are stripped, what is left is the middle slice of the string between the two runs |
| JavaLang.TrimUntrimmed | java/src/main/java/com/beeswax/http/config/PropertyParserUtils.java:79 | `trim` leaves a string alone when neither end is ≤ U+0020 |
| JavaLang.ToUpperAscii | java/src/main/java/com/beeswax/hexbid/strategy/StrategyFactory.java:44 | case folding maps `a`–`z` to `A`–`Z` and leaves every other character unchanged |
| JavaLang.EqualsIgnoreCase | java/src/main/java/com/beeswax/hexbid/strategy/StrategyFactory.java:44 | `equalsIgnoreCase` holds of equal strings, and only of strings of the same length |
| JavaLang.ToDecimalString | java/src/main/java/com/beeswax/http/config/PropertyParserUtils.java:77 | `Integer.toString`/`Long.toString`: a non-empty string with a leading '-' exactly for negative numbers, decimal digits otherwise, "0" for zero and no leading zero otherwise |
| JavaLang.EqualsIgnoreCaseNonLetters | java/src/main/java/com/beeswax/hexbid/strategy/StrategyFactory.java:44 | two strings equal ignoring case agree exactly on every position that is not an ASCII letter |
| JavaLang.EqualsIgnoreCaseEquivalence | java/src/main/java/com/beeswax/hexbid/strategy/StrategyFactory.java:44-48 | `equalsIgnoreCase` is reflexive, symmetric and transitive |
| JavaLang.NextInt | java/src/main/java/com/beeswax/hexbid/bidder/Bidder.java:110 | `nextInt(bound)` throws `IllegalArgumentException` exactly when bound ≤ 0; otherwise the result is in [0, bound) |
| Messages.CustomStrategyOf | java/src/main/java/com/beeswax/hexbid/strategy/FlatPriceStrategy.java:41-44 | a custom strategy is present exactly when both the bidding block and its custom strategy are set |
| StrategyParams.Parsed | java/src/main/java/com/beeswax/hexbid/strategy/FlatPriceStrategy.java:51-59 | a param whose key matches ignoring case yields exactly the parse of its value; a param with another key yields nothing |
| StrategyParams.FirstParsed | java/src/main/java/com/beeswax/hexbid/strategy/FlatPriceStrategy.java:48-61 | the first-match scan finds a value exactly when some param yields one; that value comes from a param with no earlier param yielding one, and lies in range |
| StrategyParams.FirstParsedAt | java/src/main/java/com/beeswax/hexbid/strategy/RandomPriceStrategy.java:50-64 | the first index that yields a value determines the scan's result |
| StrategyParams.FirstParsedSkips | java/src/main/java/com/beeswax/hexbid/strategy/FlatPriceStrategy.java:55-58 | a param that yields nothing (another key, or a parse failure that is caught) can be inserted anywhere without changing the first match |
| StrategyParams.LastParsed | java/src/main/java/com/beeswax/hexbid/strategy/RetargetingStrategy.java:53-66 | the overwrite scan finds nothing exactly when no param yields a value; otherwise it keeps the in-range value of a param after which none yields one |
| StrategyParams.LastParsedKeepsEarlier | java/src/main/java/com/beeswax/hexbid/strategy/RetargetingStrategy.java:60-63 | a later param that fails to parse does not clear an earlier parsed value |
| StrategyFactory.GetStrategy | java/src/main/java/com/beeswax/hexbid/strategy/StrategyFactory.java:40-59 | the "No Bidding found" error exactly when the bidding block is absent; the no-custom-strategy error naming the line item exactly when the block has no custom strategy; each of the three strategies exactly when the name equals its registered name ignoring case; the unsupported-strategy error carries the candidate's strategy name |
| StrategyFactory.ResolveError.Message | java/src/main/java/com/beeswax/hexbid/strategy/StrategyFactory.java:50-58 | the three exception messages: the fixed "No Bidding found" text, and the fixed texts followed by the line item id or by the strategy name |
| StrategyFactory.MessageIdentifiesError | java/src/main/java/com/beeswax/hexbid/strategy/StrategyFactory.java:50-58 | two resolution failures with the same message are the same failure, down to the line item id or the strategy name |
| StrategyFactory.NamesDistinct | java/src/main/java/com/beeswax/hexbid/strategy/StrategyFactory.java:44-49 | no name matches two of the registered strategy names, even ignoring case, so the order of the checks does not matter |
| StrategyFactory.ResolvesByName | java/src/main/java/com/beeswax/hexbid/strategy/StrategyFactory.java:43-49 | a candidate resolves to strategy k exactly when its strategy name equals k's registered name ignoring case |
| StrategyFactory.UnknownNameFails | java/src/main/java/com/beeswax/hexbid/strategy/StrategyFactory.java:50-52 | the "Unsupported custom strategy" error occurs exactly when the name matches none of the three registered names |
| StrategyFactory.RegisteredNamesResolve | java/src/test/java/com/beeswax/hexbid/strategy/StrategyFactoryTest.java:24-75 | as in the test, "FLAT_PRICE_STRATEGY" and "RETARGETING_STRATEGY" resolve to their strategies and a bidding block without a strategy fails; beyond the test, which uses "RANDOM_PRICE_STRATEGY", the lower-case "random_price_strategy" also resolves and the empty name is unsupported |
| FlatPriceStrategy.GetBidPriceMicrosUSD | java/src/main/java/com/beeswax/hexbid/strategy/FlatPriceStrategy.java:40-67 | the price is 0 without a custom strategy named "FLAT_PRICE_STRATEGY" ignoring case; under that name it is the flat price the params carry, or 0 when they carry none; a non-zero price is the parsed value of a `flat_price_micros_usd` param with no earlier matching param that parses |
| FlatPriceStrategy.FlatPriceParam | java/src/main/java/com/beeswax/hexbid/strategy/FlatPriceStrategy.java:48-61 | a flat price that is found lies in the `long` range |
| FlatPriceStrategy.PriceIsFirstParsed | java/src/main/java/com/beeswax/hexbid/strategy/FlatPriceStrategy.java:40-67 | the price is the parsed value of the first `flat_price_micros_usd` param that parses |
| FlatPriceStrategy.NoParsedPriceIsZero | java/src/main/java/com/beeswax/hexbid/strategy/FlatPriceStrategy.java:65-66 | when no matching param parses, the price is 0 |
| FlatPriceStrategy.NotFlatPriceIsZero | java/src/main/java/com/beeswax/hexbid/strategy/FlatPriceStrategy.java:41-66 | when the bidding block or custom strategy is missing, or the strategy has another name, the price is 0 |
| FlatPriceStrategy.PriceIgnoresUnusableParam | java/src/main/java/com/beeswax/hexbid/strategy/FlatPriceStrategy.java:55-58 | inserting a param with another key or an unparseable value does not change the price |
| FlatPriceStrategy.PriceIgnoresRequest | java/src/main/java/com/beeswax/hexbid/strategy/FlatPriceStrategy.java:40 | the price does not depend on the bid request |
| FlatPriceStrategy.FlatPrice866 | java/src/test/java/com/beeswax/hexbid/handler/BidHandlerTest.java:82-87 | a flat price strategy whose param is "866" prices at exactly 866 |
| RandomPriceStrategy.MaxPrice | java/src/main/java/com/beeswax/hexbid/strategy/RandomPriceStrategy.java:44-64 | a maximum is found only for a random price strategy, and lies in the `int` range |
| RandomPriceStrategy.Throws | java/src/main/java/com/beeswax/hexbid/strategy/RandomPriceStrategy.java:55-61 | only a candidate that resolves to the random price strategy can make it throw, which happens when its first parsed maximum is not positive |
| RandomPriceStrategy.GetBidPriceMicrosUSD | java/src/main/java/com/beeswax/hexbid/strategy/RandomPriceStrategy.java:42-70 | throws `IllegalArgumentException` exactly when the first parsed maximum is ≤ 0; gives 0 when there is no maximum; otherwise the price is in [1, max] |
| RandomPriceStrategy.MaxPriceIsFirst | java/src/main/java/com/beeswax/hexbid/strategy/RandomPriceStrategy.java:50-57 | the maximum is the first `max_price_micros_usd` value that parses as an `int`; later values are ignored |
| RandomPriceStrategy.MaxPriceSkipsUnparseable | java/src/main/java/com/beeswax/hexbid/strategy/RandomPriceStrategy.java:58-61 | inserting a maximum that fails `parseInt` anywhere does not change the maximum |
| RandomPriceStrategy.OutOfIntRangeDoesNotParse | java/src/main/java/com/beeswax/hexbid/strategy/RandomPriceStrategy.java:56 | "2147483648" (one past `Integer.MAX_VALUE`) does not parse as a maximum |
| RandomPriceStrategy.NonPositiveMaxThrows | java/src/main/java/com/beeswax/hexbid/strategy/RandomPriceStrategy.java:56-58 | a first maximum of "0" or "-5" makes the strategy throw, whatever params follow |
| RandomPriceStrategy.FirstOf123And399 | java/src/test/java/com/beeswax/hexbid/strategy/RandomPriceStrategyTest.java:26-58 | with maxima 123 then 399, every draw returns a price in (0, 123] |
| RetargetingStrategy.GetUserId | java/src/main/java/com/beeswax/hexbid/strategy/RetargetingStrategy.java:84-95 | a user id is found exactly when user, extension and `user_id` are all set, and it is that `user_id` |
| RetargetingStrategy.GetBidPriceMicrosUSD | java/src/main/java/com/beeswax/hexbid/strategy/RetargetingStrategy.java:43-76 | the loop that overwrites the base price returns exactly the specified retargeting price |
| RetargetingStrategy.BasePriceIsLast | java/src/main/java/com/beeswax/hexbid/strategy/RetargetingStrategy.java:53-66 | the base price is the value of the last matching param that parses |
| RetargetingStrategy.PriceIsScoreTimesBase | java/src/main/java/com/beeswax/hexbid/strategy/RetargetingStrategy.java:68-69 | with a user id and a base price, the price is (user id length × base price) wrapped to 64 bits, and is exact when the product fits |
| RetargetingStrategy.MissingInputPriceIsZero | java/src/main/java/com/beeswax/hexbid/strategy/RetargetingStrategy.java:74-75 | a missing user id, a missing or unparseable base price, or another strategy gives 0 |
| RetargetingStrategy.UserIdIgnoresUserDotId | java/src/main/java/com/beeswax/hexbid/strategy/RetargetingStrategy.java:85-94 | `user.id` is never consulted; without an extension there is no user id |
| RetargetingStrategy.GetUserScore | java/src/main/java/com/beeswax/hexbid/strategy/RetargetingStrategy.java:103-113 | the score is 0 without a user id and the id's length with one |
| RetargetingStrategy.RetargetingExample550 | java/src/test/java/com/beeswax/hexbid/strategy/RetargetingStrategyTest.java:27-58 | user id "BITO.123456" with base price 50 after an unrelated param bids 550 |
| RetargetingStrategy.RetargetingExample1100 | java/src/test/java/com/beeswax/hexbid/handler/BidHandlerTest.java:174-231 | the same user id with base price 100 followed by another param bids 1100 |
| Bidder.GetAgentData | java/src/main/java/com/beeswax/hexbid/bidder/Bidder.java:137-149 | the agent data is the id "beeswax-hexbid" with the single param version = "1.0.0" |
| Bidder.GetCreativeId | java/src/main/java/com/beeswax/hexbid/bidder/Bidder.java:108-112 | throws exactly when the candidate has no creative ids; otherwise returns one of its creative ids |
| Bidder.GetBidPrice | java/src/main/java/com/beeswax/hexbid/bidder/Bidder.java:122-125 | throws an illegal-argument exception exactly when resolution fails or the random price strategy throws; otherwise returns a price the resolved strategy can produce |
| Bidder.Skipped | java/src/main/java/com/beeswax/hexbid/bidder/Bidder.java:82-91 | a candidate is skipped exactly when its strategy cannot be resolved or the random price strategy throws for it |
| Bidder.Kept | java/src/main/java/com/beeswax/hexbid/bidder/Bidder.java:71-98 | the candidates that get a bid are no more than the candidates, and none of them is one whose pricing throws |
| Bidder.SetBid | java/src/main/java/com/beeswax/hexbid/bidder/Bidder.java:63-100 | no candidates gives absent; any candidate without creative ids makes the whole call throw; otherwise one bid per kept candidate, in order, each with that candidate's line item, one of its creatives, a price its strategy can produce, and the agent data |
| Bidder.KeptIsSubsequence | java/src/main/java/com/beeswax/hexbid/bidder/Bidder.java:71-98 | the candidates that get a bid form a subsequence of the input: there are no more of them than candidates, and they come in input order |
| Bidder.KeptMembers | java/src/main/java/com/beeswax/hexbid/bidder/Bidder.java:82-91 | a candidate gets a bid exactly when it is in the request and its pricing does not throw |
| Bidder.KeptAppend | java/src/main/java/com/beeswax/hexbid/bidder/Bidder.java:87-90 | candidates are priced independently: the kept candidates of a concatenation are the kept candidates of each part |
| Bidder.KeptExtremes | java/src/main/java/com/beeswax/hexbid/bidder/Bidder.java:71-99 | when no candidate is skipped all are kept; when every candidate is skipped none is kept |
| Bidder.SkippedDropped | java/src/main/java/com/beeswax/hexbid/bidder/Bidder.java:87-90 | a skipped candidate contributes no bid, and its siblings on both sides keep theirs |
| Bidder.UnknownStrategyDropped | java/src/main/java/com/beeswax/hexbid/bidder/Bidder.java:86-90 | a candidate whose strategy name is unknown gets no bid, while its siblings keep theirs |
| Bidder.NonPositiveMaxDropped | java/src/main/java/com/beeswax/hexbid/strategy/RandomPriceStrategy.java:56-61 | a random price candidate with a parsed maximum ≤ 0 gets no bid, while its siblings keep theirs |
| Bidder.DeterministicPrices | java/src/main/java/com/beeswax/hexbid/bidder/Bidder.java:75-94 | with no random price candidates, any two runs agree on each bid's line item, price and agent data |
| BidHandler.ErrorResponse | java/src/main/java/com/beeswax/hexbid/handler/BidHandler.java:90-97 | protobuf and illegal-argument failures give 400 with body "Bad request"; anything else gives 500 with body "Internal error when setting bid"; neither sets a content type |
| BidHandler.BidderResponse | java/src/main/java/com/beeswax/hexbid/handler/BidHandler.java:76-88 | an absent result gives 204 with no body; a present one gives 200 with the protobuf body and content type; a thrown exception gives the error response |
| BidHandler.ProcessRequest | java/src/main/java/com/beeswax/hexbid/handler/BidHandler.java:69-98 | the status is always 200, 204, 400 or 500; a decode failure gives the error response; no candidates gives 204; a candidate without creative ids gives 400 "Bad request"; otherwise 200 with the bids `SetBid` specifies |
| BidHandler.AllSkippedIsOkWithNoBids | java/src/main/java/com/beeswax/hexbid/handler/BidHandler.java:78-88 | when every candidate is skipped, the answer is 200 with an empty bid list, not 204 |
| BidHandler.FlatPriceEndToEnd | java/src/test/java/com/beeswax/hexbid/handler/BidHandlerTest.java:77-121 | one flat price candidate (line item 111, creative 33, price "866") gives 200 with one bid: 111, 33, 866 |
| BidHandler.FlatPriceStrategyExample | java/src/test/java/com/beeswax/hexbid/handler/BidHandlerTest.java:82-92 | that candidate is not skipped, and 866 is its only possible price |
| PropertyParserUtils.GetProperty | java/src/main/java/com/beeswax/http/config/PropertyParserUtils.java:77 | `getProperty(key, default)` returns the stored value when the key is present and the default otherwise |
| PropertyParserUtils.GetStringProperty | java/src/main/java/com/beeswax/http/config/PropertyParserUtils.java:61-66 | returns the stored value exactly when the key is present; otherwise throws `IllegalArgumentException` "Missing property: " + key |
| PropertyParserUtils.TrimDecimalString | java/src/main/java/com/beeswax/http/config/PropertyParserUtils.java:77-79 | `trim` leaves a printed default number unchanged |
| PropertyParserUtils.GetIntegerProperty | java/src/main/java/com/beeswax/http/config/PropertyParserUtils.java:76-84 | a missing key yields the default; a present key yields its trimmed value parsed as an `int`, or the default when that parse fails |
| PropertyParserUtils.IntegerExamples | java/src/main/java/com/beeswax/http/config/PropertyParserUtils.java:79-82 | " 8080 " is read as 8080; "80x" gives the default |
| PropertyParserUtils.GetLongProperty | java/src/main/java/com/beeswax/http/config/PropertyParserUtils.java:94-102 | a missing key yields the default; a present key yields its trimmed value parsed as a `long`, or the default when that parse fails |
| PropertyParserUtils.BooleanToString | java/src/main/java/com/beeswax/http/config/PropertyParserUtils.java:113 | `Boolean.toString` round-trips through `parseBoolean`: the text equals "true" ignoring case exactly when the boolean is true |
| PropertyParserUtils.ParseBoolean | java/src/main/java/com/beeswax/http/config/PropertyParserUtils.java:112-114 | a missing key yields the default; a present key yields true exactly when its untrimmed value equals "true" ignoring case |
| PropertyParserUtils.BooleanExamples | java/src/main/java/com/beeswax/http/config/PropertyParserUtils.java:112-114 | "TRUE" reads as true; "yes" and " true" read as false |
| HexbidHandlerFactory.GetHandler | java/src/main/java/com/beeswax/hexbid/handler/HexbidHandlerFactory.java:30-40 | each of "/bid", "/health" and "/var" maps to its own handler, exactly; every other path maps to the default handler |
| HexbidHandlerFactory.ExactMatchOnly | java/src/test/java/com/beeswax/hexbid/handler/HexbidHandlerFactoryTest.java:24-31 | the three registered paths route to their handlers; "random", "/BID", "/bid/" and "" route to the default handler |

## Left out

- Protobuf wire decoding and encoding are not modelled. The handler takes the decode result as an `Outcome`, and a 200 body is the response message itself.
- Netty transport, `FullHttpRequest`, the HTTP version and the channel context are not modelled.
- Logging is not modelled.
- Loading property files from disk or streams is I/O and is not modelled. The getters take the loaded properties as a map.
- `java.util.Random` has no generator in the model. Each draw is a free choice within its bounds, so the model does not state uniformity.
- `Bidder.SetBid`: the model lets it throw only the illegal-argument exception of `nextInt`. This assumes that `BidAgentResponse.Builder.build()` (Bidder.java:99) finds every required field set, so it never throws `UninitializedMessageException`. The protobuf schema that decides this is not part of this model. Under that assumption, the 500 path is reached only through a decode outcome that fails with another exception.
- `JavaLang.EqualsIgnoreCase`: folds ASCII letters only. Java's `equalsIgnoreCase` also folds non-ASCII characters: `ſ` (U+017F) upper-cases to `S`, `ı` (U+0131) to `I`, and `İ` (U+0130) lower-cases to `i`. Strategy names and param keys come from the request and may hold such characters, so "flat_prıce_micros_usd" or "FLAT_PRICE_ſTRATEGY" match in Java but not in the model.
- `JavaLang.ParseDecimal`: accepts ASCII digits only. Java's `parseLong` and `parseInt` also accept other Unicode decimal digits. Its own contract gives only the range of a result; the grammar and the value are stated by `JavaLang.ParseDecimalGrammar`, a separate lemma, so that the many callers of the function do not carry them.
- `RetargetingStrategy.GetUserScore`: Java's `String.length()` counts UTF-16 code units, while the model counts characters. The two differ for ids outside the Basic Multilingual Plane.
- The health, variables and default handlers are modelled only as routing targets, not as response builders. The server's trailing-slash handling happens before `getHandler` and is not part of this model.
- `GlobalHandler`, `HttpServer` and `ServerConfig` are not part of this model.
