/** USD prices from the CoinGecko price API, the exchange rate between two tokens derived
    from them, and the two amount estimates built on that rate. The HTTP fetch is a
    parameter that maps the request URL to what the request produced. */
module RateService {
  import opened Wrappers
  import Decimal

  const CoinGeckoApiUrl: string := "https://api.coingecko.com/api/v3"

  /** Token symbol to CoinGecko coin id. */
  const TokenIdMapping: map<string, string> := map["ETH" := "ethereum", "WETH" := "weth", "USDC" := "usd-coin"]

  /** The part of a coin's JSON entry the service reads: its `usd` field, if it has one. */
  datatype Quote = Quote(usd: Option<real>)

  /** What awaiting `fetch` and then `response.json()` gives: a rejected fetch, or a response
      with its `ok` flag, its status and its parsed body (or the JSON parse error). */
  datatype FetchOutcome =
    | NetworkFailure(reason: string)
    | HttpResponse(ok: bool, status: nat, body: Result<map<string, Quote>, string>)

  type Fetcher = string -> FetchOutcome

  /** `tokens.filter(token => TOKEN_ID_MAPPING[token])`: the symbols that have a coin id. */
  function ValidTokens(tokens: seq<string>): (valid: seq<string>)
    ensures forall t :: t in valid <==> t in tokens && t in TokenIdMapping
  {
    if tokens == [] then []
    else if tokens[0] in TokenIdMapping then [tokens[0]] + ValidTokens(tokens[1..])
    else ValidTokens(tokens[1..])
  }

  /** The coin ids of mapped symbols, in order. */
  function CoinIds(valid: seq<string>): (ids: seq<string>)
    requires forall t | t in valid :: t in TokenIdMapping
    ensures |ids| == |valid| && forall k | 0 <= k < |valid| :: ids[k] == TokenIdMapping[valid[k]]
  {
    if valid == [] then [] else [TokenIdMapping[valid[0]]] + CoinIds(valid[1..])
  }

  /** `parts.join(sep)`. */
  function Join(parts: seq<string>, sep: string): string {
    if parts == [] then "" else if |parts| == 1 then parts[0] else parts[0] + sep + Join(parts[1..], sep)
  }

  /** Joining non-empty parts gives the empty string only when there are no parts, so the
      `!tokenIds` test is a test for "no symbol has a coin id". */
  lemma JoinEmptyIff(parts: seq<string>, sep: string)
    requires forall k | 0 <= k < |parts| :: parts[k] != ""
    ensures Join(parts, sep) == "" <==> parts == []
  {
    if |parts| > 1 {
      assert |Join(parts, sep)| >= |parts[0]|;
    }
  }

  function PriceUrl(ids: string): string {
    CoinGeckoApiUrl + "/simple/price?ids=" + ids + "&vs_currencies=usd"
  }

  /** `data[coinId] && data[coinId].usd`: the coin is present and its `usd` is truthy (a price
      of 0 is falsy). */
  predicate HasPrice(data: map<string, Quote>, coinId: string) {
    coinId in data && data[coinId].usd.Some? && data[coinId].usd.value != 0.0
  }

  /** The result object: a symbol's price for each mapped symbol whose coin has a price. */
  function PriceTable(valid: seq<string>, data: map<string, Quote>): map<string, real> {
    map t | t in valid && t in TokenIdMapping && HasPrice(data, TokenIdMapping[t]) :: data[TokenIdMapping[t]].usd.value
  }

  /** `getTokenPrices(tokens)` as a value: what the source's function computes. */
  function TokenPrices(tokens: seq<string>, fetch: Fetcher): Result<map<string, real>, string> {
    var valid := ValidTokens(tokens);
    var ids := Join(CoinIds(valid), ",");
    if ids == "" then Success(map[])
    else
      match fetch(PriceUrl(ids))
      case NetworkFailure(reason) => Failure(reason)
      case HttpResponse(ok, status, body) =>
        if !ok then Failure("CoinGecko API error: " + Decimal.NatToString(status))
        else
          match body
          case Failure(parseError) => Failure(parseError)
          case Success(data) => Success(PriceTable(valid, data))
  }

  /** Visiting one more symbol sets its entry when its coin has a price, and changes nothing
      otherwise. */
  lemma PriceTableStep(valid: seq<string>, i: nat, data: map<string, Quote>)
    requires i < |valid| && valid[i] in TokenIdMapping
    ensures PriceTable(valid[..i + 1], data) ==
      if HasPrice(data, TokenIdMapping[valid[i]]) then PriceTable(valid[..i], data)[valid[i] := data[TokenIdMapping[valid[i]]].usd.value]
      else PriceTable(valid[..i], data)
  {
    assert valid[..i + 1] == valid[..i] + [valid[i]];
  }

  /** The loop of `getTokenPrices` that fills the result object, one valid symbol at a time. */
  method CollectPrices(validTokens: seq<string>, data: map<string, Quote>) returns (result: map<string, real>)
    requires forall k | 0 <= k < |validTokens| :: validTokens[k] in TokenIdMapping
    ensures result == PriceTable(validTokens, data)
  {
    result := map[];
    var i := 0;
    while i < |validTokens|
      invariant 0 <= i <= |validTokens|
      invariant result == PriceTable(validTokens[..i], data)
    {
      var token := validTokens[i];
      var coinId := TokenIdMapping[token];
      PriceTableStep(validTokens, i, data);
      if HasPrice(data, coinId) {
        result := result[token := data[coinId].usd.value];
      }
      i := i + 1;
    }
    assert validTokens[..i] == validTokens;
  }

  /** `getTokenPrices`: filter, request, check the response, collect the prices. */
  method GetTokenPrices(tokens: seq<string>, fetch: Fetcher) returns (r: Result<map<string, real>, string>)
    ensures r == TokenPrices(tokens, fetch)
  {
    var validTokens := ValidTokens(tokens);
    var tokenIds := Join(CoinIds(validTokens), ",");
    if tokenIds == "" {
      return Success(map[]);
    }
    var response := fetch(PriceUrl(tokenIds));
    if response.NetworkFailure? {
      return Failure(response.reason);
    }
    if !response.ok {
      return Failure("CoinGecko API error: " + Decimal.NatToString(response.status));
    }
    if response.body.Failure? {
      return Failure(response.body.error);
    }
    var result := CollectPrices(validTokens, response.body.value);
    return Success(result);
  }

  /** With no mapped symbol the result is the empty map whatever the fetch would have produced:
      no request is made. */
  lemma NoMappedTokenNoFetch(tokens: seq<string>, fetch: Fetcher)
    requires forall k | 0 <= k < |tokens| :: tokens[k] !in TokenIdMapping
    ensures TokenPrices(tokens, fetch) == Success(map[])
  {
    NoMappedTokenNoValid(tokens);
  }

  lemma {:induction false} NoMappedTokenNoValid(tokens: seq<string>)
    requires forall k | 0 <= k < |tokens| :: tokens[k] !in TokenIdMapping
    ensures ValidTokens(tokens) == []
  {
    if tokens != [] {
      assert tokens[0] !in TokenIdMapping;
      NoMappedTokenNoValid(tokens[1..]);
    }
  }

  /** A successful result holds exactly the requested mapped symbols whose coin has a truthy
      `usd`, at that price; unmapped symbols are dropped. */
  lemma TokenPricesContents(tokens: seq<string>, fetch: Fetcher, data: map<string, Quote>, status: nat)
    requires exists t | t in tokens :: t in TokenIdMapping
    requires fetch(PriceUrl(Join(CoinIds(ValidTokens(tokens)), ","))) == HttpResponse(true, status, Success(data))
    ensures TokenPrices(tokens, fetch).Success?
    ensures forall t :: t in TokenPrices(tokens, fetch).value <==>
      t in tokens && t in TokenIdMapping && HasPrice(data, TokenIdMapping[t])
    ensures forall t | t in TokenPrices(tokens, fetch).value :: TokenPrices(tokens, fetch).value[t] == data[TokenIdMapping[t]].usd.value
  {
    IdsNonEmpty(tokens);
  }

  /** A response that is not OK is an error naming its status. */
  lemma ErrorStatusFails(tokens: seq<string>, fetch: Fetcher, status: nat, body: Result<map<string, Quote>, string>)
    requires exists t | t in tokens :: t in TokenIdMapping
    requires fetch(PriceUrl(Join(CoinIds(ValidTokens(tokens)), ","))) == HttpResponse(false, status, body)
    ensures TokenPrices(tokens, fetch) == Failure("CoinGecko API error: " + Decimal.NatToString(status))
  {
    IdsNonEmpty(tokens);
  }

  /** A rejected `fetch` is rethrown unchanged. */
  lemma NetworkFailureFails(tokens: seq<string>, fetch: Fetcher, reason: string)
    requires exists t | t in tokens :: t in TokenIdMapping
    requires fetch(PriceUrl(Join(CoinIds(ValidTokens(tokens)), ","))) == NetworkFailure(reason)
    ensures TokenPrices(tokens, fetch) == Failure(reason)
  {
    IdsNonEmpty(tokens);
  }

  /** A `response.json()` that fails on an OK response is rethrown unchanged. */
  lemma BadBodyFails(tokens: seq<string>, fetch: Fetcher, status: nat, parseError: string)
    requires exists t | t in tokens :: t in TokenIdMapping
    requires fetch(PriceUrl(Join(CoinIds(ValidTokens(tokens)), ","))) == HttpResponse(true, status, Failure(parseError))
    ensures TokenPrices(tokens, fetch) == Failure(parseError)
  {
    IdsNonEmpty(tokens);
  }

  /** When some requested symbol has a coin id, the joined id list is not empty, so a request
      is made. */
  lemma IdsNonEmpty(tokens: seq<string>)
    requires exists t | t in tokens :: t in TokenIdMapping
    ensures Join(CoinIds(ValidTokens(tokens)), ",") != ""
  {
    var valid := ValidTokens(tokens);
    var t :| t in tokens && t in TokenIdMapping;
    assert t in valid;
    var ids := CoinIds(valid);
    forall k | 0 <= k < |ids| ensures ids[k] != "" {
      assert valid[k] in TokenIdMapping;
    }
    JoinEmptyIff(ids, ",");
  }

  /** The filter keeps the requested order: filtering a concatenation filters each part. */
  lemma {:induction false} ValidTokensAppend(a: seq<string>, b: seq<string>)
    ensures ValidTokens(a + b) == ValidTokens(a) + ValidTokens(b)
  {
    if a != [] {
      assert (a + b)[1..] == a[1..] + b;
      ValidTokensAppend(a[1..], b);
    } else {
      assert a + b == b;
    }
  }

  /** The pair the exchange rate asks for: the mapped ones among source and destination, source
      first. */
  lemma ValidTokensPair(sourceToken: string, destinationToken: string)
    ensures ValidTokens([sourceToken, destinationToken]) ==
      (if sourceToken in TokenIdMapping then [sourceToken] else []) + (if destinationToken in TokenIdMapping then [destinationToken] else [])
  {
    ValidTokensAppend([sourceToken], [destinationToken]);
    assert ValidTokens([sourceToken]) == if sourceToken in TokenIdMapping then [sourceToken] else [];
    assert ValidTokens([destinationToken]) == if destinationToken in TokenIdMapping then [destinationToken] else [];
  }

  function RateError(sourceToken: string, destinationToken: string): string {
    "Failed to get exchange rate for " + sourceToken + " to " + destinationToken
  }

  /** `getTokenExchangeRate`: 1 for the same token; otherwise the ratio of the two USD prices.
      Every failure, a missing price or a failed request, surfaces as the one outer message. */
  function ExchangeRate(sourceToken: string, destinationToken: string, fetch: Fetcher): (r: Result<real, string>)
    ensures r.Failure? ==> r.error == RateError(sourceToken, destinationToken)
    ensures r.Success? ==> r.value != 0.0
  {
    if sourceToken == destinationToken then Success(1.0)
    else RateFromPrices(sourceToken, destinationToken, TokenPrices([sourceToken, destinationToken], fetch))
  }

  /** What follows the price request: a failed request, or a missing or zero price for either
      token, becomes the outer failure; otherwise the rate is the ratio of the two prices. */
  function RateFromPrices(sourceToken: string, destinationToken: string,
                          prices: Result<map<string, real>, string>): (r: Result<real, string>)
    ensures r.Failure? <==> (
      || prices.Failure?
      || sourceToken !in prices.value || prices.value[sourceToken] == 0.0
      || destinationToken !in prices.value || prices.value[destinationToken] == 0.0)
    ensures r.Failure? ==> r.error == RateError(sourceToken, destinationToken)
    ensures r.Success? ==> r.value != 0.0
  {
    match prices
    case Failure(_) => Failure(RateError(sourceToken, destinationToken))
    case Success(table) =>
      if sourceToken !in table || table[sourceToken] == 0.0
         || destinationToken !in table || table[destinationToken] == 0.0
      then Failure(RateError(sourceToken, destinationToken))
      else
        RatioNonZero(table[sourceToken], table[destinationToken]);
        Success(table[sourceToken] / table[destinationToken])
  }

  lemma RatioNonZero(a: real, b: real)
    requires a != 0.0 && b != 0.0
    ensures a / b != 0.0 && (a / b) * b == a
  {
  }

  /** The rate of a token to itself is 1 whatever the price API would answer, even for a
      symbol with no coin id: no request is made. */
  lemma SameTokenRate(token: string, fetch: Fetcher, otherFetch: Fetcher)
    ensures ExchangeRate(token, token, fetch) == ExchangeRate(token, token, otherFetch) == Success(1.0)
  {
  }

  /** A symbol without a coin id never gets a rate to a different symbol. */
  lemma UnmappedTokenRateFails(sourceToken: string, destinationToken: string, fetch: Fetcher)
    requires sourceToken != destinationToken
    requires sourceToken !in TokenIdMapping || destinationToken !in TokenIdMapping
    ensures ExchangeRate(sourceToken, destinationToken, fetch) == Failure(RateError(sourceToken, destinationToken))
  {
    var tokens := [sourceToken, destinationToken];
    match TokenPrices(tokens, fetch)
    case Failure(_) =>
    case Success(prices) =>
      var valid := ValidTokens(tokens);
      assert !(sourceToken in valid && destinationToken in valid);
      assert prices.Keys <= set t | t in valid;
  }

  /** When the API answers with a truthy price for both coins, the rate is the source price
      over the destination price. */
  lemma RateIsPriceRatio(sourceToken: string, destinationToken: string, fetch: Fetcher,
                         data: map<string, Quote>, status: nat)
    requires sourceToken != destinationToken
    requires sourceToken in TokenIdMapping && destinationToken in TokenIdMapping
    requires fetch(PriceUrl(Join(CoinIds(ValidTokens([sourceToken, destinationToken])), ","))) == HttpResponse(true, status, Success(data))
    requires HasPrice(data, TokenIdMapping[sourceToken]) && HasPrice(data, TokenIdMapping[destinationToken])
    ensures ExchangeRate(sourceToken, destinationToken, fetch)
      == Success(data[TokenIdMapping[sourceToken]].usd.value / data[TokenIdMapping[destinationToken]].usd.value)
  {
    TokenPricesContents([sourceToken, destinationToken], fetch, data, status);
  }

  /** An amount converted at a rate; a failed rate passes its error through. */
  function TimesRate(rate: Result<real, string>, amount: real): (r: Result<real, string>)
    requires rate.Success? ==> rate.value != 0.0
    ensures r.Failure? <==> rate.Failure?
    ensures r.Failure? ==> r.error == rate.error
    ensures r.Success? ==> r.value / rate.value == amount
  {
    match rate
    case Failure(e) => Failure(e)
    case Success(x) => RateCancels(amount, x); Success(amount * x)
  }

  /** An amount converted back at a rate; a failed rate passes its error through. */
  function OverRate(rate: Result<real, string>, amount: real): (r: Result<real, string>)
    requires rate.Success? ==> rate.value != 0.0
    ensures r.Failure? <==> rate.Failure?
    ensures r.Failure? ==> r.error == rate.error
    ensures r.Success? ==> r.value * rate.value == amount
  {
    match rate
    case Failure(e) => Failure(e)
    case Success(x) => RateCancels(amount, x); Success(amount / x)
  }

  /** `estimateDestinationAmount`: the amount times the rate; converting the estimate back at
      the same rate gives the amount. */
  function EstimateDestinationAmount(sourceToken: string, destinationToken: string, amount: real, fetch: Fetcher): (r: Result<real, string>)
    ensures r.Failure? <==> ExchangeRate(sourceToken, destinationToken, fetch).Failure?
    ensures r.Failure? ==> r.error == RateError(sourceToken, destinationToken)
    ensures r.Success? ==> OverRate(ExchangeRate(sourceToken, destinationToken, fetch), r.value) == Success(amount)
  {
    RateConversionsInverse(ExchangeRate(sourceToken, destinationToken, fetch), amount);
    TimesRate(ExchangeRate(sourceToken, destinationToken, fetch), amount)
  }

  /** `estimateSourceAmount`: the destination amount divided by the rate; converting the
      estimate at the same rate gives the destination amount. */
  function EstimateSourceAmount(sourceToken: string, destinationToken: string, destinationAmount: real, fetch: Fetcher): (r: Result<real, string>)
    ensures r.Failure? <==> ExchangeRate(sourceToken, destinationToken, fetch).Failure?
    ensures r.Failure? ==> r.error == RateError(sourceToken, destinationToken)
    ensures r.Success? ==> TimesRate(ExchangeRate(sourceToken, destinationToken, fetch), r.value) == Success(destinationAmount)
  {
    RateConversionsInverse(ExchangeRate(sourceToken, destinationToken, fetch), destinationAmount);
    OverRate(ExchangeRate(sourceToken, destinationToken, fetch), destinationAmount)
  }

  /** Converting at a rate and back gives the amount again, in either order. */
  lemma RateConversionsInverse(rate: Result<real, string>, amount: real)
    requires rate.Success? ==> rate.value != 0.0
    ensures OverRate(rate, amount).Success? ==> TimesRate(rate, OverRate(rate, amount).value) == Success(amount)
    ensures TimesRate(rate, amount).Success? ==> OverRate(rate, TimesRate(rate, amount).value) == Success(amount)
  {
    if rate.Success? {
      var x := rate.value;
      var back := OverRate(rate, amount).value;
      DivisionInverts(TimesRate(rate, back).value, back, x);
      DivisionInverts(amount, back, x);
      var there := TimesRate(rate, amount).value;
      DivisionInverts(there, amount, x);
      DivisionInverts(there, OverRate(rate, there).value, x);
    }
  }

  /** With exact arithmetic and unchanged prices the two estimates undo each other. */
  lemma EstimatesRoundTrip(sourceToken: string, destinationToken: string, amount: real, fetch: Fetcher)
    ensures EstimateSourceAmount(sourceToken, destinationToken, amount, fetch).Success? ==>
      EstimateDestinationAmount(sourceToken, destinationToken,
        EstimateSourceAmount(sourceToken, destinationToken, amount, fetch).value, fetch) == Success(amount)
    ensures EstimateDestinationAmount(sourceToken, destinationToken, amount, fetch).Success? ==>
      EstimateSourceAmount(sourceToken, destinationToken,
        EstimateDestinationAmount(sourceToken, destinationToken, amount, fetch).value, fetch) == Success(amount)
  {
    RateConversionsInverse(ExchangeRate(sourceToken, destinationToken, fetch), amount);
  }

  lemma DivisionInverts(a: real, b: real, x: real)
    requires x != 0.0
    ensures a / x == b <==> a == b * x
  {
  }

  lemma RateCancels(a: real, x: real)
    requires x != 0.0
    ensures (a / x) * x == a && (a * x) / x == a
  {
  }

  /** ETH at 3000 USD and USDC at 1 USD: the rate is 3000 and 300 USDC costs 0.1 ETH. */
  lemma EthToUsdcExample(fetch: Fetcher)
    requires forall url :: fetch(url) == HttpResponse(true, 200, Success(map["ethereum" := Quote(Some(3000.0)), "usd-coin" := Quote(Some(1.0))]))
    ensures ExchangeRate("ETH", "USDC", fetch) == Success(3000.0)
    ensures EstimateSourceAmount("ETH", "USDC", 300.0, fetch) == Success(0.1)
  {
    var data := map["ethereum" := Quote(Some(3000.0)), "usd-coin" := Quote(Some(1.0))];
    RateIsPriceRatio("ETH", "USDC", fetch, data, 200);
  }
}
