/** Registry lookups and the construction of the two wallet calls: the ERC-20 `approve` that
    lets the bridge contract spend a token, and the bridge contract's `bridgeTransfer`.
    The wallet writer and viem's `parseUnits` are foreign code: both are parameters. */
module ContractInteraction {
  import opened Wrappers
  import opened SupportedTokens

  /** The fixed address of the bridge contract. */
  const BridgePayAddress: string := "0xB8Bf6b9cF6D72c4D6f4149a57E55d0E400BEc162"

  /** Seconds a bridge transfer stays valid: thirty minutes. */
  const DeadlineWindowSeconds: int := 30 * 60

  datatype Abi = Erc20Abi | BridgePayAbi

  /** A call argument as the JavaScript value handed to the writer: a string, a bigint
      (what `parseUnits` returns) or a plain number (the deadline). */
  datatype CallArg = Str(text: string) | BigInt(big: int) | Num(num: int)

  /** The object passed to `writeContractAsync`. */
  datatype WriteRequest = WriteRequest(address: string, abi: Abi, functionName: string, args: seq<CallArg>)

  /** viem's `parseUnits(value, decimals)`: a base-unit integer, or the error it throws. */
  type UnitParser = (string, nat) -> Result<int, string>

  /** `writeContractAsync`: the transaction hash, or the error of a rejected signature,
      a reverted call or a transport failure. */
  type ContractWriter = WriteRequest -> Result<string, string>

  /** The first registry entry whose key equals `tokenName` (`Array.prototype.find`). */
  function FindEntry(entries: seq<(string, TokenInfo)>, tokenName: string): (r: Option<(string, TokenInfo)>)
    ensures r.None? <==> forall k | 0 <= k < |entries| :: entries[k].0 != tokenName
    ensures r.Some? ==> exists k | 0 <= k < |entries| ::
      entries[k] == r.value && entries[k].0 == tokenName && forall j | 0 <= j < k :: entries[j].0 != tokenName
  {
    if entries == [] then None
    else if entries[0].0 == tokenName then Some(entries[0])
    else
      var r := FindEntry(entries[1..], tokenName);
      assert forall k | 1 <= k < |entries| :: entries[k] == entries[1..][k - 1];
      r
  }

  function NotSupported(tokenName: string): string {
    "Token " + tokenName + " not supported"
  }

  function GetTokenAddressByName(tokenName: string): (r: Result<string, string>)
    ensures r.Failure? ==> r.error == NotSupported(tokenName)
  {
    match FindEntry(SupportedTokenEntries, tokenName)
    case None => Failure(NotSupported(tokenName))
    case Some(entry) => Success(entry.1.address)
  }

  function GetTokenDecimalsByName(tokenName: string): (r: Result<nat, string>)
    ensures r.Failure? ==> r.error == NotSupported(tokenName)
  {
    match FindEntry(SupportedTokenEntries, tokenName)
    case None => Failure(NotSupported(tokenName))
    case Some(entry) => Success(entry.1.decimals)
  }

  /** Lookup is by exact key: a symbol is found iff it is `WETH` or `USDC`, and then both
      lookups return that symbol's registry entry. */
  lemma LookupMatchesRegistry(tokenName: string)
    ensures GetTokenAddressByName(tokenName).Success? <==> tokenName in {"WETH", "USDC"}
    ensures GetTokenDecimalsByName(tokenName).Success? <==> tokenName in {"WETH", "USDC"}
    ensures tokenName == "WETH" ==>
      GetTokenAddressByName(tokenName) == Success(WethAddress) && GetTokenDecimalsByName(tokenName) == Success(18)
    ensures tokenName == "USDC" ==>
      GetTokenAddressByName(tokenName) == Success(UsdcAddress) && GetTokenDecimalsByName(tokenName) == Success(6)
  {
    var r := FindEntry(SupportedTokenEntries, tokenName);
    if tokenName !in {"WETH", "USDC"} {
      assert r.None?;
    } else if tokenName == "WETH" {
      assert SupportedTokenEntries[0].0 == tokenName;
    } else {
      assert SupportedTokenEntries[0].0 != tokenName && SupportedTokenEntries[1].0 == tokenName;
      assert r.Some?;
    }
  }

  /** The match is case-sensitive, and none of the symbols the transfer form offers is in the
      registry, so every lookup of a form symbol fails. */
  lemma FormSymbolsNotSupported(tokenName: string)
    requires tokenName in {"weth", "usdc", "ETH", "USDT", "IDRX", "wBTC"}
    ensures GetTokenAddressByName(tokenName) == Failure(NotSupported(tokenName))
    ensures GetTokenDecimalsByName(tokenName) == Failure(NotSupported(tokenName))
  {
    LookupMatchesRegistry(tokenName);
  }

  /** Unix seconds thirty minutes after the clock reading `nowMs` (milliseconds), the
      reading first rounded down to a whole second. */
  function Deadline(nowMs: int): (deadline: int)
    ensures (deadline - DeadlineWindowSeconds) * 1000 <= nowMs < (deadline - DeadlineWindowSeconds + 1) * 1000
  {
    nowMs / 1000 + DeadlineWindowSeconds
  }

  /** A `0x`-prefixed address: what the token contract is addressed by. */
  predicate IsPrefixedAddress(s: string) {
    |s| == 42 && s[..2] == "0x" && IsBareAddress(s[2..])
  }

  /** `approve(spender, amount)` in the order of the ERC-20 interface. */
  datatype ApproveParams = ApproveParams(spender: string, amount: int)

  /** `bridgeTransfer` in the order of the bridge contract's interface. */
  datatype BridgeTransferParams = BridgeTransferParams(
    recipient: string, sourceToken: string, destinationToken: string,
    sourceAmount: int, minDestinationAmount: int, deadline: int)

  /** How the contract reads the positional arguments of `approve`. */
  function DecodeApproveArgs(args: seq<CallArg>): Option<ApproveParams> {
    if |args| == 2 && args[0].Str? && args[1].BigInt? then Some(ApproveParams(args[0].text, args[1].big))
    else None
  }

  /** How the contract reads the positional arguments of `bridgeTransfer`. */
  function DecodeBridgeTransferArgs(args: seq<CallArg>): Option<BridgeTransferParams> {
    if |args| == 6 && args[0].Str? && args[1].Str? && args[2].Str?
       && args[3].BigInt? && args[4].BigInt? && args[5].Num?
    then Some(BridgeTransferParams(args[0].text, args[1].text, args[2].text, args[3].big, args[4].big, args[5].num))
    else None
  }

  /** The request `approveToken` sends once the amount is parsed. */
  function ApproveRequest(tokenAddress: string, parsedAmount: int): (req: WriteRequest)
    ensures req.address == "0x" + tokenAddress
    ensures req.abi == Erc20Abi && req.functionName == "approve"
    ensures DecodeApproveArgs(req.args) == Some(ApproveParams(BridgePayAddress, parsedAmount))
  {
    WriteRequest("0x" + tokenAddress, Erc20Abi, "approve", [Str(BridgePayAddress), BigInt(parsedAmount)])
  }

  /** The request `executeBridgeTransfer` sends once both amounts are parsed. */
  function BridgeTransferRequest(recipient: string, sourceToken: string, destinationToken: string,
                                 sourceAmount: int, minAmount: int, deadline: int): (req: WriteRequest)
    ensures req.address == BridgePayAddress && req.abi == BridgePayAbi && req.functionName == "bridgeTransfer"
    ensures DecodeBridgeTransferArgs(req.args)
      == Some(BridgeTransferParams(recipient, sourceToken, destinationToken, sourceAmount, minAmount, deadline))
  {
    WriteRequest(BridgePayAddress, BridgePayAbi, "bridgeTransfer",
      [Str(recipient), Str(sourceToken), Str(destinationToken), BigInt(sourceAmount), BigInt(minAmount), Num(deadline)])
  }

  /** For a registered token, `approveToken` addresses that token's own contract, and the
      address is a well-formed `0x` address. */
  lemma ApproveTargetsRegisteredToken(tokenName: string, parsedAmount: int)
    requires GetTokenAddressByName(tokenName).Success?
    ensures tokenName == "WETH" ==> ApproveRequest(GetTokenAddressByName(tokenName).value, parsedAmount).address == "0x" + WethAddress
    ensures tokenName == "USDC" ==> ApproveRequest(GetTokenAddressByName(tokenName).value, parsedAmount).address == "0x" + UsdcAddress
    ensures IsPrefixedAddress(ApproveRequest(GetTokenAddressByName(tokenName).value, parsedAmount).address)
  {
    LookupMatchesRegistry(tokenName);
    WethAddressBare();
    UsdcAddressBare();
    var a := GetTokenAddressByName(tokenName).value;
    assert ("0x" + a)[2..] == a;
  }

  /** `approveToken`: a parse failure is rethrown as it is; otherwise exactly one write is
      issued and its outcome, success or error, is returned unchanged. */
  function ApproveToken(tokenAddress: string, amount: string, decimals: nat,
                        parseUnits: UnitParser, write: ContractWriter): (r: Result<string, string>)
    ensures parseUnits(amount, decimals).Failure? ==> r == Failure(parseUnits(amount, decimals).error)
    ensures parseUnits(amount, decimals).Success? ==>
      r == write(ApproveRequest(tokenAddress, parseUnits(amount, decimals).value))
  {
    match parseUnits(amount, decimals)
    case Failure(e) => Failure(e)
    case Success(parsedAmount) => write(ApproveRequest(tokenAddress, parsedAmount))
  }

  /** `executeBridgeTransfer`: the source amount is parsed first, then the minimum amount;
      the first parse failure is rethrown as it is. Otherwise exactly one `bridgeTransfer`
      write is issued, with the deadline taken from `nowMs`, and its outcome is returned unchanged. */
  function ExecuteBridgeTransfer(recipient: string, sourceToken: string, destinationToken: string,
                                 amount: string, sourceDecimals: nat,
                                 minDestinationAmount: string, minDestinationDecimals: nat,
                                 nowMs: int, parseUnits: UnitParser, write: ContractWriter): (r: Result<string, string>)
    ensures parseUnits(amount, sourceDecimals).Failure? ==>
      r == Failure(parseUnits(amount, sourceDecimals).error)
    ensures parseUnits(amount, sourceDecimals).Success? && parseUnits(minDestinationAmount, minDestinationDecimals).Failure? ==>
      r == Failure(parseUnits(minDestinationAmount, minDestinationDecimals).error)
    ensures parseUnits(amount, sourceDecimals).Success? && parseUnits(minDestinationAmount, minDestinationDecimals).Success? ==>
      r == write(BridgeTransferRequest(recipient, sourceToken, destinationToken,
                   parseUnits(amount, sourceDecimals).value,
                   parseUnits(minDestinationAmount, minDestinationDecimals).value,
                   Deadline(nowMs)))
  {
    match parseUnits(amount, sourceDecimals)
    case Failure(e) => Failure(e)
    case Success(sourceAmount) =>
      match parseUnits(minDestinationAmount, minDestinationDecimals)
      case Failure(e) => Failure(e)
      case Success(minAmount) =>
        write(BridgeTransferRequest(recipient, sourceToken, destinationToken, sourceAmount, minAmount, Deadline(nowMs)))
  }
}
