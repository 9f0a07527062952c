/** The static registry of tokens the bridge contract calls can use, keyed by symbol. */
module SupportedTokens {

  datatype TokenInfo = TokenInfo(address: string, decimals: nat)

  /** The registry's entries in declaration order, as `Object.entries` lists them. */
  const SupportedTokenEntries: seq<(string, TokenInfo)> := [
    ("WETH", TokenInfo(WethAddress, 18)),
    ("USDC", TokenInfo(UsdcAddress, 6))
  ]

  const WethAddress: string := "fFf9976782d46CC05630D1f6eBAb18b2324d6B14"
  const UsdcAddress: string := "1c7D4B196Cb0C7B01d743Fbc6116a902379C7238"

  predicate IsHexDigit(c: char) {
    ('0' <= c <= '9') || ('a' <= c <= 'f') || ('A' <= c <= 'F')
  }

  /** A bare address: forty hex digits, with no `0x` in front. */
  predicate IsBareAddress(s: string) {
    |s| == 40 && forall c | c in s :: IsHexDigit(c)
  }

  /** The registry lists `WETH` with 18 decimals and `USDC` with 6, every entry holds a bare
      address, and no symbol is listed twice. */
  lemma RegistryWellFormed()
    ensures |SupportedTokenEntries| == 2
    ensures SupportedTokenEntries[0].0 == "WETH" && SupportedTokenEntries[0].1.decimals == 18
    ensures SupportedTokenEntries[1].0 == "USDC" && SupportedTokenEntries[1].1.decimals == 6
    ensures forall k | 0 <= k < |SupportedTokenEntries| :: IsBareAddress(SupportedTokenEntries[k].1.address)
    ensures forall j, k | 0 <= j < k < |SupportedTokenEntries| :: SupportedTokenEntries[j].0 != SupportedTokenEntries[k].0
  {
    WethAddressBare();
    UsdcAddressBare();
  }

  lemma WethAddressBare()
    ensures IsBareAddress(WethAddress)
  {
  }

  lemma UsdcAddressBare()
    ensures IsBareAddress(UsdcAddress)
  {
  }

  /** A bare address never starts with `0x`, so the prefix must be added where an address is used. */
  lemma BareAddressHasNoPrefix(s: string)
    requires IsBareAddress(s)
    ensures s[..2] != "0x"
  {
    assert s[1] in s;
  }
}
