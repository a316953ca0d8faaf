/** The two formatting helpers of the navigation bar (`Navbar`). */
module Navbar {
  import opened JsString

  /** `s.slice(0, n)` for `n >= 0`: the first `n` characters, or all of a shorter string. */
  function SliceHead(s: string, n: nat): (r: string)
    ensures |r| == if |s| < n then |s| else n
    ensures r == s[..|r|]
  {
    if |s| < n then s else s[..n]
  }

  /** `s.slice(-n)` for `n > 0`: the last `n` characters, or all of a shorter string. */
  function SliceTail(s: string, n: nat): (r: string)
    ensures |r| == if |s| < n then |s| else n
    ensures r == s[|s| - |r|..]
  {
    if |s| < n then s else s[|s| - n..]
  }

  /** `formatAddress(a)`: the first six characters, an ellipsis, the last four. */
  function FormatAddress(address: string): (r: string)
    ensures r == SliceHead(address, 6) + "..." + SliceTail(address, 4)
  {
    address[..if |address| < 6 then |address| else 6] + "..." + address[if |address| < 4 then 0 else |address| - 4..]
  }

  /** An address of ten characters or more is shortened to 13 characters that keep its head and its tail. */
  lemma FormatAddressShape(address: string)
    requires |address| >= 10
    ensures var r := FormatAddress(address);
            |r| == 13 && r[..6] == address[..6] && r[6..9] == "..." && r[9..] == address[|address| - 4..]
  {
  }

  /** A 20-byte hexadecimal address (42 characters) keeps its `0x`, four digits and the last four digits. */
  lemma FormatAddressOfAccount(address: string)
    requires |address| == 42 && address[..2] == "0x"
    ensures StartsWith(FormatAddress(address), "0x") && |FormatAddress(address)| == 13
  {
    FormatAddressShape(address);
    assert FormatAddress(address)[..2] == address[..6][..2];
  }

  const Mainnet: int := 1
  const Sepolia: int := 11155111
  const Hardhat: int := 31337

  /** `getNetworkName(chainId)`: the three known chains by name, any other as `Chain <id>`. */
  function GetNetworkName(chainId: int): (r: string)
    ensures chainId == Mainnet ==> r == "Ethereum"
    ensures chainId == Sepolia ==> r == "Sepolia"
    ensures chainId == Hardhat ==> r == "Hardhat"
    ensures chainId !in {Mainnet, Sepolia, Hardhat} ==> StartsWith(r, "Chain ") && r[6..] == IntToDecimal(chainId)
  {
    if chainId == Mainnet then "Ethereum"
    else if chainId == Sepolia then "Sepolia"
    else if chainId == Hardhat then "Hardhat"
    else "Chain " + IntToDecimal(chainId)
  }

  /** The labels start with 'E', 'S', 'H', and 'C' for the generic one. */
  lemma LabelInitial(c: int)
    ensures GetNetworkName(c)[0] == if c == Mainnet then 'E' else if c == Sepolia then 'S'
                                    else if c == Hardhat then 'H' else 'C'
  {
  }

  /** Different chains get different names: the label identifies the chain. */
  lemma NetworkNameInjective(a: int, b: int)
    requires GetNetworkName(a) == GetNetworkName(b)
    ensures a == b
  {
    LabelInitial(a);
    LabelInitial(b);
    if a !in {Mainnet, Sepolia, Hardhat} && b !in {Mainnet, Sepolia, Hardhat} {
      GenericNameSuffix(a, b);
      IntToDecimalInjective(a, b);
    }
  }

  lemma GenericNameSuffix(a: int, b: int)
    requires a !in {Mainnet, Sepolia, Hardhat} && b !in {Mainnet, Sepolia, Hardhat}
    requires GetNetworkName(a) == GetNetworkName(b)
    ensures IntToDecimal(a) == IntToDecimal(b)
  {
  }
}
