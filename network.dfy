/** The network label shown by `updateNetworkInfo`: a fixed name for three known
    chain ids and a generic label carrying the id for every other chain. */
module Network {
  import opened JsValues
  import opened Decimal

  const MainnetId: nat := 1
  const SepoliaId: nat := 11155111
  const GoerliId: nat := 5

  const MainnetLabel := "Ethereum Mainnet"
  const SepoliaLabel := "Sepolia Testnet"
  const GoerliLabel := "Goerli Testnet"

  /** What the label of a chain without a fixed name starts with. */
  const UnknownPrefix := "未知网络 (Chain ID: "

  /** The text written to the network display before the label. */
  const InfoPrefix := "🌐 当前网络: "

  predicate IsKnownChain(chainId: nat) {
    chainId == MainnetId || chainId == SepoliaId || chainId == GoerliId
  }

  predicate StartsWith(s: string, prefix: string) {
    |prefix| <= |s| && s[..|prefix|] == prefix
  }

  /** The `switch (network.chainId)` of `updateNetworkInfo`. A label carries the unknown
      prefix exactly when the chain has no fixed name; it then holds the id's canonical
      decimal digits (no leading zero, never empty) before the closing parenthesis, and
      the id can be read back from them. */
  function NetworkLabel(chainId: nat): (name: string)
    ensures chainId == MainnetId ==> name == MainnetLabel
    ensures chainId == SepoliaId ==> name == SepoliaLabel
    ensures chainId == GoerliId ==> name == GoerliLabel
    ensures IsKnownChain(chainId) <==> !StartsWith(name, UnknownPrefix)
    ensures !IsKnownChain(chainId) ==> name == UnknownPrefix + NatToString(chainId) + ")"
    ensures !IsKnownChain(chainId) ==>
              |UnknownPrefix| < |name| && name[|name| - 1] == ')' &&
              IsDigits(name[|UnknownPrefix|..|name| - 1]) &&
              DigitsValue(name[|UnknownPrefix|..|name| - 1]) == chainId
  {
    if IsKnownChain(chainId) then
      var name := if chainId == MainnetId then MainnetLabel
                  else if chainId == SepoliaId then SepoliaLabel
                  else GoerliLabel;
      assert name[0] != UnknownPrefix[0];
      name
    else
      var digits := NatToString(chainId);
      var name := UnknownPrefix + digits + ")";
      assert name[..|UnknownPrefix|] == UnknownPrefix;
      assert name[|UnknownPrefix|..|name| - 1] == digits;
      NatToStringRoundTrip(chainId);
      name
  }

  /** Two chains never share a label: the display always identifies the chain. */
  lemma NetworkLabelInjective(a: nat, b: nat)
    ensures NetworkLabel(a) == NetworkLabel(b) ==> a == b
  {
  }

  /** `updateNetworkInfo`: `None` when it writes nothing (no provider, or the network
      query threw and the error was only logged); otherwise the new display text. */
  function NetworkInfoText(hasProvider: bool, network: Call<nat>): (text: Option<string>)
    ensures text.Some? <==> hasProvider && network.Ok?
    ensures text.Some? ==> text.value == InfoPrefix + NetworkLabel(network.value)
  {
    if !hasProvider then None
    else match network
      case Err(_) => None
      case Ok(chainId) => Some(InfoPrefix + NetworkLabel(chainId))
  }

  /** The display text identifies the chain the provider reported. */
  lemma NetworkInfoIdentifiesChain(a: nat, b: nat)
    ensures NetworkInfoText(true, Ok(a)) == NetworkInfoText(true, Ok(b)) ==> a == b
  {
    if NetworkInfoText(true, Ok(a)) == NetworkInfoText(true, Ok(b)) {
      var la, lb := NetworkLabel(a), NetworkLabel(b);
      assert (InfoPrefix + la)[|InfoPrefix|..] == la;
      assert (InfoPrefix + lb)[|InfoPrefix|..] == lb;
      NetworkLabelInjective(a, b);
    }
  }

}
