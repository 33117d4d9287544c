/** The listing card: its title, its action button and its row of payment-chain icons. */
module NftCard {
  import opened Base
  import opened Js
  import opened Chains

  const MaxIcons: nat := 3

  /** `chainsToShow`: the first three allowed chains (none when the list is absent). */
  function ChainsToShow(allowedChains: Option<seq<int>>): (r: seq<int>)
    ensures |r| <= MaxIcons
    ensures allowedChains.None? ==> r == []
    ensures allowedChains.Some? ==> r <= allowedChains.value
    ensures allowedChains.Some? && |allowedChains.value| <= MaxIcons ==> r == allowedChains.value
    ensures allowedChains.Some? ==>
      |r| == if |allowedChains.value| < MaxIcons then |allowedChains.value| else MaxIcons
  {
    match allowedChains
    case None => []
    case Some(s) => if |s| <= MaxIcons then s else s[..MaxIcons]
  }

  /** `remainingChains`: how many allowed chains the "+n" badge stands for. */
  function RemainingChains(allowedChains: Option<seq<int>>): (r: nat)
    ensures allowedChains.Some? ==> |ChainsToShow(allowedChains)| + r == |allowedChains.value|
    ensures allowedChains.None? ==> r == 0
    ensures allowedChains.Some? && |allowedChains.value| > MaxIcons ==> r == |allowedChains.value| - MaxIcons
  {
    match allowedChains
    case None => 0
    case Some(s) => if |s| > MaxIcons then |s| - MaxIcons else 0
  }

  /** The badge appears only when some allowed chain has no icon shown. */
  lemma BadgeOnlyWhenTruncated(allowedChains: Option<seq<int>>)
    ensures RemainingChains(allowedChains) > 0 <==>
      allowedChains.Some? && ChainsToShow(allowedChains) != allowedChains.value
  {
    if allowedChains.Some? && ChainsToShow(allowedChains) != allowedChains.value {
      assert |allowedChains.value| > MaxIcons;
    }
  }

  datatype Icon = EthIcon | BaseIcon | ArbIcon

  /** `ChainIcon`: an icon for each supported chain, nothing for any other id. */
  function ChainIcon(chainId: int): (r: Option<Icon>)
    ensures r.Some? <==> chainId in SupportedChains
  {
    if chainId == EthSepolia then Some(EthIcon)
    else if chainId == BaseSepolia then Some(BaseIcon)
    else if chainId == ArbitrumSepolia then Some(ArbIcon)
    else None
  }

  /** Different chains get different icons. */
  lemma IconsDistinct(c: int, c': int)
    requires ChainIcon(c).Some? && ChainIcon(c) == ChainIcon(c')
    ensures c == c'
  {
  }

  /** The title: the name when it is a non-empty string, otherwise `#` and the token id. */
  function Title(name: Option<string>, tokenId: nat): (r: string)
    ensures name.Some? && name.value != "" ==> r == name.value
    ensures (name.None? || name.value == "") ==>
      |r| > 1 && r[0] == '#' && ParseDecimal(r[1..]) == Some(tokenId)
  {
    if name.Some? && name.value != "" then name.value
    else
      ParseOfDecimal(tokenId);
      assert ("#" + ToDecimal(tokenId))[1..] == ToDecimal(tokenId);
      "#" + ToDecimal(tokenId)
  }

  /** The hover button: cancelling for the owner, buying for anyone else. */
  datatype CardButton = CancelListing | BuyNow

  function CardAction(isOwner: bool): (r: CardButton)
    ensures r == CancelListing <==> isOwner
  {
    if isOwner then CancelListing else BuyNow
  }
}
