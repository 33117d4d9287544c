/** The seller's "my listings" page: the connected address's active listings of every chain,
    filtered by name and origin chain. */
module MyListings {
  import opened Base
  import opened Js
  import opened Chains
  import opened Escrow
  import opened Filters
  import opened Scan
  import opened Cancellation

  /** One full pass of `fetchMyListedNfts` for `address`. */
  function SellerListings(address: string, cfg: Config, world: World): Option<seq<Listed>>
  {
    Collect(SellerOnly(address), cfg, world, KeyOrder)
  }

  /** Everything on the page is an active listing of the connected address (compared without
      case), read from the escrow of its origin chain. */
  lemma MyListingIsMine(address: string, cfg: Config, world: World, x: Listed)
    requires SellerListings(address, cfg, world).Some? && x in SellerListings(address, cfg, world).value
    ensures EscrowAddress(cfg, x.originChainId).Some? && x.originChainId in world.nodes
    ensures x.listingId < |world.nodes[x.originChainId].listings|
    ensures var l := world.nodes[x.originChainId].listings[x.listingId];
      && l.active && SameAddress(l.seller, address)
      && x.seller == l.seller && x.nftContract == l.nftContract && x.tokenId == l.tokenId && x.price == l.price
      && x.allowedChains == AllowedChainsOf(l.paymentChains)
      && MetadataOf(world, x.originChainId, l).Some?
      && MetadataOf(world, x.originChainId, l).value.body == Some(Metadata(x.name, x.image))
  {
    Provenance(SellerOnly(address), cfg, world, x);
  }

  /** The page's cancel button: from any network but the listing's origin the wallet is only
      asked to switch there; from the origin, `cancelListing` goes to that chain's configured
      escrow and names an active listing of the connected address. */
  lemma CancelTargetsMyListing(address: string, cfg: Config, world: World, x: Listed, walletChain: Option<int>)
    requires SellerListings(address, cfg, world).Some? && x in SellerListings(address, cfg, world).value
    ensures walletChain != Some(x.originChainId) ==> CancelAction(cfg, walletChain, x) == SwitchNetwork(x.originChainId)
    ensures walletChain == Some(x.originChainId) ==>
      && CancelAction(cfg, walletChain, x).SubmitCancel?
      && CancelAction(cfg, walletChain, x).escrow.Some?
      && CancelAction(cfg, walletChain, x).escrow == EscrowAddress(cfg, x.originChainId)
      && CancelAction(cfg, walletChain, x).listingId == x.listingId
      && x.originChainId in world.nodes && x.listingId < |world.nodes[x.originChainId].listings|
      && world.nodes[x.originChainId].listings[x.listingId].active
      && SameAddress(world.nodes[x.originChainId].listings[x.listingId].seller, address)
  {
    MyListingIsMine(address, cfg, world, x);
  }

  /** Each active listing of the address is on the page once its metadata body could be read,
      whatever the `ok` flag of the reply: this page does not test it. */
  lemma MineWithMetadataIsListed(address: string, cfg: Config, world: World, chain: int, i: nat, ok: bool, md: Metadata)
    requires SellerListings(address, cfg, world).Some?
    requires EscrowAddress(cfg, chain).Some? && chain in world.nodes
    requires i < |world.nodes[chain].listings|
    requires var l := world.nodes[chain].listings[i]; l.active && SameAddress(l.seller, address)
    requires MetadataOf(world, chain, world.nodes[chain].listings[i]) == Some(MetaResponse(ok, Some(md)))
    ensures ToListed(i, world.nodes[chain].listings[i], md, chain) in SellerListings(address, cfg, world).value
  {
    Completeness(SellerOnly(address), cfg, world, chain, i);
  }

  /** The page's filter predicate: name and origin chain, no payment-chain part. */
  predicate MineShown(nft: Listed, searchQuery: string, chainFilters: map<int, bool>)
  {
    NameMatches(searchQuery, nft.name) && OriginMatches(chainFilters, nft.originChainId)
  }

  function MineShownBy(searchQuery: string, chainFilters: map<int, bool>): Listed -> bool
  {
    nft => MineShown(nft, searchQuery, chainFilters)
  }

  function FilteredMine(myListedNfts: seq<Listed>, searchQuery: string, chainFilters: map<int, bool>): (r: seq<Listed>)
    ensures |r| <= |myListedNfts|
    ensures forall x :: x in r <==>
      && x in myListedNfts
      && (searchQuery == "" || (x.name.Some? && Includes(ToLowerCase(x.name.value), ToLowerCase(searchQuery))))
      && (Checked(chainFilters) == {} || x.originChainId in Checked(chainFilters))
  {
    Filter(myListedNfts, MineShownBy(searchQuery, chainFilters))
  }

  /** With the initial filters, every listing of a supported origin chain is shown. */
  lemma InitialFiltersShowMine(myListedNfts: seq<Listed>)
    requires forall x :: x in myListedNfts ==> x.originChainId in SupportedChains
    ensures FilteredMine(myListedNfts, "", AllChecked) == myListedNfts
  {
    assert Checked(AllChecked) == {EthSepolia, BaseSepolia, ArbitrumSepolia};
    FilterKeepsAll(myListedNfts, MineShownBy("", AllChecked));
  }

  class MyListingsPage {
    var myListedNfts: seq<Listed>
    var searchQuery: string
    var chainFilters: map<int, bool>

    constructor ()
      ensures myListedNfts == [] && searchQuery == "" && chainFilters == AllChecked
    {
      myListedNfts, searchQuery, chainFilters := [], "", AllChecked;
    }

    /** `fetchMyListedNfts`: nothing happens without a (non-empty) address; otherwise the
        listings are replaced by a full pass, or kept if it threw. */
    method FetchMyListedNfts(address: Option<string>, cfg: Config, world: World)
      modifies this`myListedNfts
      ensures (address.None? || address.value == "") ==> myListedNfts == old(myListedNfts)
      ensures address.Some? && address.value != "" ==>
        myListedNfts == (if SellerListings(address.value, cfg, world).Some? then SellerListings(address.value, cfg, world).value
                         else old(myListedNfts))
    {
      if address.None? || address.value == "" {
        return;
      }
      var results := FetchAll(SellerOnly(address.value), cfg, world);
      if results.Some? {
        myListedNfts := results.value;
      }
    }

    method HandleSearchChange(query: string)
      modifies this`searchQuery
      ensures searchQuery == query
    {
      searchQuery := query;
    }

    method HandleChainFilterChange(chainId: int, isChecked: bool)
      modifies this`chainFilters
      ensures chainFilters == old(chainFilters)[chainId := isChecked]
    {
      chainFilters := chainFilters[chainId := isChecked];
    }
  }
}
