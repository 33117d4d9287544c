/** The marketplace page: all active listings of every chain, the three-part filter of the
    side bar, buying and cancelling. */
module Marketplace {
  import opened Base
  import opened Js
  import opened Chains
  import opened Escrow
  import opened Filters
  import opened Scan
  import opened ExecuteSale
  import opened MyListings
  import opened Cancellation
  import opened NftCard

  /** One full pass of `fetchListedNfts`: None when any chain's scan threw. */
  function AllListings(cfg: Config, world: World): Option<seq<Listed>>
  {
    Collect(AllActive, cfg, world, KeyOrder)
  }

  /** Everything the marketplace shows was read, active, from the escrow of its origin chain,
      with an `ok` metadata reply, and carries that listing's fields. */
  lemma ListedIsActiveOnOrigin(cfg: Config, world: World, x: Listed)
    requires AllListings(cfg, world).Some? && x in AllListings(cfg, world).value
    ensures EscrowAddress(cfg, x.originChainId).Some? && x.originChainId in world.nodes
    ensures x.listingId < |world.nodes[x.originChainId].listings|
    ensures var l := world.nodes[x.originChainId].listings[x.listingId];
      && l.active
      && x.seller == l.seller && x.nftContract == l.nftContract && x.tokenId == l.tokenId && x.price == l.price
      && x.allowedChains == AllowedChainsOf(l.paymentChains)
      && MetadataOf(world, x.originChainId, l) == Some(MetaResponse(true, Some(Metadata(x.name, x.image))))
  {
    Provenance(AllActive, cfg, world, x);
  }

  /** Every active listing of a chain with an escrow whose metadata reply is `ok` is shown,
      with the listing id and chain it was read from. */
  lemma ActiveWithMetadataIsListed(cfg: Config, world: World, chain: int, i: nat, md: Metadata)
    requires AllListings(cfg, world).Some?
    requires EscrowAddress(cfg, chain).Some? && chain in world.nodes
    requires i < |world.nodes[chain].listings| && world.nodes[chain].listings[i].active
    requires MetadataOf(world, chain, world.nodes[chain].listings[i]) == Some(MetaResponse(true, Some(md)))
    ensures ToListed(i, world.nodes[chain].listings[i], md, chain) in AllListings(cfg, world).value
  {
    Completeness(AllActive, cfg, world, chain, i);
  }

  /** An active listing whose metadata reply is not `ok` is left out, and the pass goes on. */
  lemma NotOkMetadataSkipped(cfg: Config, world: World, chain: int, i: nat)
    requires AllListings(cfg, world).Some?
    requires chain in world.nodes && i < |world.nodes[chain].listings|
    requires var r := MetadataOf(world, chain, world.nodes[chain].listings[i]); r.Some? && !r.value.ok
    ensures forall x :: x in AllListings(cfg, world).value ==> !(x.originChainId == chain && x.listingId == i)
  {
    forall x | x in AllListings(cfg, world).value
      ensures !(x.originChainId == chain && x.listingId == i)
    {
      ListedIsActiveOnOrigin(cfg, world, x);
    }
  }

  /** Within the shown list, the listings of one chain come in ascending id order. */
  lemma ListedInIdOrder(cfg: Config, world: World)
    requires AllListings(cfg, world).Some?
    ensures var all := AllListings(cfg, world).value;
      forall k, k' :: 0 <= k < k' < |all| && all[k].originChainId == all[k'].originChainId ==>
        all[k].listingId < all[k'].listingId
  {
    CollectOrdered(AllActive, cfg, world, KeyOrder);
  }

  /** A pass fails as a whole exactly when some chain with an escrow is unreachable or its
      scan throws; a chain without an escrow never makes it fail. */
  lemma PassFailsIffSomeChainFails(cfg: Config, world: World)
    ensures AllListings(cfg, world).None? <==>
      exists c :: c in KeyOrder && EscrowAddress(cfg, c).Some? && ChainListings(AllActive, cfg, world, c).None?
  {
    CollectFails(AllActive, cfg, world, KeyOrder);
  }

  /** A chain without a configured escrow address is invisible: no shown listing comes from
      it, and a sale request naming it as origin is refused with 500 before any chain call. */
  lemma UnconfiguredChainIgnored(cfg: Config, world: World, chain: int, req: Request, sale: Option<string>)
    requires EscrowAddress(cfg, chain).None?
    ensures AllListings(cfg, world).Some? ==>
      forall x :: x in AllListings(cfg, world).value ==> x.originChainId != chain
    ensures req.httpMethod == "POST" && ParametersPresent(req) && IdArg(req.originChainId) == Some(chain) ==>
      Handle(req, cfg, world, sale) == Handled(Response(500, FailureBody(UnsupportedOriginChain)), [])
  {
    if AllListings(cfg, world).Some? {
      forall x | x in AllListings(cfg, world).value
        ensures x.originChainId != chain
      {
        ListedIsActiveOnOrigin(cfg, world, x);
      }
    }
  }

  /** The marketplace's filter predicate. */
  predicate Shown(nft: Listed, searchQuery: string, chainFilters: map<int, bool>, paymentChainFilters: map<int, bool>)
  {
    NameMatches(searchQuery, nft.name) && OriginMatches(chainFilters, nft.originChainId) &&
    PaymentMatches(paymentChainFilters, nft.allowedChains)
  }

  function ShownBy(searchQuery: string, chainFilters: map<int, bool>, paymentChainFilters: map<int, bool>): Listed -> bool
  {
    nft => Shown(nft, searchQuery, chainFilters, paymentChainFilters)
  }

  /** `filteredNfts`: the listings passing all three parts of the filter, in list order. */
  function FilteredNfts(listedNfts: seq<Listed>, searchQuery: string, chainFilters: map<int, bool>,
                        paymentChainFilters: map<int, bool>): (r: seq<Listed>)
    ensures |r| <= |listedNfts|
    ensures forall x :: x in r <==>
      && x in listedNfts
      && (searchQuery == "" || (x.name.Some? && Includes(ToLowerCase(x.name.value), ToLowerCase(searchQuery))))
      && (Checked(chainFilters) == {} || x.originChainId in Checked(chainFilters))
      && (Checked(paymentChainFilters) == {} ||
          exists c :: c in x.allowedChains && c in Checked(paymentChainFilters))
  {
    Filter(listedNfts, ShownBy(searchQuery, chainFilters, paymentChainFilters))
  }

  /** With no query and no box checked in either group, nothing is filtered out. */
  lemma NothingCheckedShowsAll(listedNfts: seq<Listed>, chainFilters: map<int, bool>, paymentChainFilters: map<int, bool>)
    requires forall c :: c in chainFilters ==> !chainFilters[c]
    requires forall c :: c in paymentChainFilters ==> !paymentChainFilters[c]
    ensures FilteredNfts(listedNfts, "", chainFilters, paymentChainFilters) == listedNfts
  {
    assert Checked(chainFilters) == {} by {
      forall c ensures c !in Checked(chainFilters) { }
    }
    assert Checked(paymentChainFilters) == {} by {
      forall c ensures c !in Checked(paymentChainFilters) { }
    }
    FilterKeepsAll(listedNfts, ShownBy("", chainFilters, paymentChainFilters));
  }

  /** With the initial filters (empty query, every box checked), a listing is shown exactly
      when it comes from a supported chain and accepts payment on at least one. */
  lemma InitialFiltersShow(x: Listed)
    requires forall c :: c in x.allowedChains ==> c in SupportedChains
    ensures Shown(x, "", AllChecked, AllChecked) <==> x.originChainId in SupportedChains && x.allowedChains != []
  {
    assert Checked(AllChecked) == {EthSepolia, BaseSepolia, ArbitrumSepolia};
    if x.allowedChains != [] {
      var c := x.allowedChains[0];
      assert c in x.allowedChains && c in SupportedChains;
      assert c in Checked(AllChecked);
      assert PaymentMatches(AllChecked, x.allowedChains);
    }
  }

  /** What the buy button does: open the connect dialog, or ask the wallet to pay the
      listing's price to its seller on the wallet's current chain. */
  datatype BuyStep = OpenConnectModal | SendPayment(to: string, value: nat)

  function BuyAction(isConnected: bool, listing: Listed): (r: BuyStep)
    ensures !isConnected <==> r == OpenConnectModal
    ensures isConnected ==> r.to == listing.seller && r.value == listing.price
  {
    if !isConnected then OpenConnectModal else SendPayment(listing.seller, listing.price)
  }

  /** The request `handleBuyNft` posts once the payment was sent; `JSON.stringify` drops
      absent fields, which the server then reads as undefined. */
  function SaleRequestFor(listing: Listed, address: Option<string>, walletChain: Option<int>, paymentTxHash: string): (req: Request)
    ensures req.httpMethod == "POST"
    ensures req.listingId == Num(listing.listingId) && req.originChainId == Num(listing.originChainId)
    ensures req.paymentTxHash == Str(paymentTxHash)
    ensures req.buyerAddress == (if address.Some? then Str(address.value) else Undefined)
    ensures req.paymentChainId == (if walletChain.Some? then Num(walletChain.value) else Undefined)
  {
    Request("POST", Num(listing.listingId),
            match address case Some(a) => Str(a) case None => Undefined,
            Str(paymentTxHash),
            match walletChain case Some(c) => Num(c) case None => Undefined,
            Num(listing.originChainId))
  }

  /** The payment a connected buyer's wallet sends for `listing`, as it was mined on the
      payment chain under `paymentTxHash`: successful, to the recipient and of the value the
      buy button asked for (the recipient compared without case). */
  predicate PaidAsAsked(world: World, listing: Listed, walletChain: nat, paymentTxHash: string)
  {
    && walletChain in world.nodes && Str(paymentTxHash) in world.nodes[walletChain].confirmed
    && var tx := world.nodes[walletChain].confirmed[Str(paymentTxHash)];
       var pay := BuyAction(true, listing);
       && tx.status == 1 && tx.to.Some? && SameAddress(tx.to.value, pay.to) && tx.value == pay.value
  }

  /** The purchase flow closes: if the marketplace showed `listing` from this snapshot of the
      chains and the payment the buy button asked for was mined successfully on an allowed
      chain, the request the page posts is approved, the sale is executed on the listing's
      origin chain, and the page is told the sale transaction. */
  lemma BoughtListingSettles(cfg: Config, world: World, listing: Listed, buyer: string,
                             walletChain: nat, paymentTxHash: string, saleHash: string)
    requires AllListings(cfg, world).Some? && listing in AllListings(cfg, world).value
    requires buyer != "" && paymentTxHash != "" && walletChain != 0
    requires walletChain in listing.allowedChains
    requires PaidAsAsked(world, listing, walletChain, paymentTxHash)
    ensures var req := SaleRequestFor(listing, Some(buyer), Some(walletChain), paymentTxHash);
      && SaleJustified(req, cfg, world)
      && Verify(req, cfg, world).verdict == Approved(listing.originChainId as nat, listing.listingId, Str(buyer))
      && Handle(req, cfg, world, Some(saleHash)).response == Response(200, SuccessBody(saleHash))
      && Last(Handle(req, cfg, world, Some(saleHash)).calls) ==
           ExecuteCrossChainSale(listing.originChainId, listing.listingId, Str(buyer))
  {
    ListedIsActiveOnOrigin(cfg, world, listing);
    IdArgOfSpelling(listing.listingId);
  }

  function Last(calls: seq<ChainCall>): ChainCall
    requires calls != []
  {
    calls[|calls| - 1]
  }

  /** The converse: a mined payment that is not the one the buy button asked for (another
      recipient, another amount, or no recipient) is refused with 500 and nothing executes. */
  lemma PaymentOtherThanAskedRefused(cfg: Config, world: World, listing: Listed, buyer: string,
                                     walletChain: nat, paymentTxHash: string, sale: Option<string>)
    requires AllListings(cfg, world).Some? && listing in AllListings(cfg, world).value
    requires buyer != "" && paymentTxHash != "" && walletChain != 0
    requires walletChain in listing.allowedChains
    requires walletChain in world.nodes && Str(paymentTxHash) in world.nodes[walletChain].confirmed
    requires world.nodes[walletChain].confirmed[Str(paymentTxHash)].status == 1
    requires !PaidAsAsked(world, listing, walletChain, paymentTxHash)
    ensures var req := SaleRequestFor(listing, Some(buyer), Some(walletChain), paymentTxHash);
      && Verify(req, cfg, world).verdict in {Rejected(RecipientMissing), Rejected(RecipientMismatch), Rejected(AmountMismatch)}
      && Handle(req, cfg, world, sale).response.status == 500
      && forall c :: c in Handle(req, cfg, world, sale).calls ==> !c.ExecuteCrossChainSale?
  {
    ListedIsActiveOnOrigin(cfg, world, listing);
    var req := SaleRequestFor(listing, Some(buyer), Some(walletChain), paymentTxHash);
    assert ReachesTransaction(req, cfg, world);
    PaymentRefusals(req, cfg, world);
  }

  /** Cancelling a shown listing from its origin network goes to that chain's configured
      escrow and names an active listing of the same seller; from any other network the
      wallet is only asked to switch to the origin. */
  lemma CancelTargetsShownListing(cfg: Config, world: World, x: Listed, walletChain: Option<int>)
    requires AllListings(cfg, world).Some? && x in AllListings(cfg, world).value
    ensures walletChain != Some(x.originChainId) ==> CancelAction(cfg, walletChain, x) == SwitchNetwork(x.originChainId)
    ensures walletChain == Some(x.originChainId) ==>
      && CancelAction(cfg, walletChain, x).SubmitCancel?
      && CancelAction(cfg, walletChain, x).escrow.Some?
      && CancelAction(cfg, walletChain, x).escrow == EscrowAddress(cfg, x.originChainId)
      && CancelAction(cfg, walletChain, x).listingId == x.listingId
      && x.originChainId in world.nodes && x.listingId < |world.nodes[x.originChainId].listings|
      && world.nodes[x.originChainId].listings[x.listingId].active
      && world.nodes[x.originChainId].listings[x.listingId].seller == x.seller
  {
    ListedIsActiveOnOrigin(cfg, world, x);
  }

  /** The card's `isOwner`: a connected (non-empty) address equal to the seller's, ignoring
      case. */
  predicate IsOwner(address: Option<string>, seller: string)
  {
    address.Some? && address.value != "" && SameAddress(seller, address.value)
  }

  /** Every listing the marketplace marks as the connected seller's (a cancel button rather
      than a buy button) is also on that seller's own listings page. */
  lemma OwnedListingOnSellerPage(cfg: Config, world: World, address: string, x: Listed)
    requires AllListings(cfg, world).Some? && x in AllListings(cfg, world).value
    requires SellerListings(address, cfg, world).Some?
    requires IsOwner(Some(address), x.seller)
    ensures x in SellerListings(address, cfg, world).value
  {
    Provenance(AllActive, cfg, world, x);
    var l := world.nodes[x.originChainId].listings[x.listingId];
    assert StepAt(SellerOnly(address), world, x.originChainId, x.listingId, l) == Keep(x);
    Completeness(SellerOnly(address), cfg, world, x.originChainId, x.listingId);
  }

  /** A card on the marketplace offers "Cancel Listing" only to a connected seller, and only
      for a listing that is on that seller's own listings page; everyone else gets "Buy Now". */
  lemma CancelButtonOnlyOnOwnListing(cfg: Config, world: World, address: Option<string>, x: Listed)
    requires AllListings(cfg, world).Some? && x in AllListings(cfg, world).value
    requires address.Some? ==> SellerListings(address.value, cfg, world).Some?
    ensures address.None? ==> CardAction(IsOwner(address, x.seller)) == BuyNow
    ensures CardAction(IsOwner(address, x.seller)) == CancelListing ==>
      address.Some? && SameAddress(x.seller, address.value) && x in SellerListings(address.value, cfg, world).value
  {
    if IsOwner(address, x.seller) {
      OwnedListingOnSellerPage(cfg, world, address.value, x);
    }
  }

  /** The marketplace page's state: the listings of the last successful pass and the filters. */
  class HomePage {
    var listedNfts: seq<Listed>
    var searchQuery: string
    var chainFilters: map<int, bool>
    var paymentChainFilters: map<int, bool>

    constructor ()
      ensures listedNfts == [] && searchQuery == ""
      ensures chainFilters == AllChecked && paymentChainFilters == AllChecked
    {
      listedNfts, searchQuery := [], "";
      chainFilters, paymentChainFilters := AllChecked, AllChecked;
    }

    /** `fetchListedNfts`: replace the listings by a full pass, or keep them if it threw. */
    method FetchListedNfts(cfg: Config, world: World)
      modifies this`listedNfts
      ensures listedNfts == (if AllListings(cfg, world).Some? then AllListings(cfg, world).value else old(listedNfts))
    {
      var results := FetchAll(AllActive, cfg, world);
      if results.Some? {
        listedNfts := results.value;
      }
    }

    method HandleSearchChange(query: string)
      modifies this`searchQuery
      ensures searchQuery == query
    {
      searchQuery := query;
    }

    /** `handleChainFilterChange`: set one origin-chain box. */
    method HandleChainFilterChange(chainId: int, isChecked: bool)
      modifies this`chainFilters
      ensures chainFilters == old(chainFilters)[chainId := isChecked]
    {
      chainFilters := chainFilters[chainId := isChecked];
    }

    /** `handlePaymentChainFilterChange`: set one payment-chain box. */
    method HandlePaymentChainFilterChange(chainId: int, isChecked: bool)
      modifies this`paymentChainFilters
      ensures paymentChainFilters == old(paymentChainFilters)[chainId := isChecked]
    {
      paymentChainFilters := paymentChainFilters[chainId := isChecked];
    }
  }
}
