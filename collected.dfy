/** The collector's page: the NFTs the connected address owns on every chain, tagged with the
    chain they were found on, and listing one of them for sale. */
module Collected {
  import opened Base
  import opened Js
  import opened Chains
  import opened Escrow
  import opened Filters

  /** An owned NFT as the page keeps it: the indexer's record plus its chain. */
  datatype UserNft = UserNft(nft: OwnedNft, originChainId: int)

  /** The indexer's answer for `owner` on `chain`; no indexer or no answer means `fetch` threw. */
  function OwnedReplyAt(world: World, chain: int, owner: string): OwnedReply
  {
    if chain in world.indexers && owner in world.indexers[chain].owned
    then world.indexers[chain].owned[owner] else OwnedFailed
  }

  /** One chain's contribution: its owned NFTs tagged with the chain, or nothing when the
      request failed or the reply has no `ownedNfts`. */
  function TagChain(world: World, chain: int, owner: string): (r: seq<UserNft>)
    ensures |r| == (if OwnedReplyAt(world, chain, owner).Owned? then |OwnedReplyAt(world, chain, owner).nfts| else 0)
    ensures forall k :: 0 <= k < |r| ==>
      r[k] == UserNft(OwnedReplyAt(world, chain, owner).nfts[k], chain)
  {
    match OwnedReplyAt(world, chain, owner)
    case Owned(nfts) => seq(|nfts|, k requires 0 <= k < |nfts| => UserNft(nfts[k], chain))
    case _ => []
  }

  /** The flattened results of `fetchAllUserNfts`, in the order of `chains`. */
  function TagAll(world: World, owner: string, chains: seq<int>): seq<UserNft>
  {
    if chains == [] then [] else TagChain(world, chains[0], owner) + TagAll(world, owner, chains[1..])
  }

  /** An NFT is on the page exactly when the indexer of one of the chains reported it for
      the owner, and it carries that chain; a chain whose request failed only loses its own. */
  lemma {:induction false} TagAllMembers(world: World, owner: string, chains: seq<int>, u: UserNft)
    ensures u in TagAll(world, owner, chains) <==>
      && u.originChainId in chains
      && OwnedReplyAt(world, u.originChainId, owner).Owned?
      && u.nft in OwnedReplyAt(world, u.originChainId, owner).nfts
    decreases |chains|
  {
    if chains != [] {
      TagAllMembers(world, owner, chains[1..], u);
      var c := chains[0];
      var head := TagChain(world, c, owner);
      assert u in TagAll(world, owner, chains) <==> u in head || u in TagAll(world, owner, chains[1..]);
      assert chains == [c] + chains[1..];
      if u.originChainId == c && OwnedReplyAt(world, c, owner).Owned? && u.nft in OwnedReplyAt(world, c, owner).nfts {
        var k :| 0 <= k < |OwnedReplyAt(world, c, owner).nfts| && OwnedReplyAt(world, c, owner).nfts[k] == u.nft;
        assert head[k] == u;
      }
    }
  }

  /** The number of NFTs on the page is the sum of what each chain reported. */
  lemma {:induction false} TagAllLength(world: World, owner: string, chains: seq<int>)
    ensures |TagAll(world, owner, chains)| == ReportedCount(world, owner, chains)
    decreases |chains|
  {
    if chains != [] {
      TagAllLength(world, owner, chains[1..]);
    }
  }

  function ReportedCount(world: World, owner: string, chains: seq<int>): nat
  {
    if chains == [] then 0
    else (match OwnedReplyAt(world, chains[0], owner) case Owned(nfts) => |nfts| case _ => 0) +
         ReportedCount(world, owner, chains[1..])
  }

  predicate OwnedShown(u: UserNft, searchQuery: string, chainFilters: map<int, bool>)
  {
    NameMatches(searchQuery, u.nft.name) && OriginMatches(chainFilters, u.originChainId)
  }

  function OwnedShownBy(searchQuery: string, chainFilters: map<int, bool>): UserNft -> bool
  {
    u => OwnedShown(u, searchQuery, chainFilters)
  }

  /** The page's `filteredNfts`: name and origin chain. */
  function FilteredOwned(allUserNfts: seq<UserNft>, searchQuery: string, chainFilters: map<int, bool>): (r: seq<UserNft>)
    ensures |r| <= |allUserNfts|
    ensures forall u :: u in r <==>
      && u in allUserNfts
      && (searchQuery == "" || (u.nft.name.Some? && Includes(ToLowerCase(u.nft.name.value), ToLowerCase(searchQuery))))
      && (Checked(chainFilters) == {} || u.originChainId in Checked(chainFilters))
  {
    Filter(allUserNfts, OwnedShownBy(searchQuery, chainFilters))
  }

  /** With the initial filters, everything fetched from the known chains is shown. */
  lemma InitialFiltersShowOwned(world: World, owner: string)
    ensures FilteredOwned(TagAll(world, owner, KeyOrder), "", AllChecked) == TagAll(world, owner, KeyOrder)
  {
    assert Checked(AllChecked) == {EthSepolia, BaseSepolia, ArbitrumSepolia};
    forall u | u in TagAll(world, owner, KeyOrder)
      ensures OwnedShownBy("", AllChecked)(u)
    {
      TagAllMembers(world, owner, KeyOrder, u);
    }
    FilterKeepsAll(TagAll(world, owner, KeyOrder), OwnedShownBy("", AllChecked));
  }

  /** The wallet requests `handleListNft` makes, in order. The two contract writes go to the
      network the wallet is on (`network`), whatever the NFT's chain. */
  datatype WalletOp =
    | SetApprovalForAll(network: int, nftContract: string, operator: string, approved: bool)
    | AwaitReceipt(txHash: string)
    | ListNft(network: int, escrow: string, nftContract: string, tokenId: string, priceWei: nat, paymentChainIds: seq<int>)

  /** How the wallet answers: the approval's transaction hash (None: the user rejected it or
      it failed), whether the approval was mined, whether the listing was accepted. */
  datatype WalletReplies = WalletReplies(approveHash: Option<string>, approvalMined: bool, listAccepted: bool)

  /** How the handler ends: no escrow on the NFT's chain (an alert), the price did not
      convert to wei (outside the `try`, so the error escapes), a wallet step failed (an error
      status), or the NFT is listed (a redirect to the seller's listings). */
  datatype ListOutcome = NotSupported | PriceUnconvertible | ListingError | ListedOk

  datatype ListRun = ListRun(ops: seq<WalletOp>, outcome: ListOutcome)

  /** The run of `handleListNft` from a wallet on `walletChain`. `priceWei` is
      `parseEther(price)`, None when it throws. */
  function ListNftRun(cfg: Config, walletChain: int, nft: UserNft, priceWei: Option<nat>, paymentChainIds: seq<int>,
                      replies: WalletReplies): (r: ListRun)
    ensures EscrowAddress(cfg, nft.originChainId).None? ==> r == ListRun([], NotSupported)
    ensures EscrowAddress(cfg, nft.originChainId).Some? && priceWei.None? ==> r == ListRun([], PriceUnconvertible)
    ensures r.outcome == ListedOk <==>
      EscrowAddress(cfg, nft.originChainId).Some? && priceWei.Some? &&
      replies.approveHash.Some? && replies.approvalMined && replies.listAccepted
    ensures r.ops != [] ==>
      && EscrowAddress(cfg, nft.originChainId).Some?
      && r.ops[0] == SetApprovalForAll(walletChain, nft.nft.contract, EscrowAddress(cfg, nft.originChainId).value, true)
    ensures forall k :: 0 <= k < |r.ops| && r.ops[k].ListNft? ==>
      && replies.approveHash.Some? && replies.approvalMined && priceWei.Some?
      && EscrowAddress(cfg, nft.originChainId).Some?
      && k == 2
      && r.ops[..2] == [SetApprovalForAll(walletChain, nft.nft.contract, r.ops[k].escrow, true), AwaitReceipt(replies.approveHash.value)]
      && r.ops[k] == ListNft(walletChain, EscrowAddress(cfg, nft.originChainId).value, nft.nft.contract, nft.nft.tokenId,
                             priceWei.value, paymentChainIds)
  {
    match EscrowAddress(cfg, nft.originChainId)
    case None => ListRun([], NotSupported)
    case Some(escrow) =>
      match priceWei
      case None => ListRun([], PriceUnconvertible)
      case Some(wei) =>
        var approve := SetApprovalForAll(walletChain, nft.nft.contract, escrow, true);
        match replies.approveHash
        case None => ListRun([approve], ListingError)
        case Some(hash) =>
          var waited := [approve, AwaitReceipt(hash)];
          if !replies.approvalMined then ListRun(waited, ListingError)
          else
            var ops := waited + [ListNft(walletChain, escrow, nft.nft.contract, nft.nft.tokenId, wei, paymentChainIds)];
            ListRun(ops, if replies.listAccepted then ListedOk else ListingError)
  }

  /** Unlike cancelling, listing does not check the wallet's network: the outcome is the same
      from every network, and only the network of the two writes follows the wallet. */
  lemma ListingIgnoresWalletNetwork(cfg: Config, nft: UserNft, priceWei: Option<nat>, paymentChainIds: seq<int>,
                                    replies: WalletReplies, w: int, w': int)
    ensures var r, r' := ListNftRun(cfg, w, nft, priceWei, paymentChainIds, replies),
                         ListNftRun(cfg, w', nft, priceWei, paymentChainIds, replies);
      && r.outcome == r'.outcome && |r.ops| == |r'.ops|
      && forall k :: 0 <= k < |r.ops| && !r.ops[k].AwaitReceipt? ==> r.ops[k].(network := w') == r'.ops[k]
  {
  }

  class CollectedPage {
    var allUserNfts: seq<UserNft>
    var searchQuery: string
    var chainFilters: map<int, bool>
    var isModalOpen: bool
    var selectedNft: Option<UserNft>

    constructor ()
      ensures allUserNfts == [] && searchQuery == "" && chainFilters == AllChecked
      ensures !isModalOpen && selectedNft == None
    {
      allUserNfts, searchQuery, chainFilters := [], "", AllChecked;
      isModalOpen, selectedNft := false, None;
    }

    /** `fetchAllUserNfts`: nothing happens without a (non-empty) address; otherwise the NFTs
        of every chain replace the list, a failing chain contributing none. */
    method FetchAllUserNfts(address: Option<string>, world: World)
      modifies this`allUserNfts
      ensures (address.None? || address.value == "") ==> allUserNfts == old(allUserNfts)
      ensures address.Some? && address.value != "" ==> allUserNfts == TagAll(world, address.value, KeyOrder)
    {
      if address.None? || address.value == "" {
        return;
      }
      allUserNfts := TagAll(world, address.value, KeyOrder);
    }

    method HandleSearchChange(query: string)
      modifies this`searchQuery
      ensures searchQuery == query
    {
      searchQuery := query;
    }

    method HandleChainFilterChange(chainId: int, isChecked: bool)
      modifies this`chainFilters
      ensures chainFilters == old(chainFilters)[chainId := isChecked]
    {
      chainFilters := chainFilters[chainId := isChecked];
    }

    method HandleOpenModal(nft: UserNft)
      modifies this`isModalOpen, this`selectedNft
      ensures isModalOpen && selectedNft == Some(nft)
    {
      selectedNft, isModalOpen := Some(nft), true;
    }

    method HandleCloseModal()
      modifies this`isModalOpen, this`selectedNft
      ensures !isModalOpen && selectedNft == None
    {
      isModalOpen, selectedNft := false, None;
    }

    /** `handleListNft` closes the dialog once it gets past the escrow and price steps. */
    method HandleListNft(cfg: Config, walletChain: int, nft: UserNft, priceWei: Option<nat>, paymentChainIds: seq<int>,
                         replies: WalletReplies) returns (run: ListRun)
      modifies this`isModalOpen
      ensures run == ListNftRun(cfg, walletChain, nft, priceWei, paymentChainIds, replies)
      ensures isModalOpen == (old(isModalOpen) && run.outcome in {NotSupported, PriceUnconvertible})
    {
      run := ListNftRun(cfg, walletChain, nft, priceWei, paymentChainIds, replies);
      if run.outcome !in {NotSupported, PriceUnconvertible} {
        isModalOpen := false;
      }
    }
  }
}
