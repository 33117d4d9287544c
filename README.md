# Anomarket in Dafny

Anomarket is a cross-chain NFT marketplace. A seller lists an NFT in the escrow contract of
the chain where the NFT lives (the *origin* chain). The listing names a price and the chains
on which payment is accepted. A buyer pays the seller directly on any of those chains, then
asks the settlement endpoint `/api/execute-sale` to finish the sale. The endpoint reads the
listing on the origin chain and checks that the payment chain is allowed. It then waits for
the payment transaction on the payment chain and checks its recipient and its amount. Only
after all that does it ask the origin escrow to execute the sale. The three supported chains
are Ethereum Sepolia (11155111), Base Sepolia (84532) and Arbitrum Sepolia (421614).

This project models:

- the settlement endpoint: its guard chain, its error statuses, and the order of its chain
  calls;
- the marketplace page: the scan of every chain's escrow, the three-part filter, buying and
  cancelling;
- the seller's listings page;
- the collector's page: owned NFTs, and listing one for sale;
- the listing dialog;
- the listing card.

Modules:

| module         | file                  | models                                                   |
|----------------|-----------------------|----------------------------------------------------------|
| `Base`         | `base.dfy`            | `Option`, and `Filter` as `Array.prototype.filter`           |
| `Js`           | `js.dfy`              | JSON values and truthiness, ASCII `toLowerCase`, `includes`, decimal spelling and parsing |
| `Chains`       | `chains.dfy`          | the chain constants, the escrow configuration, checked-box maps, allowed payment chains |
| `Escrow`       | `escrow.dfy`          | the observed world: escrow listings, confirmed payments, the indexing service |
| `Scan`         | `scan.dfy`            | the per-chain listing scan that both listing pages share, and its join over chains |
| `Filters`      | `filters.dfy`         | the three filter predicates the pages use                |
| `ExecuteSale`  | `execute_sale.dfy`    | `/api/execute-sale`                                      |
| `Marketplace`  | `marketplace.dfy`     | `pages/index.js`                                         |
| `Cancellation` | `cancellation.dfy`    | `handleCancelListing`, which two pages share             |
| `MyListings`   | `my_listings.dfy`     | `pages/profile/listings.js`                              |
| `Collected`    | `collected.dfy`       | `pages/profile/index.js`                                 |
| `ListingModal` | `listing_modal.dfy`   | `components/ListingModal.js`                             |
| `NftCard`      | `nft_card.dfy`        | `components/NFTCard.js`                                  |

Every network interaction becomes an input. A `World` value is a snapshot of what the chains
and the indexing service answer:

- each chain's `listings` table, whose length is `nextListingId`;
- the payment transactions that confirm within the two-minute wait;
- the metadata and owned-NFT replies.

A chain missing from the snapshot is unreachable: every call to it throws. The escrow
addresses are a `Config`; an empty address counts as not configured.

The settlement endpoint is a pure function, `Verify`/`Handle`. It returns the response and the
exact sequence of chain calls it made. This lets ordering properties be stated and proved:

- nothing is read before the parameter checks;
- the payment chain is never contacted when it is not allowed;
- `executeCrossChainSale` is called only last, and only when every check passed.

The `SaleRelayer` class keeps the log of those calls across requests.

Behaviour of the code that this model follows:

- Property keys. `escrowContracts[originChainId]` finds the same entry for `84532` and
  `"84532"`, so a chain or listing id may be a number or its canonical decimal spelling
  (`IdArg`).
- Failure of a whole pass. The pages join their per-chain scans with `Promise.all`. If one
  chain's scan throws, the whole pass fails and the previous list stays on screen. Only the
  collector's page catches failures per chain.
- Unsupported origin chain. An origin chain without an escrow address is rejected with status
  500 (`{success: false, error}`), because the code throws inside its `try`.
- Listing id 0. Only an absent listing id is a missing parameter; listing id 0 is accepted.
- Metadata `ok` flag. The marketplace skips a listing whose metadata reply is not `ok`. The
  seller's page does not test `ok`.

## Model

| member | source | states |
|---|---|---|
| `Base.Filter` | pages/index.js:88-98 | the result keeps exactly the elements satisfying the predicate and is no longer than the input |
| `Base.FilterCount` | pages/index.js:88-98 | each kept value occurs in the result exactly as often as in the input, every other value not at all |
| `Base.FilterConcat` | pages/index.js:88-98 | filtering a concatenation is the concatenation of the filtered parts, so the kept elements stay in input order |
| `Base.FilterKeepsAll` | pages/index.js:88-98 | a filter every element passes returns the list unchanged |
| `Base.FilterAscending` | components/ListingModal.js:26 | filtering a strictly ascending list leaves it strictly ascending |
| `Js.ToLowerCase` | pages/index.js:89 | the result has the input's length and contains no ASCII capital letter |
| `Js.LowerCaseIdempotent` | pages/index.js:89 | lower-casing twice gives the same string as once, and a string names the same address as its lower-cased form |
| `Js.ParseOfDecimal` | pages/api/execute-sale.js:32 | reading back the decimal spelling of an id gives the id |
| `Js.DecimalOfParse` | pages/api/execute-sale.js:32 | a canonical decimal string is the spelling of the number it denotes |
| `Marketplace.UnconfiguredChainIgnored` | pages/api/execute-sale.js:31-35 | a chain with no configured escrow address contributes no listing to the marketplace (`pages/index.js:43-44`) and a sale naming it as origin gets 500 before any chain call |
| `Chains.IdArg` | pages/api/execute-sale.js:31-35 | a non-negative number names itself; a string names an id only when it is exactly that id's decimal spelling; any other value names none |
| `Chains.IdArgOfSpelling` | pages/api/execute-sale.js:32 | a number and its decimal spelling name the same id |
| `Chains.CheckedUpdate` | pages/index.js:80-82 | setting one box adds its id to the checked ids, or removes it, and changes no other id |
| `Chains.AllowedChainsOf` | pages/index.js:57-59 | the allowed chains are exactly the supported chains the escrow allows, no more than three |
| `Chains.AllowedChainsOrdered` | pages/index.js:57-59 | the allowed chains come in the order of the supported-chain table (Ethereum, Base, Arbitrum) |
| `Scan.StepAt` | pages/index.js:50-61 | a kept entry names the id and chain it was read from and only a wanted listing is kept |
| `Scan.AbortPersists` | pages/index.js:49-62 | once a step throws, the scan of every longer prefix has thrown |
| `Scan.ScanChain` | pages/index.js:49-62 | the loop over ids `0 .. nextListingId-1` returns the specification scan of all ids |
| `Scan.ScanShape` | pages/index.js:49-62 | a successful scan holds, in strictly ascending id order, exactly the entries some step kept |
| `Scan.CollectFails` | pages/index.js:65-71 | the join fails exactly when some chain's scan fails |
| `Scan.CollectMembers` | pages/index.js:65-67 | an entry is in a successful join exactly when it is in some chain's result |
| `Scan.FetchAll` | pages/index.js:41-67 | the loop over the escrow's chain keys, in ascending key order, returns the specification join |
| `Scan.Provenance` | pages/index.js:41-62 | every joined entry was kept by the scan of its own chain, at its own id, on a chain with an escrow |
| `Scan.Completeness` | pages/index.js:41-62 | every entry a step keeps on a chain with an escrow is in a successful join |
| `Scan.ChainEntriesNameChain` | pages/index.js:60 | the entries of one chain's result name that chain |
| `Scan.CollectOrdered` | pages/index.js:65-67 | within a successful join, the entries of any one chain come in strictly ascending id order |
| `ExecuteSale.Verify` | pages/api/execute-sale.js:20-73 | method and parameter checks come before any chain access; an unsupported origin is refused exactly when its id or escrow is missing, without calls; the calls are always a prefix of the fixed check sequence; approval holds exactly when every check passes, with the request's listing and buyer |
| `ExecuteSale.SaleJustifiedStages` | pages/api/execute-sale.js:44-73 | the sale is justified exactly when the listing is readable and active, the payment chain allowed, the payment confirmed as successful, and paid to the seller (ignoring case) with the price |
| `ExecuteSale.ListingRefusals` | pages/api/execute-sale.js:44-47 | a listing id naming no id is refused without calls; an unreadable listing is refused after one read; an inactive listing gets ListingInactive after exactly that read |
| `ExecuteSale.PaymentChainRefusals` | pages/api/execute-sale.js:49-52 | for an active listing, a payment chain it does not allow is refused after the two origin calls, before the payment chain is contacted |
| `ExecuteSale.ConfirmationRefusals` | pages/api/execute-sale.js:54-65 | a payment chain outside the server's RPC table or absent from the snapshot, or a payment not confirmed as successful, is refused after the wait and before the transaction is fetched |
| `ExecuteSale.PaymentRefusals` | pages/api/execute-sale.js:67-73 | once the payment is confirmed all four check calls are made; a missing recipient, another recipient and another amount are each refused with their own reason |
| `ExecuteSale.VerifyExecutesNothing` | pages/api/execute-sale.js:44-73 | the checks only read the chains: none of their calls is a sale execution |
| `ExecuteSale.Handle` | pages/api/execute-sale.js:15-87 | the status is 200, 400, 405 or 500; the sale is executed at most once, last, and only when justified; 200 exactly when justified and the sale was mined; each rejection carries its reason and status |
| `ExecuteSale.ListingIdZeroIsPresent` | pages/api/execute-sale.js:26-28 | listing id 0 is a present parameter, against every configuration and chain state |
| `ExecuteSale.ResubmissionAfterSaleRefused` | pages/api/execute-sale.js:44-47 | a request for a listing the origin shows inactive gets 400 and executes nothing |
| `ExecuteSale.SaleRelayer.constructor` | pages/api/execute-sale.js:15 | the call log starts empty |
| `ExecuteSale.SaleRelayer.HandleRequest` | pages/api/execute-sale.js:15-87 | the response is the handler's, and the log grows by exactly the calls the handler made |
| `Marketplace.ListedIsActiveOnOrigin` | pages/index.js:49-61 | every shown listing is an active listing of its origin escrow with an `ok` metadata reply, and carries its fields |
| `Marketplace.ActiveWithMetadataIsListed` | pages/index.js:51-60 | every active listing with an `ok` metadata reply is shown |
| `Marketplace.NotOkMetadataSkipped` | pages/index.js:55 | a listing whose metadata reply is not `ok` is not shown |
| `Marketplace.ListedInIdOrder` | pages/index.js:49-67 | within the shown list, each chain's listings ascend by id |
| `Marketplace.PassFailsIffSomeChainFails` | pages/index.js:65-71 | a pass fails exactly when some chain with an escrow fails |
| `Marketplace.FilteredNfts` | pages/index.js:88-98 | a listing is shown exactly when it passes the name, origin-chain and payment-chain parts |
| `Marketplace.NothingCheckedShowsAll` | pages/index.js:88-98 | with no query and nothing checked, every listing is shown |
| `Marketplace.InitialFiltersShow` | pages/index.js:31-33 | with the initial filters, a listing is shown exactly when its origin is supported and it accepts some payment chain |
| `Marketplace.PaymentOtherThanAskedRefused` | pages/index.js:100-107 | a mined payment that is not the one the buy button asked for (another recipient, another amount, no recipient) is refused with 500 and executes nothing |
| `Marketplace.BoughtListingSettles` | pages/index.js:100-112 | a shown listing, paid as the buy button asks on an allowed chain, makes the request the page posts approved, executed last on the origin chain for the buyer, and answered with 200 and the sale hash |
| `Marketplace.OwnedListingOnSellerPage` | pages/index.js:169 | a listing the marketplace marks as the seller's own is on that seller's listings page |
| `Marketplace.HomePage.constructor` | pages/index.js:28-33 | no listings, an empty query, and every chain box checked in both groups |
| `Marketplace.HomePage.FetchListedNfts` | pages/index.js:37-74 | the list becomes the result of a successful pass and is kept when the pass fails |
| `Marketplace.HomePage.HandleSearchChange` | pages/index.js:156 | the query becomes the typed text |
| `Marketplace.HomePage.HandleChainFilterChange` | pages/index.js:80-82 | exactly one origin-chain box is set |
| `Marketplace.HomePage.HandlePaymentChainFilterChange` | pages/index.js:84-86 | exactly one payment-chain box is set |
| `Marketplace.CancelTargetsShownListing` | pages/index.js:123-141 | cancelling a shown listing from its origin network goes to that chain's configured escrow and names an active listing of the same seller; from any other network the wallet is asked to switch to the origin |
| `MyListings.MyListingIsMine` | pages/profile/listings.js:46-57 | every listing on the page is active, belongs to the address without regard to case, and carries its escrow fields |
| `MyListings.CancelTargetsMyListing` | pages/profile/listings.js:85-101 | off the origin network the wallet is only asked to switch; from the origin, the cancel goes to the origin's configured escrow and names an active listing of the connected address |
| `MyListings.MineWithMetadataIsListed` | pages/profile/listings.js:49-57 | every active listing of the address with a readable metadata body is shown, whatever the `ok` flag |
| `MyListings.FilteredMine` | pages/profile/listings.js:78-83 | a listing is shown exactly when it passes the name and origin-chain parts |
| `MyListings.InitialFiltersShowMine` | pages/profile/listings.js:29 | with the initial filters, every listing of a supported chain is shown |
| `MyListings.MyListingsPage.constructor` | pages/profile/listings.js:24-29 | no listings, an empty query, every chain checked |
| `MyListings.MyListingsPage.FetchMyListedNfts` | pages/profile/listings.js:33-70 | nothing happens without an address; otherwise the list becomes a successful pass, or is kept |
| `MyListings.MyListingsPage.HandleSearchChange` | pages/profile/listings.js:110 | the query becomes the typed text |
| `MyListings.MyListingsPage.HandleChainFilterChange` | pages/profile/listings.js:74-76 | exactly one box is set |
| `Collected.TagAllMembers` | pages/profile/index.js:46-55 | an NFT is on the page exactly when one chain's indexer reported it for the owner, tagged with that chain; a chain whose request failed or whose reply has no `ownedNfts` contributes nothing |
| `Collected.TagAllLength` | pages/profile/index.js:54-55 | the page holds as many NFTs as the chains reported together |
| `Collected.FilteredOwned` | pages/profile/index.js:66-71 | an NFT is shown exactly when it passes the name and origin-chain parts |
| `Collected.InitialFiltersShowOwned` | pages/profile/index.js:36 | with the initial filters, everything fetched is shown |
| `Collected.ListNftRun` | pages/profile/index.js:76-91 | no escrow or an unconvertible price means no wallet request; `listNft` comes only third, after the approval and its receipt, with the escrow, NFT, price and chains unchanged, on the wallet's network; the listing succeeds exactly when every step does |
| `Collected.ListingIgnoresWalletNetwork` | pages/profile/index.js:76-87 | no origin-network check: the outcome and the requests are the same from every network except for the network the two writes go to |
| `Collected.CollectedPage.constructor` | pages/profile/index.js:28-36 | no NFTs, an empty query, every chain checked, the dialog closed |
| `Collected.CollectedPage.FetchAllUserNfts` | pages/profile/index.js:40-58 | nothing happens without an address; otherwise the list becomes every chain's tagged NFTs |
| `Collected.CollectedPage.HandleSearchChange` | pages/profile/index.js:101 | the query becomes the typed text |
| `Collected.CollectedPage.HandleChainFilterChange` | pages/profile/index.js:62-64 | exactly one box is set |
| `Collected.CollectedPage.HandleOpenModal` | pages/profile/index.js:73 | the dialog opens on the chosen NFT |
| `Collected.CollectedPage.HandleCloseModal` | pages/profile/index.js:74 | the dialog closes and forgets its NFT |
| `Collected.CollectedPage.HandleListNft` | pages/profile/index.js:76-91 | the run is `ListNftRun`, and the dialog closes once the escrow and price steps pass |
| `ListingModal.Toggle` | components/ListingModal.js:21-23 | one box flips (an unset box becomes checked); the others keep their state |
| `ListingModal.ToggleTwice` | components/ListingModal.js:21-23 | flipping a box twice restores the boxes |
| `ListingModal.SelectedIds` | components/ListingModal.js:26 | the ids are exactly the checked supported chains |
| `ListingModal.SelectedIdsAscending` | components/ListingModal.js:26 | the ids come out strictly ascending |
| `ListingModal.AllSelectedIds` | components/ListingModal.js:18 | with every box checked, the ids are all three chains |
| `ListingModal.ListClickOf` | components/ListingModal.js:25-36 | an empty or non-positive price is refused first; then no checked chain is refused; otherwise the price text and the checked ids are handed on |
| `ListingModal.ListingForm.constructor` | components/ListingModal.js:17-19 | an empty price, every box checked, the chain list folded |
| `ListingModal.ListingForm.SetPrice` | components/ListingModal.js:73 | the price becomes the typed text; the boxes still cover exactly the supported chains |
| `ListingModal.ListingForm.ToggleChainsOpen` | components/ListingModal.js:50 | the chain list folds or unfolds; the boxes still cover exactly the supported chains |
| `ListingModal.ListingForm.HandleChainSelection` | components/ListingModal.js:21-23 | the chosen box flips, the boxes still cover exactly the supported chains |
| `ListingModal.ListingForm.HandleListClick` | components/ListingModal.js:25-36 | the click does what `ListClickOf` says of the form's state; a submission carries exactly the chain ids whose box is set |
| `ListingModal.FreshFormListsEverywhere` | components/ListingModal.js:17-36 | a fresh dialog with a positive price lists on all three chains |
| `NftCard.ChainsToShow` | components/NFTCard.js:30 | a prefix of the allowed chains of exactly min(3, n) icons; none when the list is absent |
| `NftCard.RemainingChains` | components/NFTCard.js:31 | the badge counts n - 3 when more than three chains are allowed, and icons plus badge equal the number of allowed chains |
| `NftCard.BadgeOnlyWhenTruncated` | components/NFTCard.js:29-31 | the badge appears exactly when some allowed chain has no icon |
| `NftCard.ChainIcon` | components/NFTCard.js:16-21 | an icon exists exactly for a supported chain |
| `NftCard.IconsDistinct` | components/NFTCard.js:16-21 | different chains get different icons |
| `NftCard.Title` | components/NFTCard.js:71 | a non-empty name is the title; otherwise `#` followed by a spelling that reads back as the token id |
| `Marketplace.CancelButtonOnlyOnOwnListing` | components/NFTCard.js:59-67 | a marketplace card offers "Cancel Listing" only to a connected viewer who is the seller (ignoring case), for a listing on that viewer's own listings page; without a wallet it offers "Buy Now" |

## Left out

- Network calls are not modelled as calls. This covers RPC providers, `fetch`, wallet requests,
  `waitForTransactionReceipt` and `saleTx.wait`. Their answers are inputs: the `World` snapshot,
  `WalletReplies`, and the `sale` result of `Handle`. The wait bound of 120000 ms is folded into
  which transactions count as confirmed.
- Concurrency is not modelled. `Promise.all` runs the chains at once; the model scans them one
  after another in ascending key order. The order of the joined list is the same.
- The endpoint's `!paymentProvider` test (`pages/api/execute-sale.js:54-57`) never fires, because
  `new JsonRpcProvider(...)` always yields a provider. A payment chain id that is not a key of the
  server's RPC table (`pages/api/execute-sale.js:9-13`) gets ethers' default local endpoint,
  and the wait on it fails. The model refuses such a chain with `ChainUnavailable` after the
  wait, whatever the snapshot holds (`PaymentChainReachable`, `ConfirmationRefusals`).
- An RPC URL left unset for one of the three supported chains also falls back to that default
  endpoint, for the origin chain and the payment chain alike. The model does not know the
  environment. It reads each supported chain's node from the `World` snapshot, so such a chain
  is represented by leaving it out of `world.nodes`.
- Js.ToLowerCase: only ASCII letters are lower-cased. Addresses and names outside ASCII have
  no faithful case mapping here.
- JSON numbers are integers. A fractional id or non-numeric JSON is not represented.
- Chains.IdArg: does not model how ethers converts a non-canonical numeric string such as
  `"007"` into a listing id. The model refuses it as `InvalidArgument`.
- Listing ids at or beyond `nextListingId`: what the escrow does with them is not modelled.
  The model reports `ListingNotFound`, a 500.
- `parseFloat(price)` and `ethers.parseEther(price)` are inputs, not computations: `PriceValue`
  and the optional wei amount. Prices are in wei throughout, and `formatEther` display is not
  modelled.
- Only the state and decisions of the pages are modelled. Rendering, `alert`, status texts,
  loading flags, the two-second `setTimeout` refreshes and the redirect after listing are left
  out. The `isMounted` guard, the hover state and the refetch effects are left out too.
- `useState` after an early `return null` (`components/ListingModal.js:15-19`) is not modelled.
  React's hook rules make that order undefined, so the dialog's form is modelled as state of its
  own.
- The settlement endpoint's refusal after a sale rests on the escrow marking the listing
  inactive. The model proves the refusal (`ResubmissionAfterSaleRefused`) given that on-chain
  state. The escrow contract itself is not part of this model.
- Not part of this model:
  - `components/Header.js`, `Layout.js`, `ProfileLayout.js` and `Sidebar.js`;
  - `components/Spoiler.js` and `ProfileNFTCard.js`;
  - `components/Web3Provider.js` and `pages/_app.js`.

  They wire the wallet and lay out the pages.
- Listing ids of 2^256 or more: ethers refuses to encode them before any call. The model
  records the listing read and answers `ListingNotFound`. The status (500) is the same; only the
  call trace differs.
- The indexer's `pageSize=100` truncation of owned NFTs is part of its reply. The model takes
  the reply as given.
- Chain records in `allowedChains` are `{id, name}` objects in the source. The model keeps only
  their ids, which is all the filters and icons use.
