/** What the marketplace observes of the outside world: each chain's escrow listings and
    confirmed transactions, and each chain's NFT indexing service. The model takes one
    snapshot of these as an input instead of performing network calls. */
module Escrow {
  import opened Base
  import opened Js
  import opened Chains

  /** One record of the escrow's `listings` table. `paymentChains` is the set of chain ids for
      which the escrow's `isPaymentChainAllowed(listingId, chain)` answers true. */
  datatype Listing = Listing(
    seller: string,
    nftContract: string,
    tokenId: nat,
    price: nat,
    active: bool,
    paymentChains: set<int>)

  /** A payment transaction that was mined within the confirmation wait: its receipt status
      and the `to` and `value` fields `getTransaction` reports (`to` is absent for a contract
      creation). */
  datatype PaymentTx = PaymentTx(status: int, to: Option<string>, value: nat)

  /** What one chain's node answers: the escrow's listings, ids `0 .. nextListingId - 1`, and
      the transactions that reach one confirmation within the wait bound, by hash. */
  datatype Node = Node(listings: seq<Listing>, confirmed: map<Json, PaymentTx>)

  /** Parsed NFT metadata: `name` and `image.cachedUrl`. */
  datatype Metadata = Metadata(name: Option<string>, image: Option<string>)

  /** An HTTP reply of the metadata service: its `ok` flag and its body as `json()` parses it
      (None: the body does not parse and `json()` throws). */
  datatype MetaResponse = MetaResponse(ok: bool, body: Option<Metadata>)

  datatype OwnedNft = OwnedNft(contract: string, tokenId: string, name: Option<string>)

  /** The reply to an owner query: the request or its parsing threw, the body has no
      `ownedNfts` field, or the owned NFTs. */
  datatype OwnedReply = OwnedFailed | OwnedMissing | Owned(nfts: seq<OwnedNft>)

  /** One chain's indexing service: metadata by (contract, token id), owned NFTs by owner. */
  datatype Indexer = Indexer(metadata: map<(string, nat), MetaResponse>, owned: map<string, OwnedReply>)

  /** The snapshot. A chain missing from `nodes` is unreachable (every call to it throws); a
      chain missing from `indexers`, or a query missing from an indexer, makes `fetch` reject. */
  datatype World = World(nodes: map<int, Node>, indexers: map<int, Indexer>)

  /** `fetch` of the metadata of `l` from `chain`'s indexing service. */
  function MetadataOf(world: World, chain: int, l: Listing): Option<MetaResponse>
  {
    if chain in world.indexers && (l.nftContract, l.tokenId) in world.indexers[chain].metadata
    then Some(world.indexers[chain].metadata[(l.nftContract, l.tokenId)])
    else None
  }

  /** The record a marketplace page builds for one listing: the listing's fields, its
      metadata, the chain it was read from and its allowed payment chains. */
  datatype Listed = Listed(
    listingId: nat,
    seller: string,
    nftContract: string,
    tokenId: nat,
    price: nat,
    name: Option<string>,
    image: Option<string>,
    originChainId: int,
    allowedChains: seq<int>)

  function ToListed(id: nat, l: Listing, md: Metadata, chain: int): Listed
  {
    Listed(id, l.seller, l.nftContract, l.tokenId, l.price, md.name, md.image, chain,
           AllowedChainsOf(l.paymentChains))
  }
}
