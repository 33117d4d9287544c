/** `handleCancelListing`, which the marketplace page and the seller's listings page share
    word for word: cancel only from the listing's origin network. */
module Cancellation {
  import opened Base
  import opened Chains
  import opened Escrow

  /** What the handler does: ask the wallet to switch network, or submit
      `cancelListing(listingId)` to the escrow address configured for the origin chain. */
  datatype CancelStep = SwitchNetwork(chainId: int) | SubmitCancel(escrow: Option<string>, listingId: nat)

  /** `walletChain` is the wallet's current chain id (absent when no wallet is connected). */
  function CancelAction(cfg: Config, walletChain: Option<int>, listing: Listed): (r: CancelStep)
    ensures r.SwitchNetwork? <==> walletChain != Some(listing.originChainId)
    ensures r.SwitchNetwork? ==> r.chainId == listing.originChainId
    ensures r.SubmitCancel? ==>
      r.escrow == EscrowAddress(cfg, listing.originChainId) && r.listingId == listing.listingId
  {
    if walletChain != Some(listing.originChainId) then SwitchNetwork(listing.originChainId)
    else SubmitCancel(EscrowAddress(cfg, listing.originChainId), listing.listingId)
  }
}
