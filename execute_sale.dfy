/** The settlement endpoint `/api/execute-sale`: check a payment made on one chain against a
    listing recorded on another, and only then ask the origin chain's escrow to execute the
    sale. */
module ExecuteSale {
  import opened Base
  import opened Js
  import opened Chains
  import opened Escrow

  /** The HTTP method and the five body fields of a request. */
  datatype Request = Request(
    httpMethod: string,
    listingId: Json,
    buyerAddress: Json,
    paymentTxHash: Json,
    paymentChainId: Json,
    originChainId: Json)

  datatype Failure =
    | MethodNotAllowed
    | MissingParameters
    | UnsupportedOriginChain
    | InvalidArgument
    | ChainUnavailable
    | ListingNotFound
    | ListingInactive
    | PaymentChainNotAllowed
    | PaymentNotConfirmed
    | RecipientMissing
    | RecipientMismatch
    | AmountMismatch
    | FinalizationFailed

  /** The HTTP status the handler answers a failure with: the two parameter checks and the
      inactive listing answer directly, everything thrown inside the `try` becomes 500. */
  function StatusOf(f: Failure): int
  {
    match f
    case MethodNotAllowed => 405
    case MissingParameters => 400
    case ListingInactive => 400
    case _ => 500
  }

  /** A call the handler sends to a chain's node. */
  datatype ChainCall =
    | ReadListing(chain: int, listingId: nat)
    | IsPaymentChainAllowed(chain: int, listingId: nat, paymentChain: nat)
    | WaitForTransaction(chain: int, txHash: Json)
    | GetTransaction(chain: int, txHash: Json)
    | ExecuteCrossChainSale(chain: int, listingId: nat, buyer: Json)

  datatype Verdict = Rejected(failure: Failure) | Approved(origin: nat, listingId: nat, buyer: Json)

  /** The verdict of the checks and the calls made to reach it, in the order they were made. */
  datatype Verification = Verification(verdict: Verdict, calls: seq<ChainCall>)

  /** `listingId === undefined || !buyerAddress || ...`: listing id 0 passes. */
  predicate ParametersPresent(req: Request)
  {
    req.listingId != Undefined && Truthy(req.buyerAddress) && Truthy(req.paymentTxHash) &&
    Truthy(req.paymentChainId) && Truthy(req.originChainId)
  }

  /** Every call the checks would make, in order, when they all pass. */
  function CheckCalls(origin: nat, id: nat, pay: nat, hash: Json): seq<ChainCall>
  {
    [ReadListing(origin, id), IsPaymentChainAllowed(origin, id, pay), WaitForTransaction(pay, hash), GetTransaction(pay, hash)]
  }

  /** The server reaches the payment chain `pay`: its provider table
      (`pages/api/execute-sale.js:9-13`) has an RPC URL key only for the supported chains, and
      any other id sends ethers to its default local endpoint, which is not that chain. */
  predicate PaymentChainReachable(world: World, pay: int)
  {
    pay in SupportedChains && pay in world.nodes
  }

  /** The request gets past the method, parameter and origin checks, and names a listing
      that the origin chain's escrow holds. */
  predicate ReachesListing(req: Request, cfg: Config, world: World)
  {
    && req.httpMethod == "POST"
    && ParametersPresent(req)
    && IdArg(req.originChainId).Some? && EscrowAddress(cfg, IdArg(req.originChainId).value).Some?
    && IdArg(req.listingId).Some?
    && IdArg(req.originChainId).value in world.nodes
    && IdArg(req.listingId).value < |world.nodes[IdArg(req.originChainId).value].listings|
  }

  /** The listing such a request names. */
  function ListingOf(req: Request, cfg: Config, world: World): Listing
    requires ReachesListing(req, cfg, world)
  {
    world.nodes[IdArg(req.originChainId).value].listings[IdArg(req.listingId).value]
  }

  /** ... and the listing is active and allows the named payment chain. */
  predicate ReachesPayment(req: Request, cfg: Config, world: World)
  {
    && ReachesListing(req, cfg, world)
    && ListingOf(req, cfg, world).active
    && IdArg(req.paymentChainId).Some?
    && IdArg(req.paymentChainId).value in ListingOf(req, cfg, world).paymentChains
  }

  /** ... and the payment chain confirms the payment transaction as successful. */
  predicate ReachesTransaction(req: Request, cfg: Config, world: World)
  {
    && ReachesPayment(req, cfg, world)
    && PaymentChainReachable(world, IdArg(req.paymentChainId).value)
    && req.paymentTxHash in world.nodes[IdArg(req.paymentChainId).value].confirmed
    && PaymentOf(req, cfg, world).status == 1
  }

  /** The confirmed payment a request names. */
  function PaymentOf(req: Request, cfg: Config, world: World): PaymentTx
    requires ReachesPayment(req, cfg, world)
    requires IdArg(req.paymentChainId).value in world.nodes
    requires req.paymentTxHash in world.nodes[IdArg(req.paymentChainId).value].confirmed
  {
    world.nodes[IdArg(req.paymentChainId).value].confirmed[req.paymentTxHash]
  }

  /** Everything that must hold of the request and of the two chains for the sale to be
      executed, stated as one conjunction. */
  predicate SaleJustified(req: Request, cfg: Config, world: World)
  {
    && req.httpMethod == "POST"
    && ParametersPresent(req)
    && IdArg(req.originChainId).Some? && IdArg(req.listingId).Some? && IdArg(req.paymentChainId).Some?
    && var origin, id, pay := IdArg(req.originChainId).value, IdArg(req.listingId).value, IdArg(req.paymentChainId).value;
       && EscrowAddress(cfg, origin).Some?
       && origin in world.nodes && id < |world.nodes[origin].listings|
       && var listing := world.nodes[origin].listings[id];
          && listing.active
          && pay in listing.paymentChains
          && PaymentChainReachable(world, pay) && req.paymentTxHash in world.nodes[pay].confirmed
          && var tx := world.nodes[pay].confirmed[req.paymentTxHash];
             && tx.status == 1
             && tx.to.Some? && SameAddress(tx.to.value, listing.seller)
             && tx.value == listing.price
  }

  /** The same conjunction, stage by stage: the payment went to the seller, ignoring case,
      and paid the price. */
  lemma SaleJustifiedStages(req: Request, cfg: Config, world: World)
    ensures SaleJustified(req, cfg, world) <==>
      && ReachesTransaction(req, cfg, world)
      && PaymentOf(req, cfg, world).to.Some?
      && SameAddress(PaymentOf(req, cfg, world).to.value, ListingOf(req, cfg, world).seller)
      && PaymentOf(req, cfg, world).value == ListingOf(req, cfg, world).price
  {
  }

  /** The checks on the payment chain, once the origin escrow allowed `pay` for the
      active listing `listing` (id `id` on `origin`). */
  function CheckPayment(req: Request, world: World, origin: nat, id: nat, listing: Listing, pay: nat): (v: Verification)
    ensures 3 <= |v.calls| <= 4 && v.calls == CheckCalls(origin, id, pay, req.paymentTxHash)[..|v.calls|]
    ensures v.verdict.Approved? <==>
      && PaymentChainReachable(world, pay) && req.paymentTxHash in world.nodes[pay].confirmed
      && var tx := world.nodes[pay].confirmed[req.paymentTxHash];
         tx.status == 1 && tx.to.Some? && SameAddress(tx.to.value, listing.seller) && tx.value == listing.price
    ensures v.verdict.Approved? ==> v.verdict == Approved(origin, id, req.buyerAddress) && |v.calls| == 4
    ensures v.verdict.Rejected? ==>
      v.verdict.failure in {ChainUnavailable, PaymentNotConfirmed, RecipientMissing, RecipientMismatch, AmountMismatch}
  {
    var waited := CheckCalls(origin, id, pay, req.paymentTxHash)[..3];
    if !PaymentChainReachable(world, pay) then Verification(Rejected(ChainUnavailable), waited)
    else if req.paymentTxHash !in world.nodes[pay].confirmed then Verification(Rejected(PaymentNotConfirmed), waited)
    else
      var tx := world.nodes[pay].confirmed[req.paymentTxHash];
      if tx.status != 1 then Verification(Rejected(PaymentNotConfirmed), waited)
      else
        var fetched := CheckCalls(origin, id, pay, req.paymentTxHash);
        assert fetched[..4] == fetched;
        if tx.to.None? then Verification(Rejected(RecipientMissing), fetched)
        else if !SameAddress(tx.to.value, listing.seller) then Verification(Rejected(RecipientMismatch), fetched)
        else if tx.value != listing.price then Verification(Rejected(AmountMismatch), fetched)
        else Verification(Approved(origin, id, req.buyerAddress), fetched)
  }

  /** The checks from reading listing `id` on `origin` onwards. */
  function CheckListing(req: Request, world: World, origin: nat, id: nat): (v: Verification)
    ensures 1 <= |v.calls| <= 4
    ensures |v.calls| > 1 ==> IdArg(req.paymentChainId).Some?
    ensures v.calls == CheckCalls(origin, id, if |v.calls| > 1 then IdArg(req.paymentChainId).value else 0,
                                  req.paymentTxHash)[..|v.calls|]
    ensures v.verdict.Rejected? ==> v.verdict.failure !in {MethodNotAllowed, MissingParameters, UnsupportedOriginChain}
    ensures v.verdict == Rejected(ListingInactive) ==> v.calls == [ReadListing(origin, id)]
    ensures v.verdict == Rejected(PaymentChainNotAllowed) ==> |v.calls| == 2
    ensures v.verdict.Approved? <==>
      && IdArg(req.paymentChainId).Some?
      && origin in world.nodes && id < |world.nodes[origin].listings|
      && var listing, pay := world.nodes[origin].listings[id], IdArg(req.paymentChainId).value;
         && listing.active && pay in listing.paymentChains
         && PaymentChainReachable(world, pay) && req.paymentTxHash in world.nodes[pay].confirmed
         && var tx := world.nodes[pay].confirmed[req.paymentTxHash];
            tx.status == 1 && tx.to.Some? && SameAddress(tx.to.value, listing.seller) && tx.value == listing.price
    ensures v.verdict.Approved? ==>
      v.verdict == Approved(origin, id, req.buyerAddress) && |v.calls| == 4
  {
    var read := [ReadListing(origin, id)];
    if origin !in world.nodes then Verification(Rejected(ChainUnavailable), read)
    else if id >= |world.nodes[origin].listings| then Verification(Rejected(ListingNotFound), read)
    else
      var listing := world.nodes[origin].listings[id];
      if !listing.active then Verification(Rejected(ListingInactive), read)
      else
        var payArg := IdArg(req.paymentChainId);
        if payArg.None? then Verification(Rejected(InvalidArgument), read)
        else
          var pay := payArg.value;
          if pay !in listing.paymentChains then
            Verification(Rejected(PaymentChainNotAllowed), CheckCalls(origin, id, pay, req.paymentTxHash)[..2])
          else CheckPayment(req, world, origin, id, listing, pay)
  }

  /** The guard chain of the handler, up to (not including) the sale execution. */
  function Verify(req: Request, cfg: Config, world: World): (v: Verification)
    // method check first, before any chain access
    ensures req.httpMethod != "POST" ==> v == Verification(Rejected(MethodNotAllowed), [])
    // missing parameters next, still before any chain access
    ensures req.httpMethod == "POST" && !ParametersPresent(req) ==>
      v == Verification(Rejected(MissingParameters), [])
    // an origin without an escrow is refused before the listing is read
    ensures v.verdict == Rejected(UnsupportedOriginChain) ==> v.calls == []
    ensures v.verdict == Rejected(UnsupportedOriginChain) <==>
      req.httpMethod == "POST" && ParametersPresent(req) &&
      (IdArg(req.originChainId).None? || EscrowAddress(cfg, IdArg(req.originChainId).value).None?)
    // an inactive listing: only the listing was read
    ensures v.verdict == Rejected(ListingInactive) ==>
      IdArg(req.originChainId).Some? && IdArg(req.listingId).Some? &&
      v.calls == [ReadListing(IdArg(req.originChainId).value, IdArg(req.listingId).value)]
    // a payment chain the listing does not allow: the payment chain is never contacted
    ensures v.verdict == Rejected(PaymentChainNotAllowed) ==>
      IdArg(req.originChainId).Some? && |v.calls| == 2 && forall c :: c in v.calls ==> c.chain == IdArg(req.originChainId).value
    // the calls made are always a prefix of the full check sequence, and no sale is executed here
    ensures |v.calls| <= 4
    ensures |v.calls| > 0 ==>
      IdArg(req.originChainId).Some? && IdArg(req.listingId).Some? &&
      (|v.calls| > 1 ==> IdArg(req.paymentChainId).Some?) &&
      v.calls == CheckCalls(IdArg(req.originChainId).value, IdArg(req.listingId).value,
                            if |v.calls| > 1 then IdArg(req.paymentChainId).value else 0,
                            req.paymentTxHash)[..|v.calls|]
    // approval exactly when every check passes, with the request's listing and buyer
    ensures v.verdict.Approved? <==> SaleJustified(req, cfg, world)
    ensures v.verdict.Approved? ==>
      && IdArg(req.originChainId).Some? && IdArg(req.listingId).Some? && IdArg(req.paymentChainId).Some?
      && v.verdict == Approved(IdArg(req.originChainId).value, IdArg(req.listingId).value, req.buyerAddress)
      && v.calls == CheckCalls(v.verdict.origin, v.verdict.listingId, IdArg(req.paymentChainId).value, req.paymentTxHash)
  {
    if req.httpMethod != "POST" then Verification(Rejected(MethodNotAllowed), [])
    else if !ParametersPresent(req) then Verification(Rejected(MissingParameters), [])
    else
      var originKey := IdArg(req.originChainId);
      if originKey.None? || EscrowAddress(cfg, originKey.value).None? then
        Verification(Rejected(UnsupportedOriginChain), [])
      else
        var idArg := IdArg(req.listingId);
        if idArg.None? then Verification(Rejected(InvalidArgument), [])
        else CheckListing(req, world, originKey.value, idArg.value)
  }

  /** The calls every check would make for a request, in order. */
  function AllChecks(req: Request): seq<ChainCall>
    requires IdArg(req.originChainId).Some? && IdArg(req.listingId).Some? && IdArg(req.paymentChainId).Some?
  {
    CheckCalls(IdArg(req.originChainId).value, IdArg(req.listingId).value, IdArg(req.paymentChainId).value, req.paymentTxHash)
  }

  /** A listing id that names no id, or a listing the origin chain cannot produce, is refused;
      in the second case after the one read. */
  lemma ListingRefusals(req: Request, cfg: Config, world: World)
    requires req.httpMethod == "POST" && ParametersPresent(req)
    requires IdArg(req.originChainId).Some? && EscrowAddress(cfg, IdArg(req.originChainId).value).Some?
    ensures IdArg(req.listingId).None? ==> Verify(req, cfg, world) == Verification(Rejected(InvalidArgument), [])
    ensures (IdArg(req.listingId).Some? && !ReachesListing(req, cfg, world)) ==>
      && Verify(req, cfg, world).verdict in {Rejected(ChainUnavailable), Rejected(ListingNotFound)}
      && Verify(req, cfg, world).calls == [ReadListing(IdArg(req.originChainId).value, IdArg(req.listingId).value)]
    ensures ReachesListing(req, cfg, world) && !ListingOf(req, cfg, world).active ==>
      Verify(req, cfg, world) ==
        Verification(Rejected(ListingInactive), [ReadListing(IdArg(req.originChainId).value, IdArg(req.listingId).value)])
  {
  }

  /** A payment chain the listing does not allow is refused after asking the origin escrow,
      before the payment chain is contacted. */
  lemma PaymentChainRefusals(req: Request, cfg: Config, world: World)
    requires ReachesListing(req, cfg, world) && ListingOf(req, cfg, world).active
    ensures IdArg(req.paymentChainId).None? ==>
      Verify(req, cfg, world) ==
        Verification(Rejected(InvalidArgument), [ReadListing(IdArg(req.originChainId).value, IdArg(req.listingId).value)])
    ensures (IdArg(req.paymentChainId).Some? &&
             IdArg(req.paymentChainId).value !in ListingOf(req, cfg, world).paymentChains) ==>
      Verify(req, cfg, world) == Verification(Rejected(PaymentChainNotAllowed), AllChecks(req)[..2])
  {
  }

  /** An unreachable payment chain, or a payment that is not confirmed as successful, is
      refused after the wait and before the transaction is fetched. */
  lemma ConfirmationRefusals(req: Request, cfg: Config, world: World)
    requires ReachesPayment(req, cfg, world)
    ensures !PaymentChainReachable(world, IdArg(req.paymentChainId).value) ==>
      Verify(req, cfg, world) == Verification(Rejected(ChainUnavailable), AllChecks(req)[..3])
    ensures (PaymentChainReachable(world, IdArg(req.paymentChainId).value) &&
             (req.paymentTxHash !in world.nodes[IdArg(req.paymentChainId).value].confirmed ||
              PaymentOf(req, cfg, world).status != 1)) ==>
      Verify(req, cfg, world) == Verification(Rejected(PaymentNotConfirmed), AllChecks(req)[..3])
  {
  }

  /** A confirmed payment to someone other than the seller, or of another amount, is refused
      after every check call and without executing anything. */
  lemma PaymentRefusals(req: Request, cfg: Config, world: World)
    requires ReachesTransaction(req, cfg, world)
    ensures Verify(req, cfg, world).calls == AllChecks(req)
    ensures PaymentOf(req, cfg, world).to.None? ==> Verify(req, cfg, world).verdict == Rejected(RecipientMissing)
    ensures (PaymentOf(req, cfg, world).to.Some? &&
             !SameAddress(PaymentOf(req, cfg, world).to.value, ListingOf(req, cfg, world).seller)) ==>
      Verify(req, cfg, world).verdict == Rejected(RecipientMismatch)
    ensures (PaymentOf(req, cfg, world).to.Some? &&
             SameAddress(PaymentOf(req, cfg, world).to.value, ListingOf(req, cfg, world).seller) &&
             PaymentOf(req, cfg, world).value != ListingOf(req, cfg, world).price) ==>
      Verify(req, cfg, world).verdict == Rejected(AmountMismatch)
  {
  }

  /** The JSON body of a response: `{error}`, `{success: false, error}` or `{success: true, txHash}`. */
  datatype Body = ErrorBody(failure: Failure) | FailureBody(failure: Failure) | SuccessBody(txHash: string)

  datatype Response = Response(status: int, body: Body)

  /** A handled request: the response and every chain call, the sale execution included. */
  datatype Handled = Handled(response: Response, calls: seq<ChainCall>)

  /** The whole handler. `sale` is what the origin chain did with `executeCrossChainSale`: the
      hash of the mined sale transaction, or None when submitting it or waiting for it threw. */
  function Handle(req: Request, cfg: Config, world: World, sale: Option<string>): (h: Handled)
    ensures h.response.status in {200, 400, 405, 500}
    // the sale is executed at most once per request, as the last call, and only when justified
    ensures forall k :: 0 <= k < |h.calls| && h.calls[k].ExecuteCrossChainSale? ==>
      k == |h.calls| - 1 && SaleJustified(req, cfg, world)
    ensures SaleJustified(req, cfg, world) ==>
      h.calls == Verify(req, cfg, world).calls +
        [ExecuteCrossChainSale(IdArg(req.originChainId).value, IdArg(req.listingId).value, req.buyerAddress)]
    ensures !SaleJustified(req, cfg, world) ==> h.calls == Verify(req, cfg, world).calls
    // success means every check passed and the sale transaction was mined; it reports that hash
    ensures h.response.status == 200 <==> SaleJustified(req, cfg, world) && sale.Some?
    ensures h.response.status == 200 ==> h.response.body == SuccessBody(sale.value)
    // a rejection carries the reason and its status; 500 always says `success: false`
    ensures Verify(req, cfg, world).verdict.Rejected? ==>
      var f := Verify(req, cfg, world).verdict.failure;
      h.response.status == StatusOf(f) &&
      h.response.body == (if StatusOf(f) == 500 then FailureBody(f) else ErrorBody(f))
    ensures h.response.status == 500 <==> h.response.body.FailureBody?
  {
    var v := Verify(req, cfg, world);
    VerifyExecutesNothing(req, cfg, world);
    match v.verdict
    case Rejected(f) =>
      Handled(Response(StatusOf(f), if StatusOf(f) == 500 then FailureBody(f) else ErrorBody(f)), v.calls)
    case Approved(origin, id, buyer) =>
      var calls := v.calls + [ExecuteCrossChainSale(origin, id, buyer)];
      match sale
      case Some(hash) => Handled(Response(200, SuccessBody(hash)), calls)
      case None => Handled(Response(500, FailureBody(FinalizationFailed)), calls)
  }

  /** The checks only read: none of their calls executes a sale. */
  lemma VerifyExecutesNothing(req: Request, cfg: Config, world: World)
    ensures forall k :: 0 <= k < |Verify(req, cfg, world).calls| ==> !Verify(req, cfg, world).calls[k].ExecuteCrossChainSale?
  {
    var v := Verify(req, cfg, world);
    if |v.calls| > 0 {
      var all := CheckCalls(IdArg(req.originChainId).value, IdArg(req.listingId).value,
                            if |v.calls| > 1 then IdArg(req.paymentChainId).value else 0, req.paymentTxHash);
      assert v.calls == all[..|v.calls|];
      forall k | 0 <= k < |v.calls| ensures !v.calls[k].ExecuteCrossChainSale? {
        assert v.calls[k] == all[k];
      }
    }
  }

  /** Listing id 0 is a present parameter; only an absent listing id is missing. */
  lemma ListingIdZeroIsPresent(req: Request, cfg: Config, world: World)
    requires req.listingId == Num(0)
    requires Truthy(req.buyerAddress) && Truthy(req.paymentTxHash)
    requires Truthy(req.paymentChainId) && Truthy(req.originChainId)
    ensures ParametersPresent(req)
    ensures req.httpMethod == "POST" ==> Verify(req, cfg, world).verdict != Rejected(MissingParameters)
  {
  }

  /** Once the origin chain shows the listing as inactive (as it does after a sale or a
      cancellation), resubmitting the same request is refused with 400 and executes nothing. */
  lemma ResubmissionAfterSaleRefused(req: Request, cfg: Config, world: World, sale: Option<string>)
    requires Verify(req, cfg, world).calls != []
    requires var origin := IdArg(req.originChainId).value;
      var id := IdArg(req.listingId).value;
      origin in world.nodes && id < |world.nodes[origin].listings| && !world.nodes[origin].listings[id].active
    ensures Handle(req, cfg, world, sale).response == Response(400, ErrorBody(ListingInactive))
    ensures forall c :: c in Handle(req, cfg, world, sale).calls ==> !c.ExecuteCrossChainSale?
  {
  }

  /** The server: it keeps the log of every call it has made to any chain. */
  class SaleRelayer {
    var calls: seq<ChainCall>

    constructor ()
      ensures calls == []
    {
      calls := [];
    }

    /** Serve one request against the current observations of the chains. */
    method HandleRequest(req: Request, cfg: Config, world: World, sale: Option<string>) returns (resp: Response)
      modifies this
      ensures resp == Handle(req, cfg, world, sale).response
      ensures calls == old(calls) + Handle(req, cfg, world, sale).calls
    {
      var v := Verify(req, cfg, world);
      if v.verdict.Rejected? {
        var f := v.verdict.failure;
        calls := calls + v.calls;
        resp := Response(StatusOf(f), if StatusOf(f) == 500 then FailureBody(f) else ErrorBody(f));
        return;
      }
      calls := calls + v.calls + [ExecuteCrossChainSale(v.verdict.origin, v.verdict.listingId, v.verdict.buyer)];
      if sale.Some? {
        resp := Response(200, SuccessBody(sale.value));
      } else {
        resp := Response(500, FailureBody(FinalizationFailed));
      }
    }
  }
}
