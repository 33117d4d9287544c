/** The listing scan both marketplace pages run: for every chain with an escrow, read
    `nextListingId`, walk the ids `0 .. nextListingId - 1` in ascending order, keep the
    listings the page wants (with metadata and allowed payment chains), and join the
    per-chain lists in `Object.keys` order. */
module Scan {
  import opened Base
  import opened Js
  import opened Chains
  import opened Escrow

  /** Which page is scanning. The marketplace keeps every active listing whose metadata
      reply is `ok`; the seller's page keeps the active listings of one seller and parses
      the metadata reply without looking at `ok`. */
  datatype Kind = AllActive | SellerOnly(address: string)

  /** What the loop body does with one listing id: push an entry, go on, or throw. */
  datatype Step = Keep(entry: Listed) | Skip | Abort

  /** Whether the page looks at listing `l` at all (the `if` around the loop body). */
  predicate Wanted(kind: Kind, l: Listing)
  {
    match kind
    case AllActive => l.active
    case SellerOnly(address) => l.active && SameAddress(l.seller, address)
  }

  /** The loop body for id `i` of `chain`, as a value. */
  function StepAt(kind: Kind, world: World, chain: int, i: nat, l: Listing): (s: Step)
    ensures s.Keep? ==> s.entry.listingId == i && s.entry.originChainId == chain && Wanted(kind, l)
  {
    if !Wanted(kind, l) then Skip
    else match MetadataOf(world, chain, l)
      case None => Abort
      case Some(resp) =>
        if kind.AllActive? && !resp.ok then Skip
        else match resp.body
          case None => Abort
          case Some(md) => Keep(ToListed(i, l, md, chain))
  }

  /** The scan of ids `0 .. n-1`: the kept entries in id order, or None once a step threw. */
  function ScanPrefix(kind: Kind, world: World, chain: int, node: Node, n: nat): Option<seq<Listed>>
    requires n <= |node.listings|
  {
    if n == 0 then Some([])
    else match ScanPrefix(kind, world, chain, node, n - 1)
      case None => None
      case Some(acc) =>
        match StepAt(kind, world, chain, n - 1, node.listings[n - 1])
        case Abort => None
        case Skip => Some(acc)
        case Keep(e) => Some(acc + [e])
  }

  /** Once an id's processing has thrown, the whole chain's scan has failed. */
  lemma {:induction false} AbortPersists(kind: Kind, world: World, chain: int, node: Node, k: nat, n: nat)
    requires k <= n <= |node.listings|
    requires ScanPrefix(kind, world, chain, node, k).None?
    ensures ScanPrefix(kind, world, chain, node, n).None?
  {
    if k < n {
      AbortPersists(kind, world, chain, node, k, n - 1);
    }
  }

  /** The `for (let i = 0; i < nextId; i++)` loop over one chain's escrow. */
  method ScanChain(kind: Kind, world: World, chain: int, node: Node) returns (r: Option<seq<Listed>>)
    ensures r == ScanPrefix(kind, world, chain, node, |node.listings|)
  {
    var nextId := |node.listings|;
    var listingsForChain: seq<Listed> := [];
    var i := 0;
    while i < nextId
      invariant 0 <= i <= nextId
      invariant ScanPrefix(kind, world, chain, node, i) == Some(listingsForChain)
    {
      var listing := node.listings[i];
      if Wanted(kind, listing) {
        var metaResponse := MetadataOf(world, chain, listing);
        if metaResponse.None? {
          AbortPersists(kind, world, chain, node, i + 1, nextId);
          return None;
        }
        if kind.AllActive? && !metaResponse.value.ok {
          i := i + 1;
          continue;
        }
        if metaResponse.value.body.None? {
          AbortPersists(kind, world, chain, node, i + 1, nextId);
          return None;
        }
        listingsForChain := listingsForChain + [ToListed(i, listing, metaResponse.value.body.value, chain)];
      }
      i := i + 1;
    }
    return Some(listingsForChain);
  }

  /** A successful scan of ids `0 .. n-1` holds exactly the entries its steps keep, in
      strictly ascending id order, and no step threw. */
  lemma {:induction false} ScanShape(kind: Kind, world: World, chain: int, node: Node, n: nat)
    requires n <= |node.listings|
    requires ScanPrefix(kind, world, chain, node, n).Some?
    ensures var r := ScanPrefix(kind, world, chain, node, n).value;
      && (forall k :: 0 <= k < |r| ==>
            (r[k].listingId < n &&
             StepAt(kind, world, chain, r[k].listingId, node.listings[r[k].listingId]) == Keep(r[k])))
      && (forall k, k' :: 0 <= k < k' < |r| ==> r[k].listingId < r[k'].listingId)
      && (forall i :: 0 <= i < n ==> !StepAt(kind, world, chain, i, node.listings[i]).Abort?)
      && (forall i :: 0 <= i < n && StepAt(kind, world, chain, i, node.listings[i]).Keep? ==>
            StepAt(kind, world, chain, i, node.listings[i]).entry in r)
  {
    if n > 0 {
      ScanShape(kind, world, chain, node, n - 1);
    }
  }

  /** One chain's contribution: nothing without an escrow, a failure if its node is
      unreachable, its scan otherwise. */
  function ChainListings(kind: Kind, cfg: Config, world: World, chain: int): Option<seq<Listed>>
  {
    if EscrowAddress(cfg, chain).None? then Some([])
    else if chain !in world.nodes then None
    else ScanPrefix(kind, world, chain, world.nodes[chain], |world.nodes[chain].listings|)
  }

  /** The chains' results joined in the order of `chains` (`Promise.all`, then `flat`);
      None when any chain's scan threw. */
  function Collect(kind: Kind, cfg: Config, world: World, chains: seq<int>): Option<seq<Listed>>
  {
    if chains == [] then Some([])
    else match Collect(kind, cfg, world, chains[..|chains| - 1])
      case None => None
      case Some(acc) =>
        match ChainListings(kind, cfg, world, chains[|chains| - 1])
        case None => None
        case Some(r) => Some(acc + r)
  }

  /** The join fails exactly when some chain's scan fails. */
  lemma {:induction false} CollectFails(kind: Kind, cfg: Config, world: World, chains: seq<int>)
    ensures Collect(kind, cfg, world, chains).None? <==>
      exists c :: c in chains && ChainListings(kind, cfg, world, c).None?
  {
    if chains != [] {
      var init := chains[..|chains| - 1];
      CollectFails(kind, cfg, world, init);
      assert chains == init + [chains[|chains| - 1]];
    }
  }

  /** A successful join holds exactly the elements of the chains' results. */
  lemma {:induction false} CollectMembers(kind: Kind, cfg: Config, world: World, chains: seq<int>)
    requires Collect(kind, cfg, world, chains).Some?
    ensures forall c :: c in chains ==> ChainListings(kind, cfg, world, c).Some?
    ensures forall x :: x in Collect(kind, cfg, world, chains).value <==>
      exists c :: c in chains && x in ChainListings(kind, cfg, world, c).value
  {
    CollectFails(kind, cfg, world, chains);
    if chains != [] {
      var init := chains[..|chains| - 1];
      CollectMembers(kind, cfg, world, init);
      assert chains == init + [chains[|chains| - 1]];
    }
  }

  /** `Object.keys(escrowContracts).map(...)` joined by `Promise.all(...)` and `flat()`,
      one chain after the other. */
  method FetchAll(kind: Kind, cfg: Config, world: World) returns (r: Option<seq<Listed>>)
    ensures r == Collect(kind, cfg, world, KeyOrder)
  {
    var results: seq<Listed> := [];
    var k := 0;
    while k < |KeyOrder|
      invariant 0 <= k <= |KeyOrder|
      invariant Collect(kind, cfg, world, KeyOrder[..k]) == Some(results)
    {
      var chain := KeyOrder[k];
      assert KeyOrder[..k + 1][..k] == KeyOrder[..k] && KeyOrder[..k + 1][k] == chain;
      if EscrowAddress(cfg, chain).Some? {
        if chain !in world.nodes {
          assert ChainListings(kind, cfg, world, chain).None?;
          CollectFails(kind, cfg, world, KeyOrder);
          return None;
        }
        var node := world.nodes[chain];
        var listingsForChain := ScanChain(kind, world, chain, node);
        assert ChainListings(kind, cfg, world, chain) == listingsForChain;
        if listingsForChain.None? {
          CollectFails(kind, cfg, world, KeyOrder);
          return None;
        }
        results := results + listingsForChain.value;
      } else {
        assert ChainListings(kind, cfg, world, chain) == Some([]);
        assert results + [] == results;
      }
      k := k + 1;
    }
    assert KeyOrder[..k] == KeyOrder;
    return Some(results);
  }

  /** Every entry of a successful pass was kept by the scan of the chain it names, at the id
      it names, on a chain with an escrow whose node answered. */
  lemma Provenance(kind: Kind, cfg: Config, world: World, x: Listed)
    requires Collect(kind, cfg, world, KeyOrder).Some?
    requires x in Collect(kind, cfg, world, KeyOrder).value
    ensures x.originChainId in KeyOrder && EscrowAddress(cfg, x.originChainId).Some?
    ensures x.originChainId in world.nodes
    ensures x.listingId < |world.nodes[x.originChainId].listings|
    ensures StepAt(kind, world, x.originChainId, x.listingId,
                   world.nodes[x.originChainId].listings[x.listingId]) == Keep(x)
  {
    CollectMembers(kind, cfg, world, KeyOrder);
    var c :| c in KeyOrder && x in ChainListings(kind, cfg, world, c).value;
    var node := world.nodes[c];
    ScanShape(kind, world, c, node, |node.listings|);
  }

  /** Every listing a step keeps on a chain with an escrow is in a successful pass. */
  lemma Completeness(kind: Kind, cfg: Config, world: World, chain: int, i: nat)
    requires Collect(kind, cfg, world, KeyOrder).Some?
    requires chain in KeyOrder && EscrowAddress(cfg, chain).Some? && chain in world.nodes
    requires i < |world.nodes[chain].listings|
    requires StepAt(kind, world, chain, i, world.nodes[chain].listings[i]).Keep?
    ensures StepAt(kind, world, chain, i, world.nodes[chain].listings[i]).entry in
      Collect(kind, cfg, world, KeyOrder).value
  {
    CollectMembers(kind, cfg, world, KeyOrder);
    var node := world.nodes[chain];
    ScanShape(kind, world, chain, node, |node.listings|);
  }

  /** The entries of one chain's contribution name that chain. */
  lemma ChainEntriesNameChain(kind: Kind, cfg: Config, world: World, chain: int, x: Listed)
    requires ChainListings(kind, cfg, world, chain).Some?
    requires x in ChainListings(kind, cfg, world, chain).value
    ensures x.originChainId == chain
  {
    var node := world.nodes[chain];
    ScanShape(kind, world, chain, node, |node.listings|);
  }

  /** In a successful join over distinct chains, the entries of any one chain appear in
      strictly ascending listing-id order. */
  lemma {:induction false} CollectOrdered(kind: Kind, cfg: Config, world: World, chains: seq<int>)
    requires Collect(kind, cfg, world, chains).Some?
    requires forall j, j' :: 0 <= j < j' < |chains| ==> chains[j] != chains[j']
    ensures var all := Collect(kind, cfg, world, chains).value;
      forall k, k' :: 0 <= k < k' < |all| && all[k].originChainId == all[k'].originChainId ==>
        all[k].listingId < all[k'].listingId
  {
    if chains != [] {
      var init, last := chains[..|chains| - 1], chains[|chains| - 1];
      CollectOrdered(kind, cfg, world, init);
      CollectMembers(kind, cfg, world, init);
      var acc := Collect(kind, cfg, world, init).value;
      var r := ChainListings(kind, cfg, world, last).value;
      var all := acc + r;
      forall x | x in acc
        ensures x.originChainId != last
      {
        var c :| c in init && x in ChainListings(kind, cfg, world, c).value;
        ChainEntriesNameChain(kind, cfg, world, c, x);
      }
      forall x | x in r
        ensures x.originChainId == last
      {
        ChainEntriesNameChain(kind, cfg, world, last, x);
      }
      if EscrowAddress(cfg, last).Some? {
        var node := world.nodes[last];
        ScanShape(kind, world, last, node, |node.listings|);
      }
      forall k, k' | 0 <= k < k' < |all|
        ensures all[k].originChainId == all[k'].originChainId ==> all[k].listingId < all[k'].listingId
      {
        if k' < |acc| {
          assert all[k] == acc[k] && all[k'] == acc[k'];
        } else if k >= |acc| {
          assert all[k] == r[k - |acc|] && all[k'] == r[k' - |acc|];
        } else {
          assert all[k] == acc[k] && all[k'] == r[k' - |acc|];
        }
      }
    }
  }
}
