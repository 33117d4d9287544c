/** The listing dialog: a price field and one payment-chain check box per supported chain,
    all checked at first; "List" hands the price and the checked chain ids to the page. */
module ListingModal {
  import opened Base
  import opened Chains

  /** How `parseFloat(price)` classifies the entered text: a positive number, zero or a
      negative number, or NaN (text that does not start like a number). */
  datatype PriceValue = Positive | NonPositive | NotANumber

  /** What a click on "List" does: alert about the price, alert about the chains, or call
      `onList` with the entered price text and the checked chain ids. */
  datatype ListClick = PriceRejected | NoChainSelected | List(price: string, paymentChainIds: seq<int>)

  /** `handleChainSelection`: flip one box; a box never set before reads as unchecked, so
      its first flip checks it. Every other box keeps its state. */
  function Toggle(m: map<int, bool>, chainId: int): (r: map<int, bool>)
    ensures r.Keys == m.Keys + {chainId}
    ensures r[chainId] <==> !(chainId in m && m[chainId])
    ensures forall c :: c in m && c != chainId ==> r[c] == m[c]
  {
    m[chainId := !(chainId in m && m[chainId])]
  }

  /** Flipping a box twice restores the boxes when it was already in the map. */
  lemma ToggleTwice(m: map<int, bool>, chainId: int)
    requires chainId in m
    ensures Toggle(Toggle(m, chainId), chainId) == m
  {
  }

  function IsSelected(m: map<int, bool>): int -> bool
  {
    c => c in m && m[c]
  }

  /** `paymentChainIds`: the checked ids, in `Object.entries` order, which for integer keys
      is ascending. The dialog only ever holds the supported chains' boxes. */
  function SelectedIds(m: map<int, bool>): (r: seq<int>)
    ensures forall c :: c in r <==> c in KeyOrder && c in m && m[c]
    ensures |r| <= |KeyOrder|
  {
    Filter(KeyOrder, IsSelected(m))
  }

  /** The ids come out strictly ascending (so without repetition). */
  lemma SelectedIdsAscending(m: map<int, bool>)
    ensures StrictlyAscending(SelectedIds(m))
  {
    assert KeyOrder[0] < KeyOrder[1] < KeyOrder[2];
    FilterAscending(KeyOrder, IsSelected(m));
  }

  /** With every box checked, the ids are all three chains. */
  lemma AllSelectedIds()
    ensures SelectedIds(AllChecked) == KeyOrder
  {
    FilterKeepsAll(KeyOrder, IsSelected(AllChecked));
  }

  /** `handleListClick`: the price test comes first, then the chain test. An empty price and
      a price `parseFloat` reads as non-positive are refused; NaN passes the test. */
  function ListClickOf(price: string, parsed: PriceValue, selectedChains: map<int, bool>): (r: ListClick)
    ensures r == PriceRejected <==> price == "" || parsed == NonPositive
    ensures r == NoChainSelected <==>
      price != "" && parsed != NonPositive && forall c :: c in KeyOrder ==> !(c in selectedChains && selectedChains[c])
    ensures r.List? ==> r.price == price && r.paymentChainIds == SelectedIds(selectedChains) && r.paymentChainIds != []
  {
    if price == "" || parsed == NonPositive then PriceRejected
    else
      var ids := SelectedIds(selectedChains);
      if |ids| == 0 then NoChainSelected
      else
        assert ids[0] in ids;
        List(price, ids)
  }

  /** The dialog's form state. */
  class ListingForm {
    var price: string
    var selectedChains: map<int, bool>
    var isChainsOpen: bool

    /** The boxes cover exactly the supported chains. */
    predicate Valid()
      reads this
    {
      selectedChains.Keys == {EthSepolia, BaseSepolia, ArbitrumSepolia}
    }

    /** `checked={!!selectedChains[chain.id]}` */
    predicate IsChecked(chainId: int)
      reads this
    {
      chainId in selectedChains && selectedChains[chainId]
    }

    constructor ()
      ensures Valid() && price == "" && selectedChains == AllChecked && !isChainsOpen
    {
      price, selectedChains, isChainsOpen := "", AllChecked, false;
    }

    method SetPrice(text: string)
      requires Valid()
      modifies this`price
      ensures Valid() && price == text
    {
      price := text;
    }

    method ToggleChainsOpen()
      requires Valid()
      modifies this`isChainsOpen
      ensures Valid() && isChainsOpen == !old(isChainsOpen)
    {
      isChainsOpen := !isChainsOpen;
    }

    /** A box exists only for a supported chain. */
    method HandleChainSelection(chainId: int)
      requires Valid() && chainId in SupportedChains
      modifies this`selectedChains
      ensures Valid()
      ensures selectedChains == Toggle(old(selectedChains), chainId)
      ensures IsChecked(chainId) == !old(IsChecked(chainId))
    {
      selectedChains := selectedChains[chainId := !(chainId in selectedChains && selectedChains[chainId])];
    }

    /** With the boxes covering the supported chains, the submitted ids are every key that
        `Object.entries` finds set, in its ascending key order. */
    method HandleListClick(parsed: PriceValue) returns (r: ListClick)
      requires Valid()
      ensures r == ListClickOf(price, parsed, selectedChains)
      ensures r.List? ==> forall c :: c in r.paymentChainIds <==> c in selectedChains && selectedChains[c]
    {
      if price == "" || parsed == NonPositive {
        return PriceRejected;
      }
      var ids := SelectedIds(selectedChains);
      if |ids| == 0 {
        return NoChainSelected;
      }
      r := List(price, ids);
    }
  }

  /** A fresh dialog with a positive price offers the listing on every supported chain. */
  lemma FreshFormListsEverywhere(price: string)
    requires price != ""
    ensures ListClickOf(price, Positive, AllChecked) == List(price, KeyOrder)
  {
    AllSelectedIds();
  }
}
