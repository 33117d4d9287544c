/** The chain registry: the three supported test networks, the per-chain escrow
    configuration, and how request fields and filter maps name chains. */
module Chains {
  import opened Base
  import opened Js

  const EthSepolia: int := 11155111
  const BaseSepolia: int := 84532
  const ArbitrumSepolia: int := 421614

  /** The `supportedChains` table, in its own order: the order in which allow-lists are
      probed and chain check-boxes are shown. */
  const SupportedChains: seq<int> := [EthSepolia, BaseSepolia, ArbitrumSepolia]

  /** The same chains in the order JavaScript enumerates the integer keys of an object
      (ascending), which is how `Object.keys` / `Object.entries` walk the per-chain tables. */
  const KeyOrder: seq<int> := [BaseSepolia, ArbitrumSepolia, EthSepolia]

  /** The initial value of every chain check-box map: all three chains checked. */
  const AllChecked: map<int, bool> := map[EthSepolia := true, BaseSepolia := true, ArbitrumSepolia := true]

  /** Configuration read from the environment at start-up: the escrow contract address
      per chain (a missing or empty variable means no escrow on that chain). */
  datatype Config = Config(escrow: map<int, string>)

  /** `escrowContracts[chain]` when it is set (truthy). Only supported chains have an entry. */
  function EscrowAddress(cfg: Config, chain: int): (r: Option<string>)
    ensures r.Some? <==> chain in SupportedChains && chain in cfg.escrow && cfg.escrow[chain] != ""
    ensures r.Some? ==> r.value == cfg.escrow[chain]
  {
    if chain in SupportedChains && chain in cfg.escrow && cfg.escrow[chain] != "" then Some(cfg.escrow[chain])
    else None
  }

  /** The non-negative integer a request field names, both as a key of the per-chain tables
      and as a `uint256` contract argument: a number, or the canonical decimal spelling of one. */
  function IdArg(v: Json): (r: Option<nat>)
    ensures v.Num? ==> (r.Some? <==> v.n >= 0) && (r.Some? ==> r.value == v.n)
    ensures v.Str? ==> r == ParseDecimal(v.s)
    ensures !v.Num? && !v.Str? ==> r.None?
    // a string names an id only when it is exactly that id's decimal spelling
    ensures v.Str? && r.Some? ==> ToDecimal(r.value) == v.s
  {
    match v
    case Num(n) => if n >= 0 then Some(n) else None
    case Str(s) =>
      if IsCanonicalDecimal(s) then DecimalOfParse(s); ParseDecimal(s)
      else ParseDecimal(s)
    case _ => None
  }

  /** A number and its decimal spelling name the same chain or listing. */
  lemma IdArgOfSpelling(n: nat)
    ensures IdArg(Str(ToDecimal(n))) == IdArg(Num(n)) == Some(n)
  {
    ParseOfDecimal(n);
  }

  /** The ids a check-box map has checked:
      `Object.entries(m).filter(([, on]) => on).map(([id]) => parseInt(id))`, as a set. */
  function Checked(m: map<int, bool>): (r: set<int>)
    ensures forall c :: c in r <==> c in m && m[c]
  {
    set c | c in m && m[c]
  }

  /** Setting one box (`{...prev, [c]: b}`) adds or removes exactly that id. */
  lemma CheckedUpdate(m: map<int, bool>, c: int, b: bool)
    ensures Checked(m[c := b]) == if b then Checked(m) + {c} else Checked(m) - {c}
  {
  }

  /** `supportedChains.filter((chain, index) => allowed[index])`: the supported chains the
      escrow's `isPaymentChainAllowed` accepts, in supported-chain order. */
  function AllowedChainsOf(paymentChains: set<int>): (r: seq<int>)
    ensures forall c :: c in r <==> c in SupportedChains && c in paymentChains
    ensures |r| <= |SupportedChains|
  {
    Filter(SupportedChains, MemberOf(paymentChains))
  }

  function MemberOf(s: set<int>): int -> bool
  {
    c => c in s
  }

  /** The allowed chains appear in supported-chain order, each once. */
  lemma AllowedChainsOrdered(paymentChains: set<int>)
    ensures AllowedChainsOf(paymentChains) ==
      (if EthSepolia in paymentChains then [EthSepolia] else []) +
      (if BaseSepolia in paymentChains then [BaseSepolia] else []) +
      (if ArbitrumSepolia in paymentChains then [ArbitrumSepolia] else [])
  {
    var keep := MemberOf(paymentChains);
    assert SupportedChains == [EthSepolia] + ([BaseSepolia] + [ArbitrumSepolia]);
    FilterConcat([EthSepolia], [BaseSepolia] + [ArbitrumSepolia], keep);
    FilterConcat([BaseSepolia], [ArbitrumSepolia], keep);
    FilterSingleton(EthSepolia, keep);
    FilterSingleton(BaseSepolia, keep);
    FilterSingleton(ArbitrumSepolia, keep);
  }
}
