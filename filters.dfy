/** The pieces of the pages' `filteredNfts` predicates. A check-box map with no box checked
    disables the chain part it drives. */
module Filters {
  import opened Base
  import opened Js
  import opened Chains

  /** The search part: an empty query lets everything through; otherwise the name must be
      present and contain the query, both lower-cased. */
  predicate NameMatches(query: string, name: Option<string>)
  {
    query == "" || (name.Some? && Includes(ToLowerCase(name.value), ToLowerCase(query)))
  }

  /** The origin-chain part. */
  predicate OriginMatches(chainFilters: map<int, bool>, origin: int)
  {
    Checked(chainFilters) == {} || origin in Checked(chainFilters)
  }

  /** The payment-chain part: some allowed payment chain is checked. */
  predicate PaymentMatches(paymentChainFilters: map<int, bool>, allowed: seq<int>)
  {
    Checked(paymentChainFilters) == {} || exists c :: c in allowed && c in Checked(paymentChainFilters)
  }
}
