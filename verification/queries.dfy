/** The read-only query surface. Queries bypass the pause flag and never
    change the state. */
module Queries {
  import opened Types
  import opened Balances
  import opened ContractState
  import Tokens

  /** `get-property`: the record registered under `id`, if any. */
  function GetProperty(s: State, id: nat): (r: Option<Property>)
    ensures r.Some? <==> id < |s.properties|
    ensures r.Some? ==> r.value == s.properties[id]
    ensures Valid(s) && r.Some? ==> r.value.price > 0 && r.value.area > 0
  {
    if id < |s.properties| then Some(s.properties[id]) else None
  }

  /** The `get-property-tokens` tuple. */
  datatype TokenInfo = TokenInfo(totalSupply: nat, tokensRemaining: nat, tokenPrice: nat)

  /** `get-property-tokens`: the share ledger summary of property `id`. In a
      valid state it exists exactly for tokenized properties, and the unsold
      pool never exceeds the supply. */
  function GetPropertyTokens(s: State, id: nat): (r: Option<TokenInfo>)
    ensures r.Some? <==> id in s.ledgers
    ensures r.Some? ==> r.value.totalSupply == s.ledgers[id].totalSupply
                        && r.value.tokensRemaining == s.ledgers[id].remaining
                        && r.value.tokenPrice == s.ledgers[id].tokenPrice
    ensures Valid(s) ==> (r.Some? <==> id < |s.properties| && s.properties[id].tokenized)
    ensures Valid(s) && r.Some? ==> 0 < r.value.totalSupply && r.value.tokensRemaining <= r.value.totalSupply
  {
    if id in s.ledgers then
      var l := s.ledgers[id];
      Some(TokenInfo(l.totalSupply, l.remaining, l.tokenPrice))
    else None
  }

  /** `get-token-balance`: the `token-count` of `holder` in property `id`;
      zero for a holder (or property) never seen. In a valid state no holder
      owns more than the property's supply. */
  function GetTokenBalance(s: State, id: nat, holder: Principal): (count: nat)
    ensures id !in s.ledgers ==> count == 0
    ensures id in s.ledgers && holder !in s.ledgers[id].balances ==> count == 0
    ensures id in s.ledgers && holder in s.ledgers[id].balances ==> count == s.ledgers[id].balances[holder]
    ensures Valid(s) && id in s.ledgers ==> count <= s.ledgers[id].totalSupply
  {
    var count := TokenBalance(s, id, holder);
    if id in s.ledgers then
      BalanceBelowTotal(s.ledgers[id].balances, holder);
      count
    else count
  }

  /** `get-token-listing`: the listing stored under `listingId`, if any. */
  function GetTokenListing(s: State, listingId: nat): (r: Option<Listing>)
    ensures r.Some? <==> listingId < |s.listings|
    ensures r.Some? ==> r.value == s.listings[listingId]
    ensures Valid(s) && r.Some? ==> r.value.propertyId in s.ledgers && r.value.amount > 0
  {
    if listingId < |s.listings| then Some(s.listings[listingId]) else None
  }

  /** `get-transaction`: the log entry with id `txId`, if any. */
  function GetTransaction(s: State, txId: nat): (r: Option<TxRecord>)
    ensures r.Some? <==> txId < |s.log|
    ensures r.Some? ==> r.value == s.log[txId]
  {
    if txId < |s.log| then Some(s.log[txId]) else None
  }

  /** The `get-contract-stats` tuple. */
  datatype Stats = Stats(
    totalProperties: nat,
    totalListings: nat,
    totalTransactions: nat,
    platformRevenue: nat,
    contractPaused: bool)

  /** `get-contract-stats`: each total is also the id the next creation of
      its kind receives, so every id below it can be looked up. */
  function GetContractStats(s: State): (r: Stats)
    ensures forall id: nat :: GetProperty(s, id).Some? <==> id < r.totalProperties
    ensures forall id: nat :: GetTokenListing(s, id).Some? <==> id < r.totalListings
    ensures forall id: nat :: GetTransaction(s, id).Some? <==> id < r.totalTransactions
    ensures r.platformRevenue == s.revenue && r.contractPaused == s.paused
  {
    Stats(|s.properties|, |s.listings|, |s.log|, s.revenue, s.paused)
  }
  /** What the queries report after a share purchase: the buyer's count
      rises by the amount bought, every other holder's count is unchanged,
      and the unsold pool falls by that amount with supply and price kept. */
  lemma QueriesAfterBuyTokens(s: State, caller: Principal, id: nat, amount: nat, h: Principal)
    requires Tokens.BuyTokens(s, caller, id, amount).Ok?
    ensures var s' := Tokens.BuyTokens(s, caller, id, amount).value.state;
      && GetPropertyTokens(s, id).Some? && GetPropertyTokens(s', id).Some?
      && GetPropertyTokens(s', id).value.tokensRemaining + amount == GetPropertyTokens(s, id).value.tokensRemaining
      && GetPropertyTokens(s', id).value.totalSupply == GetPropertyTokens(s, id).value.totalSupply
      && GetPropertyTokens(s', id).value.tokenPrice == GetPropertyTokens(s, id).value.tokenPrice
      && GetTokenBalance(s', id, caller) == GetTokenBalance(s, id, caller) + amount
      && (h != caller ==> GetTokenBalance(s', id, h) == GetTokenBalance(s, id, h))
  {
  }

  /** What the queries report after a transfer between two holders: the
      sender's count falls and the recipient's rises by the amount, every
      other count and the ledger summary are unchanged. */
  lemma QueriesAfterTransfer(s: State, caller: Principal, id: nat, amount: nat,
                             recipient: Principal, h: Principal)
    requires Tokens.TransferTokens(s, caller, id, amount, recipient).Ok? && caller != recipient
    ensures var s' := Tokens.TransferTokens(s, caller, id, amount, recipient).value.state;
      && GetPropertyTokens(s', id) == GetPropertyTokens(s, id)
      && GetTokenBalance(s', id, caller) + amount == GetTokenBalance(s, id, caller)
      && GetTokenBalance(s', id, recipient) == GetTokenBalance(s, id, recipient) + amount
      && (h != caller && h != recipient ==> GetTokenBalance(s', id, h) == GetTokenBalance(s, id, h))
  {
  }
}
