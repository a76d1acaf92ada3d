/** Operations that undo one another: cancelling a fresh listing, sending
    shares back, unpausing, and withdrawing the whole treasury. */
module RoundTrips {
  import opened Types
  import opened Balances
  import opened ContractState
  import opened Tokens
  import opened Market
  import opened Admin

  /** Cancelling a listing right after creating it gives the seller back
      exactly the escrowed shares: every balance and every property's
      escrow is as before, and only the (now inactive) listing remains. */
  lemma CancelUndoesListing(s: State, seller: Principal, id: nat, amount: nat, pricePerToken: nat)
    requires CreateTokenListing(s, seller, id, amount, pricePerToken).Ok?
    ensures var c := CreateTokenListing(s, seller, id, amount, pricePerToken).value;
      var r := CancelTokenListing(c.state, seller, c.value);
      && r.Ok?
      && (forall h :: TokenBalance(r.value.state, id, h) == TokenBalance(s, id, h))
      && (forall p :: Escrowed(r.value.state.listings, p) == Escrowed(s.listings, p))
      && r.value.state.listings == s.listings + [Listing(seller, id, amount, pricePerToken, false)]
  {
    var c := CreateTokenListing(s, seller, id, amount, pricePerToken).value;
    var x := Listing(seller, id, amount, pricePerToken, true);
    assert c.state.listings == s.listings + [x];
    var r := CancelTokenListing(c.state, seller, c.value);
    assert r.value.state.listings == s.listings + [x.(active := false)];
    forall p
      ensures Escrowed(r.value.state.listings, p) == Escrowed(s.listings, p)
    {
      EscrowedAppend(s.listings, x.(active := false), p);
    }
  }

  /** Sending shares to someone and having them sent back restores every
      balance of the ledger. */
  lemma TransferBackRestores(s: State, a: Principal, b: Principal, id: nat, amount: nat)
    requires TransferTokens(s, a, id, amount, b).Ok?
    ensures var s1 := TransferTokens(s, a, id, amount, b).value.state;
      var r := TransferTokens(s1, b, id, amount, a);
      && r.Ok?
      && (forall h :: TokenBalance(r.value.state, id, h) == TokenBalance(s, id, h))
      && r.value.state.ledgers[id].remaining == s.ledgers[id].remaining
  {
  }

  /** Pausing and then unpausing gives back the very same state. */
  lemma UnpauseRestores(s: State)
    requires !s.paused
    ensures var s1 := SetContractPause(s, s.owner, true).value.state;
      && s1.paused
      && SetContractPause(s1, s.owner, false) == Ok(Committed(s, true, []))
  {
  }

  /** Withdrawing the whole accrued revenue leaves nothing, so a further
      positive withdrawal answers err 105 until new fees accrue. */
  lemma WithdrawAllEmptiesTreasury(s: State, amount: nat)
    requires !s.paused && amount > 0
    ensures var r := WithdrawPlatformFees(s, s.owner, s.revenue);
      && r.Ok? && r.value.state.revenue == 0
      && WithdrawPlatformFees(r.value.state, s.owner, amount) == Err(InsufficientFunds)
  {
  }
}
