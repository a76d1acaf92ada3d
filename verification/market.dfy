/** Secondary share market: create-token-listing, buy-listed-tokens and
    cancel-token-listing. A listing holds its shares in escrow from creation
    until it is bought or cancelled. */
module Market {
  import opened Types
  import opened Fees
  import opened Balances
  import opened ContractState

  /** `create-token-listing`: the caller offers `amount` of their shares at
      `pricePerToken`. The shares leave the seller's balance at once (escrow),
      the listing gets the next listing id and starts active, and a LISTING
      entry is logged. */
  function CreateTokenListing(s: State, caller: Principal, id: nat, amount: nat,
                              pricePerToken: nat): (r: Result<Committed<nat>>)
    ensures r.Ok? <==>
      && !s.paused && HasLedger(s, id) && 0 < amount <= BalanceOf(s.ledgers[id].balances, caller)
      && pricePerToken > 0
    ensures s.paused ==> r == Err(Unauthorized)
    ensures !s.paused && !HasLedger(s, id) ==> r == Err(NotFound)
    ensures !s.paused && HasLedger(s, id) && amount == 0 ==> r == Err(InvalidTokenAmount)
    ensures !s.paused && HasLedger(s, id) && amount > BalanceOf(s.ledgers[id].balances, caller) ==>
      r == Err(InsufficientTokens)
    ensures (!s.paused && HasLedger(s, id) && 0 < amount <= BalanceOf(s.ledgers[id].balances, caller)
             && pricePerToken == 0) ==> r == Err(InvalidPrice)
    ensures r.Ok? ==> id in r.value.state.ledgers && |r.value.state.listings| == |s.listings| + 1
    ensures r.Ok? ==>
      var c := r.value;
      var l, l' := s.ledgers[id], c.state.ledgers[id];
      && c.value == |s.listings|
      && c.state.listings[..|s.listings|] == s.listings
      && c.state.listings[c.value] == Listing(caller, id, amount, pricePerToken, true)
      && l' == l.(balances := l'.balances)
      && BalanceOf(l'.balances, caller) + amount == BalanceOf(l.balances, caller)
      && (forall h :: h != caller ==> BalanceOf(l'.balances, h) == BalanceOf(l.balances, h))
      && c.state.ledgers == s.ledgers[id := l']
      && c.state.log == s.log + [TxRecord(id, caller, amount, ListingCreated)]
      && c.state == s.(ledgers := c.state.ledgers, listings := c.state.listings, log := c.state.log)
      && c.payments == []
  {
    if s.paused then Err(Unauthorized)
    else if !HasLedger(s, id) then Err(NotFound)
    else
      var l := s.ledgers[id];
      if amount == 0 then Err(InvalidTokenAmount)
      else if amount > BalanceOf(l.balances, caller) then Err(InsufficientTokens)
      else if pricePerToken == 0 then Err(InvalidPrice)
      else
        var s' := s.(ledgers := s.ledgers[id := l.(balances := Debit(l.balances, caller, amount))],
                     listings := s.listings + [Listing(caller, id, amount, pricePerToken, true)],
                     log := s.log + [TxRecord(id, caller, amount, ListingCreated)]);
        Ok(Committed(s', |s.listings|, []))
  }

  /** `buy-listed-tokens`: the caller buys an active listing whole. The price
      goes to the seller and a 2.5% fee to the treasury; the escrowed shares
      go to the caller, the listing becomes inactive and a SALE entry is
      logged. An inactive listing answers err 108. */
  function BuyListedTokens(s: State, caller: Principal, listingId: nat): (r: Result<Committed<bool>>)
    ensures r.Ok? <==>
      && !s.paused && listingId < |s.listings| && s.listings[listingId].active
      && HasLedger(s, s.listings[listingId].propertyId)
    ensures s.paused ==> r == Err(Unauthorized)
    ensures !s.paused && listingId >= |s.listings| ==> r == Err(NotFound)
    ensures !s.paused && listingId < |s.listings| && !s.listings[listingId].active ==> r == Err(NotForSale)
    ensures r.Ok? ==>
      |r.value.state.listings| == |s.listings| && s.listings[listingId].propertyId in r.value.state.ledgers
    ensures r.Ok? ==>
      var c := r.value;
      var x := s.listings[listingId];
      var l, l' := s.ledgers[x.propertyId], c.state.ledgers[x.propertyId];
      var cost := x.amount * x.pricePerToken;
      && c.value
      && c.state.listings[listingId] == x.(active := false)
      && (forall j :: 0 <= j < |s.listings| && j != listingId ==> c.state.listings[j] == s.listings[j])
      && l' == l.(balances := l'.balances)
      && BalanceOf(l'.balances, caller) == BalanceOf(l.balances, caller) + x.amount
      && (forall h :: h != caller ==> BalanceOf(l'.balances, h) == BalanceOf(l.balances, h))
      && c.state.ledgers == s.ledgers[x.propertyId := l']
      && c.state.revenue == s.revenue + Fee(cost)
      && c.state.log == s.log + [TxRecord(x.propertyId, caller, x.amount, Sale)]
      && c.state == s.(ledgers := c.state.ledgers, listings := c.state.listings,
                       revenue := c.state.revenue, log := c.state.log)
      && c.payments == [Payment(User(caller), User(x.seller), cost), Payment(User(caller), Treasury, Fee(cost))]
  {
    if s.paused then Err(Unauthorized)
    else if listingId >= |s.listings| then Err(NotFound)
    else
      var x := s.listings[listingId];
      if !x.active then Err(NotForSale)
      else if !HasLedger(s, x.propertyId) then Err(NotFound)
      else
        var l := s.ledgers[x.propertyId];
        var cost := x.amount * x.pricePerToken;
        var fee := Fee(cost);
        var s' := s.(ledgers := s.ledgers[x.propertyId := l.(balances := Credit(l.balances, caller, x.amount))],
                     listings := s.listings[listingId := x.(active := false)],
                     revenue := s.revenue + fee,
                     log := s.log + [TxRecord(x.propertyId, caller, x.amount, Sale)]);
        Ok(Committed(s', true, [Payment(User(caller), User(x.seller), cost), Payment(User(caller), Treasury, fee)]))
  }

  /** `cancel-token-listing`: the seller withdraws an active listing; the
      escrowed shares return to the seller's balance and the listing becomes
      inactive. Someone else answers err 102, an inactive listing err 108. */
  function CancelTokenListing(s: State, caller: Principal, listingId: nat): (r: Result<Committed<bool>>)
    ensures r.Ok? <==>
      && !s.paused && listingId < |s.listings| && caller == s.listings[listingId].seller
      && s.listings[listingId].active && HasLedger(s, s.listings[listingId].propertyId)
    ensures s.paused ==> r == Err(Unauthorized)
    ensures !s.paused && listingId >= |s.listings| ==> r == Err(NotFound)
    ensures !s.paused && listingId < |s.listings| && caller != s.listings[listingId].seller ==>
      r == Err(Unauthorized)
    ensures (!s.paused && listingId < |s.listings| && caller == s.listings[listingId].seller
             && !s.listings[listingId].active) ==> r == Err(NotForSale)
    ensures r.Ok? ==>
      |r.value.state.listings| == |s.listings| && s.listings[listingId].propertyId in r.value.state.ledgers
    ensures r.Ok? ==>
      var c := r.value;
      var x := s.listings[listingId];
      var l, l' := s.ledgers[x.propertyId], c.state.ledgers[x.propertyId];
      && c.value
      && c.state.listings[listingId] == x.(active := false)
      && (forall j :: 0 <= j < |s.listings| && j != listingId ==> c.state.listings[j] == s.listings[j])
      && l' == l.(balances := l'.balances)
      && BalanceOf(l'.balances, caller) == BalanceOf(l.balances, caller) + x.amount
      && (forall h :: h != caller ==> BalanceOf(l'.balances, h) == BalanceOf(l.balances, h))
      && c.state.ledgers == s.ledgers[x.propertyId := l']
      && c.state == s.(ledgers := c.state.ledgers, listings := c.state.listings)
      && c.payments == []
  {
    if s.paused then Err(Unauthorized)
    else if listingId >= |s.listings| then Err(NotFound)
    else
      var x := s.listings[listingId];
      if caller != x.seller then Err(Unauthorized)
      else if !x.active then Err(NotForSale)
      else if !HasLedger(s, x.propertyId) then Err(NotFound)
      else
        var l := s.ledgers[x.propertyId];
        var s' := s.(ledgers := s.ledgers[x.propertyId := l.(balances := Credit(l.balances, caller, x.amount))],
                     listings := s.listings[listingId := x.(active := false)]);
        Ok(Committed(s', true, []))
  }
}
