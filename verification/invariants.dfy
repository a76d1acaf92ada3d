/** The state invariant (share conservation and friends) is kept by every
    entry point, and by every block of calls. */
module Invariants {
  import opened Types
  import opened Balances
  import opened ContractState
  import opened Registry
  import opened Tokens
  import opened Market
  import opened Admin
  import Chain

  /** No listing of property `p` holds anything in escrow when no listing
      mentions `p`. */
  lemma {:induction false} EscrowedNone(ls: seq<Listing>, p: nat)
    requires forall j :: 0 <= j < |ls| ==> ls[j].propertyId != p
    ensures Escrowed(ls, p) == 0
    decreases |ls|
  {
    if |ls| > 0 {
      EscrowedNone(ls[..|ls| - 1], p);
    }
  }

  lemma AddPropertyKeepsValid(s: State, caller: Principal, price: nat, location: string,
                              category: string, area: nat, description: string)
    requires Valid(s)
    ensures var r := AddProperty(s, caller, price, location, category, area, description);
      r.Ok? ==> Valid(r.value.state)
  {
  }

  lemma UpdatePropertyKeepsValid(s: State, caller: Principal, id: nat, newPrice: nat,
                                 forSale: bool, newDescription: string)
    requires Valid(s)
    ensures var r := UpdateProperty(s, caller, id, newPrice, forSale, newDescription);
      r.Ok? ==> Valid(r.value.state)
  {
  }

  lemma BuyPropertyKeepsValid(s: State, caller: Principal, id: nat)
    requires Valid(s)
    ensures var r := BuyProperty(s, caller, id); r.Ok? ==> Valid(r.value.state)
  {
  }

  lemma TokenizePropertyKeepsValid(s: State, caller: Principal, id: nat, totalSupply: nat, tokenPrice: nat)
    requires Valid(s)
    ensures var r := TokenizeProperty(s, caller, id, totalSupply, tokenPrice);
      r.Ok? ==> Valid(r.value.state)
  {
    var r := TokenizeProperty(s, caller, id, totalSupply, tokenPrice);
    if r.Ok? {
      var s' := r.value.state;
      assert id !in s.ledgers;
      EscrowedNone(s.listings, id);
      assert Total(map[]) == 0;
      assert Conserved(s', id);
    }
  }

  lemma BuyTokensKeepsValid(s: State, caller: Principal, id: nat, amount: nat)
    requires Valid(s)
    ensures var r := BuyTokens(s, caller, id, amount); r.Ok? ==> Valid(r.value.state)
  {
    var r := BuyTokens(s, caller, id, amount);
    if r.Ok? {
      var l := s.ledgers[id];
      CreditTotal(l.balances, caller, amount);
      assert Conserved(r.value.state, id);
    }
  }

  lemma TransferTokensKeepsValid(s: State, caller: Principal, id: nat, amount: nat, recipient: Principal)
    requires Valid(s)
    ensures var r := TransferTokens(s, caller, id, amount, recipient); r.Ok? ==> Valid(r.value.state)
  {
    var r := TransferTokens(s, caller, id, amount, recipient);
    if r.Ok? {
      var m := s.ledgers[id].balances;
      DebitTotal(m, caller, amount);
      CreditTotal(Debit(m, caller, amount), recipient, amount);
      assert Conserved(r.value.state, id);
    }
  }

  lemma CreateTokenListingKeepsValid(s: State, caller: Principal, id: nat, amount: nat, pricePerToken: nat)
    requires Valid(s)
    ensures var r := CreateTokenListing(s, caller, id, amount, pricePerToken);
      r.Ok? ==> Valid(r.value.state)
  {
    var r := CreateTokenListing(s, caller, id, amount, pricePerToken);
    if r.Ok? {
      var s' := r.value.state;
      var x := Listing(caller, id, amount, pricePerToken, true);
      assert s'.listings == s.listings + [x];
      DebitTotal(s.ledgers[id].balances, caller, amount);
      forall p | p in s'.ledgers
        ensures Conserved(s', p)
      {
        EscrowedAppend(s.listings, x, p);
      }
    }
  }

  lemma BuyListedTokensKeepsValid(s: State, caller: Principal, listingId: nat)
    requires Valid(s)
    ensures var r := BuyListedTokens(s, caller, listingId); r.Ok? ==> Valid(r.value.state)
  {
    var r := BuyListedTokens(s, caller, listingId);
    if r.Ok? {
      var s' := r.value.state;
      var x := s.listings[listingId];
      assert s'.listings == s.listings[listingId := x.(active := false)];
      CreditTotal(s.ledgers[x.propertyId].balances, caller, x.amount);
      forall p | p in s'.ledgers
        ensures Conserved(s', p)
      {
        EscrowedUpdate(s.listings, listingId, x.(active := false), p);
      }
    }
  }

  lemma CancelTokenListingKeepsValid(s: State, caller: Principal, listingId: nat)
    requires Valid(s)
    ensures var r := CancelTokenListing(s, caller, listingId); r.Ok? ==> Valid(r.value.state)
  {
    var r := CancelTokenListing(s, caller, listingId);
    if r.Ok? {
      var s' := r.value.state;
      var x := s.listings[listingId];
      assert s'.listings == s.listings[listingId := x.(active := false)];
      CreditTotal(s.ledgers[x.propertyId].balances, caller, x.amount);
      forall p | p in s'.ledgers
        ensures Conserved(s', p)
      {
        EscrowedUpdate(s.listings, listingId, x.(active := false), p);
      }
    }
  }

  lemma SetContractPauseKeepsValid(s: State, caller: Principal, paused: bool)
    requires Valid(s)
    ensures var r := SetContractPause(s, caller, paused); r.Ok? ==> Valid(r.value.state)
  {
  }

  lemma WithdrawPlatformFeesKeepsValid(s: State, caller: Principal, amount: nat)
    requires Valid(s)
    ensures var r := WithdrawPlatformFees(s, caller, amount); r.Ok? ==> Valid(r.value.state)
  {
  }

  /** Every successful call keeps the invariant. */
  lemma StepKeepsValid(s: State, caller: Principal, call: Chain.Call)
    requires Valid(s)
    ensures var r := Chain.Step(s, caller, call); r.Ok? ==> Valid(r.value.state)
  {
    match call
    case AddProperty(price, location, category, area, description) =>
      AddPropertyKeepsValid(s, caller, price, location, category, area, description);
    case UpdateProperty(id, price, forSale, description) =>
      UpdatePropertyKeepsValid(s, caller, id, price, forSale, description);
    case TokenizeProperty(id, totalSupply, tokenPrice) =>
      TokenizePropertyKeepsValid(s, caller, id, totalSupply, tokenPrice);
    case BuyTokens(id, amount) =>
      BuyTokensKeepsValid(s, caller, id, amount);
    case TransferTokens(id, amount, recipient) =>
      TransferTokensKeepsValid(s, caller, id, amount, recipient);
    case CreateTokenListing(id, amount, pricePerToken) =>
      CreateTokenListingKeepsValid(s, caller, id, amount, pricePerToken);
    case BuyListedTokens(listingId) =>
      BuyListedTokensKeepsValid(s, caller, listingId);
    case CancelTokenListing(listingId) =>
      CancelTokenListingKeepsValid(s, caller, listingId);
    case BuyProperty(id) =>
      BuyPropertyKeepsValid(s, caller, id);
    case SetContractPause(paused) =>
      SetContractPauseKeepsValid(s, caller, paused);
    case WithdrawPlatformFees(amount) =>
      WithdrawPlatformFeesKeepsValid(s, caller, amount);
  }

  /** Share conservation holds after any block mined from the deployed contract
      or from any other valid state. */
  lemma {:induction false} MineBlockKeepsValid(s: State, txs: seq<Chain.Tx>)
    requires Valid(s)
    ensures Valid(Chain.MineBlock(s, txs).0)
    decreases |txs|
  {
    if |txs| > 0 {
      StepKeepsValid(s, txs[0].sender, txs[0].call);
      MineBlockKeepsValid(Chain.After(s, txs[0]), txs[1..]);
    }
  }

  /** Conservation, stated for one holder's view: in a valid state, the
      shares a property has sold equal the balances of its holders plus the
      shares escrowed by its active listings, and no holder has more than
      was sold. */
  lemma SoldSharesAccounted(s: State, p: nat, h: Principal)
    requires Valid(s) && p in s.ledgers
    ensures s.ledgers[p].totalSupply - s.ledgers[p].remaining
            == Total(s.ledgers[p].balances) + Escrowed(s.listings, p)
    ensures TokenBalance(s, p, h) <= s.ledgers[p].totalSupply - s.ledgers[p].remaining
  {
    BalanceBelowTotal(s.ledgers[p].balances, h);
  }
}
