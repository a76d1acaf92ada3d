/** What no call can undo: registered properties, listings and log entries
    stay; `tokenized` only goes false to true; a ledger's supply and price
    are fixed and its unsold pool only shrinks; a listing's terms are fixed
    and `active` only goes true to false. */
module History {
  import opened Types
  import opened ContractState
  import Registry
  import Tokens
  import Market
  import Admin
  import Chain
  import Invariants

  /** `s'` is a possible later state of `s`. */
  ghost predicate Evolves(s: State, s': State)
  {
    && s'.owner == s.owner
    && |s.properties| <= |s'.properties|
    && |s.listings| <= |s'.listings|
    && s.log <= s'.log
    && (forall i :: 0 <= i < |s.properties| && s.properties[i].tokenized ==> s'.properties[i].tokenized)
    && (forall i :: 0 <= i < |s.properties| ==>
          && s'.properties[i].area == s.properties[i].area
          && s'.properties[i].location == s.properties[i].location
          && s'.properties[i].category == s.properties[i].category)
    && (forall p :: p in s.ledgers ==>
          && p in s'.ledgers
          && s'.ledgers[p].totalSupply == s.ledgers[p].totalSupply
          && s'.ledgers[p].tokenPrice == s.ledgers[p].tokenPrice
          && s'.ledgers[p].remaining <= s.ledgers[p].remaining)
    && (forall j :: 0 <= j < |s.listings| ==>
          && s'.listings[j] == s.listings[j].(active := s'.listings[j].active)
          && (!s.listings[j].active ==> !s'.listings[j].active))
  }

  lemma EvolvesTransitive(s1: State, s2: State, s3: State)
    requires Evolves(s1, s2) && Evolves(s2, s3)
    ensures Evolves(s1, s3)
  {
    assert s1.log <= s3.log by {
      assert s3.log[..|s1.log|] == s3.log[..|s2.log|][..|s1.log|];
    }
  }

  lemma AddPropertyEvolves(s: State, caller: Principal, price: nat, location: string,
                            category: string, area: nat, description: string)
    ensures var r := Registry.AddProperty(s, caller, price, location, category, area, description);
      r.Ok? ==> Evolves(s, r.value.state)
  {
    var r := Registry.AddProperty(s, caller, price, location, category, area, description);
    if r.Ok? {
      var s' := r.value.state;
      assert forall i :: 0 <= i < |s.properties| ==> s'.properties[i] == s.properties[i] by {
        assert s'.properties[..|s.properties|] == s.properties;
      }
    }
  }

  lemma UpdatePropertyEvolves(s: State, caller: Principal, id: nat, newPrice: nat, forSale: bool, newDescription: string)
    ensures var r := Registry.UpdateProperty(s, caller, id, newPrice, forSale, newDescription);
      r.Ok? ==> Evolves(s, r.value.state)
  {
  }

  lemma BuyPropertyEvolves(s: State, caller: Principal, id: nat)
    ensures var r := Registry.BuyProperty(s, caller, id); r.Ok? ==> Evolves(s, r.value.state)
  {
  }

  lemma TokenizePropertyEvolves(s: State, caller: Principal, id: nat, totalSupply: nat, tokenPrice: nat)
    requires Valid(s)
    ensures var r := Tokens.TokenizeProperty(s, caller, id, totalSupply, tokenPrice);
      r.Ok? ==> Evolves(s, r.value.state)
  {
  }

  lemma BuyTokensEvolves(s: State, caller: Principal, id: nat, amount: nat)
    ensures var r := Tokens.BuyTokens(s, caller, id, amount); r.Ok? ==> Evolves(s, r.value.state)
  {
  }

  lemma TransferTokensEvolves(s: State, caller: Principal, id: nat, amount: nat, recipient: Principal)
    ensures var r := Tokens.TransferTokens(s, caller, id, amount, recipient); r.Ok? ==> Evolves(s, r.value.state)
  {
  }

  lemma CreateTokenListingEvolves(s: State, caller: Principal, id: nat, amount: nat, pricePerToken: nat)
    ensures var r := Market.CreateTokenListing(s, caller, id, amount, pricePerToken);
      r.Ok? ==> Evolves(s, r.value.state)
  {
    var r := Market.CreateTokenListing(s, caller, id, amount, pricePerToken);
    if r.Ok? {
      var s' := r.value.state;
      assert forall j :: 0 <= j < |s.listings| ==> s'.listings[j] == s.listings[j] by {
        assert s'.listings[..|s.listings|] == s.listings;
      }
    }
  }

  lemma BuyListedTokensEvolves(s: State, caller: Principal, listingId: nat)
    ensures var r := Market.BuyListedTokens(s, caller, listingId); r.Ok? ==> Evolves(s, r.value.state)
  {
  }

  lemma CancelTokenListingEvolves(s: State, caller: Principal, listingId: nat)
    ensures var r := Market.CancelTokenListing(s, caller, listingId); r.Ok? ==> Evolves(s, r.value.state)
  {
  }

  lemma SetContractPauseEvolves(s: State, caller: Principal, paused: bool)
    ensures var r := Admin.SetContractPause(s, caller, paused); r.Ok? ==> Evolves(s, r.value.state)
  {
  }

  lemma WithdrawPlatformFeesEvolves(s: State, caller: Principal, amount: nat)
    ensures var r := Admin.WithdrawPlatformFees(s, caller, amount); r.Ok? ==> Evolves(s, r.value.state)
  {
  }

  /** Every successful call only moves the state forward. */
  lemma StepEvolves(s: State, caller: Principal, call: Chain.Call)
    requires Valid(s)
    ensures var r := Chain.Step(s, caller, call); r.Ok? ==> Evolves(s, r.value.state)
  {
    match call
    case AddProperty(price, location, category, area, description) =>
      AddPropertyEvolves(s, caller, price, location, category, area, description);
    case UpdateProperty(id, price, forSale, description) =>
      UpdatePropertyEvolves(s, caller, id, price, forSale, description);
    case TokenizeProperty(id, totalSupply, tokenPrice) =>
      TokenizePropertyEvolves(s, caller, id, totalSupply, tokenPrice);
    case BuyTokens(id, amount) =>
      BuyTokensEvolves(s, caller, id, amount);
    case TransferTokens(id, amount, recipient) =>
      TransferTokensEvolves(s, caller, id, amount, recipient);
    case CreateTokenListing(id, amount, pricePerToken) =>
      CreateTokenListingEvolves(s, caller, id, amount, pricePerToken);
    case BuyListedTokens(listingId) =>
      BuyListedTokensEvolves(s, caller, listingId);
    case CancelTokenListing(listingId) =>
      CancelTokenListingEvolves(s, caller, listingId);
    case BuyProperty(id) =>
      BuyPropertyEvolves(s, caller, id);
    case SetContractPause(paused) =>
      SetContractPauseEvolves(s, caller, paused);
    case WithdrawPlatformFees(amount) =>
      WithdrawPlatformFeesEvolves(s, caller, amount);
  }

  /** A whole block only moves the state forward: failed calls leave it as
      it was and successful ones evolve it. */
  lemma {:induction false} MineBlockEvolves(s: State, txs: seq<Chain.Tx>)
    requires Valid(s)
    ensures Evolves(s, Chain.MineBlock(s, txs).0)
    decreases |txs|
  {
    if |txs| == 0 {
      assert s.log <= s.log;
    } else {
      var s1 := Chain.After(s, txs[0]);
      StepEvolves(s, txs[0].sender, txs[0].call);
      Invariants.StepKeepsValid(s, txs[0].sender, txs[0].call);
      if !Chain.Step(s, txs[0].sender, txs[0].call).Ok? {
        assert s.log <= s.log;
      }
      MineBlockEvolves(s1, txs[1..]);
      EvolvesTransitive(s, s1, Chain.MineBlock(s1, txs[1..]).0);
    }
  }

  /** Tokenization is once only: after a property is tokenized, no later
      state lets its owner (or anyone) tokenize it again. */
  lemma TokenizeOnce(s: State, s': State, caller: Principal, id: nat, totalSupply: nat, tokenPrice: nat)
    requires Evolves(s, s') && id < |s.properties| && s.properties[id].tokenized
    ensures Chain.Step(s', caller, Chain.TokenizeProperty(id, totalSupply, tokenPrice)).Err?
  {
  }
}
