/** Tokenization entry points: tokenize-property, buy-tokens and
    transfer-tokens. */
module Tokens {
  import opened Types
  import opened Fees
  import opened Balances
  import opened ContractState

  /** `tokenize-property`: the property's owner splits it into `totalSupply`
      shares priced at `tokenPrice` each. All shares start unsold, the
      property is marked tokenized, and nothing is logged. A second call
      answers err 103. */
  function TokenizeProperty(s: State, caller: Principal, id: nat, totalSupply: nat,
                            tokenPrice: nat): (r: Result<Committed<bool>>)
    ensures r.Ok? <==>
      && !s.paused && id < |s.properties| && caller == s.properties[id].owner
      && !s.properties[id].tokenized && totalSupply > 0 && tokenPrice > 0
    ensures s.paused ==> r == Err(Unauthorized)
    ensures !s.paused && id >= |s.properties| ==> r == Err(NotFound)
    ensures !s.paused && id < |s.properties| && caller != s.properties[id].owner ==> r == Err(Unauthorized)
    ensures !s.paused && id < |s.properties| && caller == s.properties[id].owner && s.properties[id].tokenized ==>
      r == Err(AlreadyTokenized)
    ensures !s.paused && id < |s.properties| && caller == s.properties[id].owner && !s.properties[id].tokenized ==>
      (totalSupply == 0 ==> r == Err(InvalidTokenAmount)) &&
      (totalSupply > 0 && tokenPrice == 0 ==> r == Err(InvalidPrice))
    ensures r.Ok? ==> |r.value.state.properties| == |s.properties| && id in r.value.state.ledgers
    ensures r.Ok? ==>
      var c := r.value;
      var l := c.state.ledgers[id];
      && c.value
      && c.state.properties[id] == s.properties[id].(tokenized := true)
      && (forall j :: 0 <= j < |s.properties| && j != id ==> c.state.properties[j] == s.properties[j])
      && l.totalSupply == totalSupply && l.remaining == totalSupply && l.tokenPrice == tokenPrice
      && (forall h :: BalanceOf(l.balances, h) == 0)
      && (forall p :: p != id ==> (p in c.state.ledgers <==> p in s.ledgers))
      && (forall p :: p != id && p in s.ledgers ==> c.state.ledgers[p] == s.ledgers[p])
      && c.state == s.(properties := c.state.properties, ledgers := c.state.ledgers)
      && c.payments == []
  {
    if s.paused then Err(Unauthorized)
    else if id >= |s.properties| then Err(NotFound)
    else
      var p := s.properties[id];
      if caller != p.owner then Err(Unauthorized)
      else if p.tokenized then Err(AlreadyTokenized)
      else if totalSupply == 0 then Err(InvalidTokenAmount)
      else if tokenPrice == 0 then Err(InvalidPrice)
      else
        var s' := s.(properties := s.properties[id := p.(tokenized := true)],
                     ledgers := s.ledgers[id := Ledger(totalSupply, totalSupply, tokenPrice, map[])]);
        Ok(Committed(s', true, []))
  }

  /** `buy-tokens`: the caller buys `amount` unsold shares at the ledger's
      token price. The cost goes to the property owner and a 2.5% fee to the
      treasury; the shares move from the unsold pool to the caller and a MINT
      entry is logged. */
  function BuyTokens(s: State, caller: Principal, id: nat, amount: nat): (r: Result<Committed<bool>>)
    ensures r.Ok? <==> !s.paused && HasLedger(s, id) && 0 < amount <= s.ledgers[id].remaining
    ensures s.paused ==> r == Err(Unauthorized)
    ensures !s.paused && !HasLedger(s, id) ==> r == Err(NotFound)
    ensures !s.paused && HasLedger(s, id) && amount == 0 ==> r == Err(InvalidTokenAmount)
    ensures !s.paused && HasLedger(s, id) && amount > s.ledgers[id].remaining ==> r == Err(InsufficientTokens)
    ensures r.Ok? ==> id in r.value.state.ledgers
    ensures r.Ok? ==>
      var c := r.value;
      var l, l' := s.ledgers[id], c.state.ledgers[id];
      var cost := amount * l.tokenPrice;
      && c.value
      && l'.remaining + amount == l.remaining
      && l'.totalSupply == l.totalSupply && l'.tokenPrice == l.tokenPrice
      && BalanceOf(l'.balances, caller) == BalanceOf(l.balances, caller) + amount
      && (forall h :: h != caller ==> BalanceOf(l'.balances, h) == BalanceOf(l.balances, h))
      && c.state.ledgers == s.ledgers[id := l']
      && c.state.revenue == s.revenue + Fee(cost)
      && c.state.log == s.log + [TxRecord(id, caller, amount, Mint)]
      && c.state == s.(ledgers := c.state.ledgers, revenue := c.state.revenue, log := c.state.log)
      && c.payments == [Payment(User(caller), User(s.properties[id].owner), cost),
                        Payment(User(caller), Treasury, Fee(cost))]
  {
    if s.paused then Err(Unauthorized)
    else if !HasLedger(s, id) then Err(NotFound)
    else
      var l := s.ledgers[id];
      if amount == 0 then Err(InvalidTokenAmount)
      else if amount > l.remaining then Err(InsufficientTokens)
      else
        var cost := amount * l.tokenPrice;
        var fee := Fee(cost);
        var l' := l.(remaining := l.remaining - amount, balances := Credit(l.balances, caller, amount));
        var s' := s.(ledgers := s.ledgers[id := l'],
                     revenue := s.revenue + fee,
                     log := s.log + [TxRecord(id, caller, amount, Mint)]);
        Ok(Committed(s', true, [Payment(User(caller), User(s.properties[id].owner), cost),
                                Payment(User(caller), Treasury, fee)]))
  }

  /** `transfer-tokens`: the caller gives `amount` of their shares to
      `recipient`, without payment or fee; a TRANSFER entry naming the
      recipient is logged. Transferring to oneself leaves every balance as it was. */
  function TransferTokens(s: State, caller: Principal, id: nat, amount: nat,
                          recipient: Principal): (r: Result<Committed<bool>>)
    ensures r.Ok? <==>
      !s.paused && HasLedger(s, id) && 0 < amount <= BalanceOf(s.ledgers[id].balances, caller)
    ensures s.paused ==> r == Err(Unauthorized)
    ensures !s.paused && !HasLedger(s, id) ==> r == Err(NotFound)
    ensures !s.paused && HasLedger(s, id) && amount > BalanceOf(s.ledgers[id].balances, caller) ==>
      r == Err(InsufficientTokens)
    ensures !s.paused && HasLedger(s, id) && amount == 0 ==> r == Err(InvalidTokenAmount)
    ensures r.Ok? ==> id in r.value.state.ledgers
    ensures r.Ok? ==>
      var c := r.value;
      var l, l' := s.ledgers[id], c.state.ledgers[id];
      && c.value
      && l' == l.(balances := l'.balances)
      && (caller != recipient ==>
            && BalanceOf(l'.balances, caller) + amount == BalanceOf(l.balances, caller)
            && BalanceOf(l'.balances, recipient) == BalanceOf(l.balances, recipient) + amount)
      && (caller == recipient ==> BalanceOf(l'.balances, caller) == BalanceOf(l.balances, caller))
      && (forall h :: h != caller && h != recipient ==> BalanceOf(l'.balances, h) == BalanceOf(l.balances, h))
      && c.state.ledgers == s.ledgers[id := l']
      && c.state.log == s.log + [TxRecord(id, recipient, amount, Transfer)]
      && c.state == s.(ledgers := c.state.ledgers, log := c.state.log)
      && c.payments == []
  {
    if s.paused then Err(Unauthorized)
    else if !HasLedger(s, id) then Err(NotFound)
    else
      var l := s.ledgers[id];
      if amount > BalanceOf(l.balances, caller) then Err(InsufficientTokens)
      else if amount == 0 then Err(InvalidTokenAmount)
      else
        var moved := Credit(Debit(l.balances, caller, amount), recipient, amount);
        var s' := s.(ledgers := s.ledgers[id := l.(balances := moved)],
                     log := s.log + [TxRecord(id, recipient, amount, Transfer)]);
        Ok(Committed(s', true, []))
  }
}
