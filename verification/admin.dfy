/** Access control and the fee treasury: set-contract-pause and
    withdraw-platform-fees. */
module Admin {
  import opened Types
  import opened ContractState

  /** `set-contract-pause`: the contract owner sets the pause flag. This is
      the one mutating call a paused contract still accepts, so it can be
      unpaused. */
  function SetContractPause(s: State, caller: Principal, paused: bool): (r: Result<Committed<bool>>)
    ensures r.Ok? <==> caller == s.owner
    ensures caller != s.owner ==> r == Err(OwnerOnly)
    ensures r.Ok? ==> r.value.value && r.value.state.paused == paused
    ensures r.Ok? ==> r.value.state == s.(paused := r.value.state.paused) && r.value.payments == []
  {
    if caller != s.owner then Err(OwnerOnly)
    else Ok(Committed(s.(paused := paused), true, []))
  }

  /** `withdraw-platform-fees`: the contract owner takes `amount` of the
      accrued platform revenue out of the treasury. */
  function WithdrawPlatformFees(s: State, caller: Principal, amount: nat): (r: Result<Committed<bool>>)
    ensures r.Ok? <==> !s.paused && caller == s.owner && amount <= s.revenue
    ensures s.paused ==> r == Err(Unauthorized)
    ensures !s.paused && caller != s.owner ==> r == Err(OwnerOnly)
    ensures !s.paused && caller == s.owner && amount > s.revenue ==> r == Err(InsufficientFunds)
    ensures r.Ok? ==>
      var c := r.value;
      && c.value
      && c.state.revenue + amount == s.revenue
      && c.state == s.(revenue := c.state.revenue)
      && c.payments == [Payment(Treasury, User(caller), amount)]
  {
    if s.paused then Err(Unauthorized)
    else if caller != s.owner then Err(OwnerOnly)
    else if amount > s.revenue then Err(InsufficientFunds)
    else Ok(Committed(s.(revenue := s.revenue - amount), true, [Payment(Treasury, User(caller), amount)]))
  }
}
