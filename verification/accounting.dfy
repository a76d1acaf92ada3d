/** Fee accounting: every paid call splits the buyer's payment into the
    principal for the counterparty and a 2.5% fee for the treasury, and the
    accrued platform revenue moves exactly with the treasury's payments. */
module Accounting {
  import opened Types
  import opened Fees
  import opened ContractState
  import Chain

  /** STX paid into the treasury by `ps`. */
  function TreasuryIn(ps: seq<Payment>): nat
  {
    if |ps| == 0 then 0
    else TreasuryIn(ps[..|ps| - 1]) + (if ps[|ps| - 1].to == Treasury then ps[|ps| - 1].amount else 0)
  }

  /** STX paid out of the treasury by `ps`. */
  function TreasuryOut(ps: seq<Payment>): nat
  {
    if |ps| == 0 then 0
    else TreasuryOut(ps[..|ps| - 1]) + (if ps[|ps| - 1].from == Treasury then ps[|ps| - 1].amount else 0)
  }

  /** `ps` is a paid purchase by `payer`: the principal to a counterparty,
      then 2.5% of it to the treasury. */
  predicate FeeSkimmed(ps: seq<Payment>, payer: Principal)
  {
    && |ps| == 2
    && ps[0].from == User(payer) && ps[0].to != Treasury
    && ps[1] == Payment(User(payer), Treasury, Fee(ps[0].amount))
  }

  /** The three purchase flows, and only they, charge the platform fee;
      withdrawal is the only payment out of the treasury; every other call
      moves no STX at all. */
  lemma StepPayments(s: State, caller: Principal, call: Chain.Call)
    ensures var r := Chain.Step(s, caller, call);
      r.Ok? ==>
        var ps := r.value.payments;
        && ((call.BuyTokens? || call.BuyListedTokens? || call.BuyProperty?) <==> FeeSkimmed(ps, caller))
        && (call.WithdrawPlatformFees? ==> ps == [Payment(Treasury, User(caller), call.amount)])
        && ((!call.BuyTokens? && !call.BuyListedTokens? && !call.BuyProperty? && !call.WithdrawPlatformFees?)
            ==> ps == [])
  {
  }

  /** A paid purchase puts exactly its fee into the treasury and takes nothing out. */
  lemma SkimmedTotals(ps: seq<Payment>, payer: Principal)
    requires FeeSkimmed(ps, payer)
    ensures TreasuryIn(ps) == Fee(ps[0].amount) && TreasuryOut(ps) == 0
  {
    var first := ps[..|ps| - 1];
    assert first == [ps[0]] && first[..|first| - 1] == [];
    assert TreasuryIn(first) == 0 && TreasuryOut(first) == 0;
  }

  /** The accrued platform revenue changes by exactly what the treasury
      receives minus what it pays out. */
  lemma StepRevenue(s: State, caller: Principal, call: Chain.Call)
    ensures var r := Chain.Step(s, caller, call);
      r.Ok? ==> r.value.state.revenue + TreasuryOut(r.value.payments) == s.revenue + TreasuryIn(r.value.payments)
  {
    var r := Chain.Step(s, caller, call);
    if r.Ok? {
      var ps := r.value.payments;
      StepPayments(s, caller, call);
      if FeeSkimmed(ps, caller) {
        SkimmedTotals(ps, caller);
        // Each purchase flow adds the fee on its own principal to revenue;
        // the split into the three calls lets each flow's contract apply.
        match call
        case BuyTokens(id, amount) =>
          assert r.value.state.revenue == s.revenue + Fee(ps[0].amount);
        case BuyListedTokens(listingId) =>
          assert r.value.state.revenue == s.revenue + Fee(ps[0].amount);
        case BuyProperty(id) =>
          assert r.value.state.revenue == s.revenue + Fee(ps[0].amount);
      } else if call.WithdrawPlatformFees? {
        assert ps[..0] == [];
      }
    }
  }

  /** Buying shares: the buyer pays `amount` times the token price to the
      property owner plus the fee, i.e. 102.5% of the cost when the cost is a
      multiple of 40 micro-STX (10 shares at 5 STX cost 51.25 STX). */
  lemma BuyTokensTotalPaid(s: State, caller: Principal, id: nat, amount: nat)
    requires Chain.Step(s, caller, Chain.BuyTokens(id, amount)).Ok?
    requires (amount * s.ledgers[id].tokenPrice) % 40 == 0
    ensures var ps := Chain.Step(s, caller, Chain.BuyTokens(id, amount)).value.payments;
      (ps[0].amount + ps[1].amount) * 40 == amount * s.ledgers[id].tokenPrice * 41
  {
    ExactFee(amount * s.ledgers[id].tokenPrice);
  }
}
