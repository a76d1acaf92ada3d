/** The contract as one state machine: a tagged call dispatched to its
    entry point, and blocks of calls mined one after another, each call
    committing on `ok` and rolling back on `err`. */
module Chain {
  import opened Types
  import opened ContractState
  import Registry
  import Tokens
  import Market
  import Admin

  /** The `(ok ...)` payload of a public entry point. */
  datatype Value = UInt(n: nat) | Bool(b: bool)

  /** The public, state-changing entry points with their arguments. */
  datatype Call =
    | AddProperty(price: nat, location: string, category: string, area: nat, description: string)
    | UpdateProperty(id: nat, price: nat, forSale: bool, description: string)
    | TokenizeProperty(id: nat, totalSupply: nat, tokenPrice: nat)
    | BuyTokens(id: nat, amount: nat)
    | TransferTokens(id: nat, amount: nat, recipient: Principal)
    | CreateTokenListing(id: nat, amount: nat, pricePerToken: nat)
    | BuyListedTokens(listingId: nat)
    | CancelTokenListing(listingId: nat)
    | BuyProperty(id: nat)
    | SetContractPause(paused: bool)
    | WithdrawPlatformFees(amount: nat)

  /** A contract call signed by `sender`. */
  datatype Tx = Tx(sender: Principal, call: Call)

  function WithUInt(r: Result<Committed<nat>>): Result<Committed<Value>>
  {
    match r
    case Ok(c) => Ok(Committed(c.state, UInt(c.value), c.payments))
    case Err(e) => Err(e)
  }

  function WithBool(r: Result<Committed<bool>>): Result<Committed<Value>>
  {
    match r
    case Ok(c) => Ok(Committed(c.state, Bool(c.value), c.payments))
    case Err(e) => Err(e)
  }

  /** One call by `caller` against state `s`. Only `set-contract-pause`
      gets past a paused contract, and only for the owner. */
  function Step(s: State, caller: Principal, call: Call): (r: Result<Committed<Value>>)
    ensures s.paused && !call.SetContractPause? ==> r == Err(Unauthorized)
    ensures r.Ok? && call.SetContractPause? ==> r.value.state.paused == call.paused
    ensures r.Ok? && !call.SetContractPause? ==> r.value.state.paused == s.paused
    ensures r.Ok? ==> r.value.state.owner == s.owner
  {
    match call
    case AddProperty(price, location, category, area, description) =>
      WithUInt(Registry.AddProperty(s, caller, price, location, category, area, description))
    case UpdateProperty(id, price, forSale, description) =>
      WithBool(Registry.UpdateProperty(s, caller, id, price, forSale, description))
    case TokenizeProperty(id, totalSupply, tokenPrice) =>
      WithBool(Tokens.TokenizeProperty(s, caller, id, totalSupply, tokenPrice))
    case BuyTokens(id, amount) =>
      WithBool(Tokens.BuyTokens(s, caller, id, amount))
    case TransferTokens(id, amount, recipient) =>
      WithBool(Tokens.TransferTokens(s, caller, id, amount, recipient))
    case CreateTokenListing(id, amount, pricePerToken) =>
      WithUInt(Market.CreateTokenListing(s, caller, id, amount, pricePerToken))
    case BuyListedTokens(listingId) =>
      WithBool(Market.BuyListedTokens(s, caller, listingId))
    case CancelTokenListing(listingId) =>
      WithBool(Market.CancelTokenListing(s, caller, listingId))
    case BuyProperty(id) =>
      WithBool(Registry.BuyProperty(s, caller, id))
    case SetContractPause(paused) =>
      WithBool(Admin.SetContractPause(s, caller, paused))
    case WithdrawPlatformFees(amount) =>
      WithBool(Admin.WithdrawPlatformFees(s, caller, amount))
  }

  /** The state after a call: the committed one on success, the unchanged
      one on failure. */
  function After(s: State, tx: Tx): State
  {
    var r := Step(s, tx.sender, tx.call);
    if r.Ok? then r.value.state else s
  }

  /** The receipt a call produces: its `(ok ...)` value or its error. */
  function Receipt(s: State, tx: Tx): Result<Value>
  {
    var r := Step(s, tx.sender, tx.call);
    if r.Ok? then Ok(r.value.value) else Err(r.error)
  }

  /** Mines `txs` in order against `s`: the final state and one receipt per
      call. An empty block changes nothing, and a block of one call is that
      call on its own, rolled back if it fails. */
  function MineBlock(s: State, txs: seq<Tx>): (r: (State, seq<Result<Value>>))
    ensures |r.1| == |txs|
    ensures |txs| == 0 ==> r == (s, [])
    ensures |txs| == 1 ==> r == (After(s, txs[0]), [Receipt(s, txs[0])])
    decreases |txs|
  {
    if |txs| == 0 then (s, [])
    else
      var rest := MineBlock(After(s, txs[0]), txs[1..]);
      assert |txs| == 1 ==> [Receipt(s, txs[0])] + rest.1 == [Receipt(s, txs[0])];
      (rest.0, [Receipt(s, txs[0])] + rest.1)
  }

  /** The state the `i`-th call of a block runs against. */
  function StateBefore(s: State, txs: seq<Tx>, i: nat): State
    requires i <= |txs|
    decreases i
  {
    if i == 0 then s else StateBefore(After(s, txs[0]), txs[1..], i - 1)
  }

  /** Block boundaries do not matter: mining `xs + ys` in one block gives the
      state and receipts of mining `xs` and then `ys`. */
  lemma {:induction false} MineBlockSplit(s: State, xs: seq<Tx>, ys: seq<Tx>)
    ensures MineBlock(s, xs + ys).0 == MineBlock(MineBlock(s, xs).0, ys).0
    ensures MineBlock(s, xs + ys).1 == MineBlock(s, xs).1 + MineBlock(MineBlock(s, xs).0, ys).1
    decreases |xs|
  {
    if |xs| == 0 {
      assert xs + ys == ys;
    } else {
      var t := After(s, xs[0]);
      assert (xs + ys)[0] == xs[0] && (xs + ys)[1..] == xs[1..] + ys;
      MineBlockSplit(t, xs[1..], ys);
      var m := MineBlock(t, xs[1..]);
      var n := MineBlock(m.0, ys);
      assert MineBlock(s, xs).0 == m.0;
      assert MineBlock(s, xs).1 == [Receipt(s, xs[0])] + m.1;
      assert MineBlock(s, xs + ys).1 == [Receipt(s, xs[0])] + (m.1 + n.1);
    }
  }

  /** The last call of a block runs against the state its earlier calls
      left, and the block ends in the state that call leaves. */
  lemma MineBlockLast(s: State, txs: seq<Tx>)
    requires |txs| > 0
    ensures var prefix := MineBlock(s, txs[..|txs| - 1]);
      && MineBlock(s, txs).0 == After(prefix.0, txs[|txs| - 1])
      && MineBlock(s, txs).1 == prefix.1 + [Receipt(prefix.0, txs[|txs| - 1])]
  {
    var last := txs[|txs| - 1];
    assert txs == txs[..|txs| - 1] + [last];
    MineBlockSplit(s, txs[..|txs| - 1], [last]);
    var p := MineBlock(s, txs[..|txs| - 1]).0;
    assert MineBlock(After(p, last), []) == (After(p, last), []);
  }

  /** The `i`-th receipt of a block is the answer of the `i`-th call against
      the state the calls before it left behind. */
  lemma {:induction false} MineBlockReceipt(s: State, txs: seq<Tx>, i: nat)
    requires i < |txs|
    ensures MineBlock(s, txs).1[i] == Receipt(StateBefore(s, txs, i), txs[i])
    decreases i
  {
    if i > 0 {
      MineBlockReceipt(After(s, txs[0]), txs[1..], i - 1);
    }
  }

  /** A block in which every call fails is rolled back as a whole: it leaves
      the state exactly as it found it. */
  lemma {:induction false} FailedBlockRollsBack(s: State, txs: seq<Tx>)
    requires forall i :: 0 <= i < |txs| ==> MineBlock(s, txs).1[i].Err?
    ensures MineBlock(s, txs).0 == s
    decreases |txs|
  {
    if |txs| > 0 {
      var rest := MineBlock(After(s, txs[0]), txs[1..]);
      assert MineBlock(s, txs).1 == [Receipt(s, txs[0])] + rest.1;
      assert MineBlock(s, txs).1[0].Err?;
      assert After(s, txs[0]) == s;
      forall i | 0 <= i < |txs[1..]|
        ensures rest.1[i].Err?
      {
        assert MineBlock(s, txs).1[i + 1] == rest.1[i];
      }
      FailedBlockRollsBack(s, txs[1..]);
    }
  }

  /** A call answered with an error is rolled back: the state is as before. */
  lemma FailedCallRollsBack(s: State, tx: Tx)
    ensures Receipt(s, tx).Err? <==> Step(s, tx.sender, tx.call).Err?
    ensures Receipt(s, tx).Err? ==> After(s, tx) == s
  {
  }
}
