# Real-estate token contract, modelled in Dafny

This project models the `real_estate_token` Clarity contract of the
tokenised real-estate repository. The contract is a marketplace for
property records. The contract owner registers properties. A property's
owner can split it into a fixed supply of fungible shares ("tokens") that
anyone can buy. Holders can give shares away or list them for resale. A
whole property can also be sold when its owner offers it. Buying shares
and buying a whole property send a 2.5% platform fee to the contract's
treasury (lines 220 and 304), and the owner can withdraw that revenue.
The model charges the same fee on a resale listing. A global pause switch
stops `add-property` (line 638). The model applies the same pause check to
every other mutating call except the switch itself.

The contract's Clarity source is not part of this model. Its behaviour
is taken from the repository's Clarinet test suite,
`tokenised_real_estate/tests/real_estate_token_test.ts`. The model is a
pure state machine whose behaviour is pinned down by those tests: each
entry point's `(ok ...)` value, its error code and its change to the
state.

Layout, one module per file:

- `types.dfy` (`Types`): principals, the error table with its `(err uN)`
  codes, and the `Result`/`Option` wrappers.
- `fees.dfy` (`Fees`): the fee `cost * 25 / 1000`, rounded down.
- `balances.dfy` (`Balances`): holder balances of one share ledger, their
  total, and how credits and debits change that total.
- `state.dfy` (`ContractState`): property, ledger, listing and log records,
  the global state, and the invariant `Valid`. Share conservation is part of
  `Valid`: unsold supply plus holder balances plus shares escrowed by active
  listings equals the total supply.
- `registry.dfy`, `tokens.dfy`, `market.dfy`, `admin.dfy`: the eleven
  public entry points. Each is a pure function from state, caller and
  arguments to `Result<Committed<T>>`. A `Committed` value holds the new
  state, the `(ok ...)` value and the STX payments the call makes.
- `queries.dfy` (`Queries`): the `get-*` read-only functions.
- `chain.dfy` (`Chain`): one tagged `Call` dispatched to its entry point,
  and `MineBlock`. `MineBlock` runs calls in order; a call that answers
  `err` is rolled back.
- `invariants.dfy`, `history.dfy`, `accounting.dfy`, `roundtrips.dfy`:
  - every call and every block keeps `Valid`;
  - ids, log entries, `tokenized` and listing `active` only move one way;
  - treasury revenue moves exactly with the fees paid in and the
    withdrawals paid out;
  - some operations undo each other.
- `scenarios.dfy` (`Scenarios`): each test of the suite, replayed block by
  block from a freshly deployed contract.

Modelling decisions:

- Ids are positions. Properties, listings and the transaction log are
  sequences. An id is the record's index, and each counter
  (`total-properties`, `total-listings`, `total-transactions`) is the
  sequence's length. So ids start at 0, are consecutive, and a failed call
  uses none.
- Listed shares are held in escrow. `create-token-listing` takes the shares
  out of the seller's balance at once. Buying the listing credits them to
  the buyer. Cancelling it credits them back to the seller. This matches the
  numbers at lines 454-460: 50 shares, 20 listed and sold, leave the seller
  with 30 and the buyer with 20.
- Error codes. The tests observe 100 (owner only), 102 (unauthorized),
  103 (already tokenized), 104 (insufficient tokens), 107 (invalid token
  amount), 108 (not for sale) and 109 (invalid price).
  - A paused contract answers 102 (line 638), so the model has no separate
    pause error.
  - A non-owner `add-property` answers 100 (line 49).
  - The remaining codes are choices of this model, because no test observes
    them; each is listed under "Left out". The model's choices are:
    - an inactive listing answers 108;
    - the other contract-owner gates (`set-contract-pause`,
      `withdraw-platform-fees`) answer 100, as `add-property` does;
    - unknown ids answer `NotFound`, coded 101;
    - a withdrawal above the revenue answers `InsufficientFunds`, coded 105.
- A share ledger exists only for a tokenized property. Buying, transferring
  or listing shares of a property without a ledger answers `NotFound`.
- `add-property` and `tokenize-property` log nothing. Line 761 counts
  exactly two log entries after two adds, one tokenize, one purchase and
  one listing. Lines 846-852 show that entry 0 is the purchase's MINT with
  10 tokens, not an entry for the tokenization.
- A registered property needs a positive price and a positive area. A zero
  price answers 109 (line 873). The model also answers 109 for a zero area;
  no test observes that case.
- `transfer-tokens` logs a TRANSFER entry whose `buyer` is the recipient.
  `cancel-token-listing` logs nothing.
- Only `add-property` is ever called while paused (line 638). Pausing the
  other mutating calls, `withdraw-platform-fees` included, is this model's
  choice. `set-contract-pause` ignores the flag, so the contract can be
  unpaused (lines 641-658).
- Fees are `cost * 25 / 1000`, rounded down. The comments at lines 220 and
  304 state a 2.5% fee. Every cost in the tests is a multiple of 40, so the
  fee is exact there (`Fees.ExactFee`).

## Model

| member | source | states |
|---|---|---|
| Registry.AddProperty | tokenised_real_estate/tests/real_estate_token_test.ts:4-51 | the owner's add succeeds exactly when unpaused with a positive price and area. The new id is the number of properties registered before. The stored record has the caller as owner, is not tokenized and is not for sale. Nothing else changes. A non-owner gets 100, a paused contract 102, a zero price 109 |
| Registry.UpdateProperty | tokenised_real_estate/tests/real_estate_token_test.ts:53-120 | only the current owner can update. The call sets the price, the for-sale flag and the description, keeps every other field and every other property, and logs nothing. Another caller gets 102, a zero price 109 |
| Registry.BuyProperty | tokenised_real_estate/tests/real_estate_token_test.ts:281-349 | succeeds exactly for an offered property. The buyer becomes owner and the offer ends. The price goes to the seller and the fee to the treasury. Revenue grows by the fee and one PROPERTY_SALE entry is logged. A property not for sale gets 108 |
| Tokens.TokenizeProperty | tokenised_real_estate/tests/real_estate_token_test.ts:122-196 | the owner's first tokenization sets `tokenized` and creates a ledger with supply = remaining = N, the given price and no holders. A second call gets 103, a zero supply 107, a zero price 109. Other ledgers do not change and nothing is logged |
| Tokens.BuyTokens | tokenised_real_estate/tests/real_estate_token_test.ts:198-279 | buying k shares moves k from the unsold pool to the buyer and leaves other holders unchanged. The buyer pays cost = k × price to the owner and the fee to the treasury, and a MINT entry is logged. k above the pool gets 104, k = 0 gets 107 |
| Tokens.TransferTokens | tokenised_real_estate/tests/real_estate_token_test.ts:469-562 | debits the sender and credits the recipient by exactly k. A self-transfer leaves every balance unchanged, but a TRANSFER entry is still logged. Other holders, supply and pool are unchanged and no STX moves. k above the sender's balance gets 104 |
| Market.CreateTokenListing | tokenised_real_estate/tests/real_estate_token_test.ts:351-402 | returns the next listing id and stores seller, property, amount, price and active = true. The listed amount leaves the seller's balance into escrow and a LISTING entry is logged. Too few shares get 104, zero shares 107, a zero price 109 |
| Market.BuyListedTokens | tokenised_real_estate/tests/real_estate_token_test.ts:404-467 | an active listing is bought whole. The buyer is credited the escrowed amount and the listing becomes inactive with its terms unchanged. The seller is paid, the fee goes to the treasury and a SALE entry is logged. An inactive listing gets 108 |
| Market.CancelTokenListing | tokenised_real_estate/tests/real_estate_token_test.ts:564-610 | only the seller can cancel an active listing. It becomes inactive and the escrowed amount returns to the seller. Another caller gets 102, an inactive listing 108 |
| Admin.SetContractPause | tokenised_real_estate/tests/real_estate_token_test.ts:612-660 | only the owner can set the pause flag, and it works while paused. A non-owner gets 100 and nothing else changes |
| Admin.WithdrawPlatformFees | tokenised_real_estate/tests/real_estate_token_test.ts:662-708 | the owner takes an amount of at most the accrued revenue from the treasury. Revenue drops by exactly that amount. A larger amount gets 105 |
| Queries.GetProperty | tokenised_real_estate/tests/real_estate_token_test.ts:23-29 | finds exactly the registered ids. In a valid state the price and area found are positive |
| Queries.GetPropertyTokens | tokenised_real_estate/tests/real_estate_token_test.ts:155-159 | reports the ledger's supply, remaining pool and token price, and finds nothing without a ledger. In a valid state a ledger is found exactly for tokenized properties, with positive supply and a pool no larger than the supply |
| Queries.GetTokenBalance | tokenised_real_estate/tests/real_estate_token_test.ts:232-237 | reports the holder's balance in the property's ledger. The count is 0 for a holder the ledger has never credited, or for a property without a ledger. In a valid state no holder has more than the supply |
| Queries.QueriesAfterBuyTokens | tokenised_real_estate/tests/real_estate_token_test.ts:232-242 | after buying k shares, the buyer's reported count rises by k and every other holder's is unchanged. The reported pool falls by k, and supply and price stay the same (10 and 990 at lines 237 and 242) |
| Queries.QueriesAfterTransfer | tokenised_real_estate/tests/real_estate_token_test.ts:505-519 | after a transfer of k between two holders, the sender's reported count falls by k and the recipient's rises by k. Every other count and the ledger summary are unchanged (75 and 25 at lines 513-519) |
| Queries.GetTokenListing | tokenised_real_estate/tests/real_estate_token_test.ts:394-400 | finds exactly the created listing ids. In a valid state a listing refers to a tokenized property with a positive amount |
| Queries.GetTransaction | tokenised_real_estate/tests/real_estate_token_test.ts:846-852 | finds exactly the logged transaction ids |
| Queries.GetContractStats | tokenised_real_estate/tests/real_estate_token_test.ts:755-762 | each total is the bound of the ids its lookup finds. Revenue and pause flag are the state's |
| Fees.Fee | tokenised_real_estate/tests/real_estate_token_test.ts:220 | the fee is 2.5% of the cost rounded down: 40·fee ≤ cost < 40·fee + 40, exact when 40 divides the cost |
| Fees.FeeMonotone | tokenised_real_estate/tests/real_estate_token_test.ts:304 | a larger cost never pays a smaller fee |
| Fees.ExactFee | tokenised_real_estate/tests/real_estate_token_test.ts:304 | for a cost divisible by 40, cost plus fee is exactly 102.5% of the cost |
| Types.CodeIsInjective | tokenised_real_estate/tests/real_estate_token_test.ts:49 | the error code table is one-to-one |
| Balances.TotalSplit | tokenised_real_estate/tests/real_estate_token_test.ts:513-519 | the holders' total is any one holder's balance plus the total of the rest |
| Balances.CreditTotal | tokenised_real_estate/tests/real_estate_token_test.ts:237-242 | crediting k shares raises the holders' total by exactly k |
| Balances.DebitTotal | tokenised_real_estate/tests/real_estate_token_test.ts:513-519 | debiting k shares lowers the holders' total by exactly k |
| ContractState.EscrowedUpdate | tokenised_real_estate/tests/real_estate_token_test.ts:462-465 | replacing one listing changes a property's escrow by exactly the difference of the two listings' holdings |
| ContractState.InitValid | tokenised_real_estate/tests/real_estate_token_test.ts:4-20 | the freshly deployed contract satisfies the state invariant |
| Invariants.TokenizePropertyKeepsValid | tokenised_real_estate/tests/real_estate_token_test.ts:148-159 | a new ledger starts conserved: supply = unsold pool, with no balances and no escrow |
| Invariants.BuyTokensKeepsValid | tokenised_real_estate/tests/real_estate_token_test.ts:237-242 | buying shares keeps supply = pool + balances + escrow |
| Invariants.TransferTokensKeepsValid | tokenised_real_estate/tests/real_estate_token_test.ts:513-519 | a transfer keeps share conservation |
| Invariants.CreateTokenListingKeepsValid | tokenised_real_estate/tests/real_estate_token_test.ts:454-460 | moving shares from a balance into a listing's escrow keeps conservation for every property |
| Invariants.BuyListedTokensKeepsValid | tokenised_real_estate/tests/real_estate_token_test.ts:454-465 | releasing escrow to the buyer keeps conservation for every property |
| Invariants.CancelTokenListingKeepsValid | tokenised_real_estate/tests/real_estate_token_test.ts:603-608 | returning escrow to the seller keeps conservation for every property |
| Invariants.StepKeepsValid | tokenised_real_estate/tests/real_estate_token_test.ts:454-460 | every successful call of any entry point keeps the whole invariant |
| Invariants.MineBlockKeepsValid | tokenised_real_estate/tests/real_estate_token_test.ts:718-752 | every block of calls keeps the invariant, with failed calls rolled back |
| Invariants.SoldSharesAccounted | tokenised_real_estate/tests/real_estate_token_test.ts:454-460 | in a valid state, sold shares = holder balances + escrowed shares, and no holder exceeds the sold shares |
| History.StepEvolves | tokenised_real_estate/tests/real_estate_token_test.ts:184-194 | no call removes a property, listing or log entry. `tokenized` never clears. Supply and share price are fixed and the unsold pool never grows. Listing terms are fixed and `active` never returns to true |
| History.MineBlockEvolves | tokenised_real_estate/tests/real_estate_token_test.ts:462-465 | the same one-way guarantees hold across any block |
| History.TokenizeOnce | tokenised_real_estate/tests/real_estate_token_test.ts:184-194 | once a property is tokenized, every later tokenization of it fails |
| Accounting.StepPayments | tokenised_real_estate/tests/real_estate_token_test.ts:220 | exactly the three purchase calls pay a principal plus a fee of 2.5% of it to the treasury. Withdrawal is the only payment out of the treasury. Every other call moves no STX |
| Accounting.StepRevenue | tokenised_real_estate/tests/real_estate_token_test.ts:688-706 | platform revenue changes by exactly the treasury's receipts minus its payouts |
| Accounting.BuyTokensTotalPaid | tokenised_real_estate/tests/real_estate_token_test.ts:220 | a share purchase whose cost is divisible by 40 pays exactly 102.5% of the cost (10 shares at 5 STX: 51.25 STX) |
| RoundTrips.CancelUndoesListing | tokenised_real_estate/tests/real_estate_token_test.ts:564-608 | cancelling a fresh listing restores every balance and every property's escrow |
| RoundTrips.TransferBackRestores | tokenised_real_estate/tests/real_estate_token_test.ts:496-519 | transferring shares and back restores every balance |
| RoundTrips.UnpauseRestores | tokenised_real_estate/tests/real_estate_token_test.ts:640-658 | pausing then unpausing gives back the identical state |
| RoundTrips.WithdrawAllEmptiesTreasury | tokenised_real_estate/tests/real_estate_token_test.ts:693-706 | withdrawing the whole revenue leaves 0, and a further positive withdrawal gets 105 |
| Chain.Step | tokenised_real_estate/tests/real_estate_token_test.ts:628-638 | while paused, every call except set-contract-pause gets 102. Only set-contract-pause changes the flag. No call changes the owner |
| Chain.MineBlock | tokenised_real_estate/tests/real_estate_token_test.ts:9-19 | a block yields one receipt per call. An empty block changes nothing. A one-call block is that call alone: its receipt and its state on success, the old state on failure |
| Chain.MineBlockLast | tokenised_real_estate/tests/real_estate_token_test.ts:826-843 | the last call of a block runs against the state its earlier calls left. The block ends in the state that call leaves, and its receipt is appended last |
| Chain.MineBlockSplit | tokenised_real_estate/tests/real_estate_token_test.ts:826-843 | mining xs + ys in one block equals mining xs and then ys |
| Chain.MineBlockReceipt | tokenised_real_estate/tests/real_estate_token_test.ts:19-20 | the i-th receipt is the i-th call's answer against the state the earlier calls left |
| Chain.FailedBlockRollsBack | tokenised_real_estate/tests/real_estate_token_test.ts:628-638 | a block in which every call fails leaves the state exactly as it found it |
| Chain.FailedCallRollsBack | tokenised_real_estate/tests/real_estate_token_test.ts:628-658 | a call answered with an error leaves the state unchanged |
| Scenarios.OwnerAddsProperty | tokenised_real_estate/tests/real_estate_token_test.ts:4-31 | owner's add returns ok 0 and stores the record as the test reads it |
| Scenarios.NonOwnerCannotAdd | tokenised_real_estate/tests/real_estate_token_test.ts:33-51 | non-owner add returns err 100 |
| Scenarios.OwnerUpdatesProperty | tokenised_real_estate/tests/real_estate_token_test.ts:53-88 | update returns ok true and sets price 5500000000 and for-sale |
| Scenarios.NonOwnerCannotUpdate | tokenised_real_estate/tests/real_estate_token_test.ts:90-120 | non-owner update returns err 102 |
| Scenarios.TokenizationWorks | tokenised_real_estate/tests/real_estate_token_test.ts:122-161 | tokenize returns ok true. Supply 1000, remaining 1000, price 5000000 |
| Scenarios.TokenizeTwiceFails | tokenised_real_estate/tests/real_estate_token_test.ts:163-196 | second tokenize returns err 103 |
| Scenarios.BuyTokensWorks | tokenised_real_estate/tests/real_estate_token_test.ts:198-244 | buying 10 returns ok. Balance 10, remaining 990, revenue 1.25 STX |
| Scenarios.BuyTooManyTokensFails | tokenised_real_estate/tests/real_estate_token_test.ts:246-279 | buying 10 of 5 returns err 104 |
| Scenarios.BuyPropertyWorks | tokenised_real_estate/tests/real_estate_token_test.ts:281-320 | buying an offered property makes the buyer owner and clears for-sale |
| Scenarios.BuyPropertyNotForSaleFails | tokenised_real_estate/tests/real_estate_token_test.ts:322-349 | buying an unoffered property returns err 108 |
| Scenarios.CreateListingWorks | tokenised_real_estate/tests/real_estate_token_test.ts:351-402 | listing returns ok 0 with the stated seller, property, amount, price and active flag |
| Scenarios.BuyListedTokensWorks | tokenised_real_estate/tests/real_estate_token_test.ts:404-467 | buyer 20, seller 30, listing inactive |
| Scenarios.TransferWorks | tokenised_real_estate/tests/real_estate_token_test.ts:469-521 | 100 split into 75 and 25 |
| Scenarios.TransferTooManyFails | tokenised_real_estate/tests/real_estate_token_test.ts:523-562 | transferring 25 of 10 returns err 104 |
| Scenarios.CancelListingWorks | tokenised_real_estate/tests/real_estate_token_test.ts:564-610 | cancel returns ok, the listing is inactive, and the seller is back from 30 to 50 |
| Scenarios.PauseWorks | tokenised_real_estate/tests/real_estate_token_test.ts:612-660 | pause ok. A paused add gets err 102. After unpause the add returns id 0 |
| Scenarios.WithdrawFeesWorks | tokenised_real_estate/tests/real_estate_token_test.ts:662-708 | withdrawing the reported revenue returns ok and leaves 0 |
| Scenarios.StatisticsWork | tokenised_real_estate/tests/real_estate_token_test.ts:710-764 | stats read 2 properties, 1 listing, 2 transactions and not paused |
| Scenarios.SecondPropertySale | tokenised_real_estate/tests/real_estate_token_test.ts:766-817 | after selling property 1, it belongs to the buyer and property 0 to the deployer |
| Scenarios.TransactionLogged | tokenised_real_estate/tests/real_estate_token_test.ts:819-854 | transaction 0 is a MINT of 10 tokens to the buyer on property 0 |
| Scenarios.EdgeCases | tokenised_real_estate/tests/real_estate_token_test.ts:856-908 | a zero price gets 109 and uses no id. A zero supply gets 107. A zero share price gets 109 |

## Left out

- The Clarinet harness (`chain.mineBlock`, `Tx.contractCall`, receipt objects, `types.*` encoding) is not modelled beyond `Chain.MineBlock`. It is test plumbing provided by the Clarinet library, not contract behaviour.
- STX transfers are not executed. Each paid call returns the payments it would make, and they always succeed. The caller's STX balance, a rejected transfer (no test observes its error code) and the native primitive's refusal of zero-amount transfers are not modelled; the native primitive is an external collaborator.
- Clarity `uint` is 128 bits, and an arithmetic overflow aborts the call. The model's integers are unbounded, so a cost or revenue past 2^128 does not abort here. No test comes near that bound.
- Block height and timestamps in log entries are not modelled. The tests never observe them.
- The length bounds of the ascii fields (location, category, description) are not modelled. They are encoding limits.
- `get-user-properties` and the per-user owned-property index it reads are not modelled. The tests at lines 807 and 814 assert nothing beyond a tuple shape.
- The order of checks within one call is pinned by the tests only in part. Elsewhere it is this model's choice: the pause flag first, then the caller, then the arguments.
- The error codes 101 (`NotFound`) and 105 (`InsufficientFunds`) are never observed in the tests. Their numbers are a choice, not a fact about the contract.
- `cancel-token-listing` writes no log entry in this model. No test reads the log after a cancellation, so a CANCEL entry is neither confirmed nor ruled out.
- Market.BuyListedTokens: the 2.5% fee to the treasury and the payment of amount × price to the seller are this model's choices, because no test observes the STX movements of a listing purchase.
- Chain.Step: the pause check on every mutating call other than `add-property` (line 638) and `set-contract-pause` is this model's choice, because no test calls those entry points while paused.
- Market.BuyListedTokens: the error for an inactive listing (108) is this model's choice, because no test buys an inactive listing.
- Market.CancelTokenListing: the error for cancelling an inactive listing (108) is this model's choice, because no test reaches that case.
- Admin.SetContractPause: a non-owner answering 100 is this model's choice, because the tests only observe 100 from `add-property` (line 49).
- Admin.WithdrawPlatformFees: a non-owner answering 100 is this model's choice, for the same reason.
- Registry.BuyProperty: the model lets a tokenized property be sold whole, and its share ledger stays as it was. The only test of this entry point (line 282) uses an untokenized property, so the model neither forbids nor restricts that case.
