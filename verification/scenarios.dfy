/** The repository's test scenarios replayed against the model, block by
    block, from a freshly deployed contract. */
module Scenarios {
  import opened Types
  import opened ContractState
  import opened Chain
  import opened Queries

  const Deployer: Principal := "deployer"
  const Wallet1: Principal := "wallet_1"
  const Wallet2: Principal := "wallet_2"

  function Add(price: nat, location: string, category: string, area: nat, description: string): Tx
  {
    Tx(Deployer, AddProperty(price, location, category, area, description))
  }

  /** The apartment most tests register first. */
  const Apartment: Tx := Add(5000000000, "123 Main St, NYC", "Apartment", 1200, "Luxury apartment")
  /** The house of the second-property tests. */
  const House: Tx := Add(3000000000, "456 Oak Ave", "House", 2500, "Family house")
  /** The apartment tokenized into 1000 shares at 5 STX. */
  const Tokenize1000: Tx := Tx(Deployer, TokenizeProperty(0, 1000, 5000000))

  /** A freshly deployed contract. */
  const Genesis: State := Init(Deployer)

  // Owner registers a property: id 0, owned by the deployer, neither tokenized nor for sale.
  lemma OwnerAddsProperty()
    ensures var (s1, r1) := MineBlock(Genesis, [Add(5000000000, "123 Main St, NYC", "Apartment", 1200,
                                                    "Luxury 2-bedroom apartment in downtown Manhattan")]);
      && r1 == [Ok(UInt(0))]
      && var p := GetProperty(s1, 0).value;
      && p.owner == Deployer && p.price == 5000000000 && p.location == "123 Main St, NYC"
      && !p.tokenized && !p.forSale
  {
  }

  // Anyone else gets err 100.
  lemma NonOwnerCannotAdd()
    ensures MineBlock(Genesis, [Tx(Wallet1, AddProperty(3000000000, "456 Oak Ave", "House", 2500, "Single family home"))]).1
            == [Err(OwnerOnly)]
    ensures OwnerOnly.Code() == 100
  {
  }

  // The owner updates price and for-sale flag.
  lemma OwnerUpdatesProperty()
    ensures var (s1, _) := MineBlock(Genesis, [Apartment]);
      var (s2, r2) := MineBlock(s1, [Tx(Deployer, UpdateProperty(0, 5500000000, true,
                                                                 "Updated luxury 2-bedroom apartment with city views"))]);
      && r2 == [Ok(Bool(true))]
      && GetProperty(s2, 0).value.price == 5500000000
      && GetProperty(s2, 0).value.forSale
  {
  }

  // Someone else gets err 102.
  lemma NonOwnerCannotUpdate()
    ensures var (s1, _) := MineBlock(Genesis, [Apartment]);
      MineBlock(s1, [Tx(Wallet1, UpdateProperty(0, 6000000000, true, "Unauthorized update"))]).1 == [Err(Unauthorized)]
    ensures Unauthorized.Code() == 102
  {
  }

  // Tokenization sets the flag and a full unsold pool.
  lemma TokenizationWorks()
    ensures var (s1, _) := MineBlock(Genesis, [Apartment]);
      var (s2, r2) := MineBlock(s1, [Tokenize1000]);
      && r2 == [Ok(Bool(true))]
      && GetProperty(s2, 0).value.tokenized
      && GetPropertyTokens(s2, 0) == Some(TokenInfo(1000, 1000, 5000000))
  {
  }

  // A second tokenization gets err 103.
  lemma TokenizeTwiceFails()
    ensures var (s1, _) := MineBlock(Genesis, [Apartment, Tokenize1000]);
      MineBlock(s1, [Tx(Deployer, TokenizeProperty(0, 500, 10000000))]).1 == [Err(AlreadyTokenized)]
    ensures AlreadyTokenized.Code() == 103
  {
  }

  // Buying 10 shares: 990 left, buyer holds 10, the treasury earns 1.25 STX.
  lemma BuyTokensWorks()
    ensures var (s1, _) := MineBlock(Genesis, [Apartment, Tokenize1000]);
      var (s2, r2) := MineBlock(s1, [Tx(Wallet1, BuyTokens(0, 10))]);
      && r2 == [Ok(Bool(true))]
      && GetTokenBalance(s2, 0, Wallet1) == 10
      && GetPropertyTokens(s2, 0).value.tokensRemaining == 990
      && GetContractStats(s2).platformRevenue == 1250000
  {
  }

  // Buying more than the unsold pool gets err 104.
  lemma BuyTooManyTokensFails()
    ensures var (s1, _) := MineBlock(Genesis, [Apartment, Tx(Deployer, TokenizeProperty(0, 5, 5000000))]);
      MineBlock(s1, [Tx(Wallet1, BuyTokens(0, 10))]).1 == [Err(InsufficientTokens)]
    ensures InsufficientTokens.Code() == 104
  {
  }

  // Buying a whole property offered for sale transfers it and ends the offer.
  lemma BuyPropertyWorks()
    ensures var (s1, _) := MineBlock(Genesis, [Add(1000000000, "456 Oak Ave", "House", 2500, "Single family home"),
                                               Tx(Deployer, UpdateProperty(0, 1000000000, true, "Single family home for sale"))]);
      var (s2, r2) := MineBlock(s1, [Tx(Wallet1, BuyProperty(0))]);
      && r2 == [Ok(Bool(true))]
      && GetProperty(s2, 0).value.owner == Wallet1
      && !GetProperty(s2, 0).value.forSale
  {
  }

  // A property not offered for sale gets err 108.
  lemma BuyPropertyNotForSaleFails()
    ensures var (s1, _) := MineBlock(Genesis, [Add(1000000000, "456 Oak Ave", "House", 2500, "Single family home")]);
      MineBlock(s1, [Tx(Wallet1, BuyProperty(0))]).1 == [Err(NotForSale)]
    ensures NotForSale.Code() == 108
  {
  }

  // Listing 20 of 50 shares at 6 STX: listing 0, active, with the stated terms.
  lemma CreateListingWorks()
    ensures var (s1, _) := MineBlock(Genesis, [Apartment, Tokenize1000]);
      var (s2, _) := MineBlock(s1, [Tx(Wallet1, BuyTokens(0, 50))]);
      var (s3, r3) := MineBlock(s2, [Tx(Wallet1, CreateTokenListing(0, 20, 6000000))]);
      && r3 == [Ok(UInt(0))]
      && GetTokenListing(s3, 0) == Some(Listing(Wallet1, 0, 20, 6000000, true))
  {
  }

  // Buying the listing: buyer 20, seller 30, listing inactive.
  lemma BuyListedTokensWorks()
    ensures var (s1, _) := MineBlock(Genesis, [Apartment, Tokenize1000]);
      var (s2, _) := MineBlock(s1, [Tx(Wallet1, BuyTokens(0, 50)), Tx(Wallet1, CreateTokenListing(0, 20, 6000000))]);
      var (s3, r3) := MineBlock(s2, [Tx(Wallet2, BuyListedTokens(0))]);
      && r3 == [Ok(Bool(true))]
      && GetTokenBalance(s3, 0, Wallet2) == 20
      && GetTokenBalance(s3, 0, Wallet1) == 30
      && !GetTokenListing(s3, 0).value.active
  {
  }

  // Transferring 25 of 100 shares: 75 and 25.
  lemma TransferWorks()
    ensures var (s1, _) := MineBlock(Genesis, [Apartment, Tokenize1000, Tx(Wallet1, BuyTokens(0, 100))]);
      var (s2, r2) := MineBlock(s1, [Tx(Wallet1, TransferTokens(0, 25, Wallet2))]);
      && r2 == [Ok(Bool(true))]
      && GetTokenBalance(s2, 0, Wallet1) == 75
      && GetTokenBalance(s2, 0, Wallet2) == 25
  {
  }

  // Transferring more than one holds gets err 104.
  lemma TransferTooManyFails()
    ensures var (s1, _) := MineBlock(Genesis, [Apartment, Tokenize1000, Tx(Wallet1, BuyTokens(0, 10))]);
      MineBlock(s1, [Tx(Wallet1, TransferTokens(0, 25, Wallet2))]).1 == [Err(InsufficientTokens)]
  {
  }

  // Cancelling deactivates the listing and returns the 20 escrowed shares.
  lemma CancelListingWorks()
    ensures var (s1, _) := MineBlock(Genesis, [Apartment, Tokenize1000, Tx(Wallet1, BuyTokens(0, 50)),
                                               Tx(Wallet1, CreateTokenListing(0, 20, 6000000))]);
      var (s2, r2) := MineBlock(s1, [Tx(Wallet1, CancelTokenListing(0))]);
      && r2 == [Ok(Bool(true))]
      && GetTokenListing(s2, 0) == Some(Listing(Wallet1, 0, 20, 6000000, false))
      && GetTokenBalance(s1, 0, Wallet1) == 30
      && GetTokenBalance(s2, 0, Wallet1) == 50
  {
    var setup := [Apartment, Tokenize1000];
    var trade := [Tx(Wallet1, BuyTokens(0, 50)), Tx(Wallet1, CreateTokenListing(0, 20, 6000000))];
    assert setup + trade == [Apartment, Tokenize1000, Tx(Wallet1, BuyTokens(0, 50)),
                             Tx(Wallet1, CreateTokenListing(0, 20, 6000000))];
    MineBlockSplit(Genesis, setup, trade);
    var (t, _) := MineBlock(Genesis, setup);
    var (u, _) := MineBlock(t, trade);
    assert u.listings == [Listing(Wallet1, 0, 20, 6000000, true)];
    assert GetTokenBalance(u, 0, Wallet1) == 30;
  }

  // Paused: add-property gets err 102 and uses no id; unpaused, the next add gets id 0.
  lemma PauseWorks()
    ensures var (s1, r1) := MineBlock(Genesis, [Tx(Deployer, SetContractPause(true))]);
      var (s2, r2) := MineBlock(s1, [Apartment]);
      var (s3, _) := MineBlock(s2, [Tx(Deployer, SetContractPause(false))]);
      var (s4, r4) := MineBlock(s3, [Apartment]);
      && r1 == [Ok(Bool(true))]
      && r2 == [Err(Unauthorized)]
      && r4 == [Ok(UInt(0))]
  {
  }

  // Withdrawing the whole platform revenue leaves zero.
  lemma WithdrawFeesWorks()
    ensures var (s1, _) := MineBlock(Genesis, [Apartment, Tokenize1000, Tx(Wallet1, BuyTokens(0, 10))]);
      var revenue := GetContractStats(s1).platformRevenue;
      var (s2, r2) := MineBlock(s1, [Tx(Deployer, WithdrawPlatformFees(revenue))]);
      && r2 == [Ok(Bool(true))]
      && GetContractStats(s2).platformRevenue == 0
  {
  }

  // Two adds, one tokenize, one buy and one listing: 2 properties, 1 listing, 2 transactions.
  lemma StatisticsWork()
    ensures var (s1, _) := MineBlock(Genesis, [Apartment, House]);
      var (s2, _) := MineBlock(s1, [Tokenize1000, Tx(Wallet1, BuyTokens(0, 50)),
                                    Tx(Wallet1, CreateTokenListing(0, 20, 6000000))]);
      GetContractStats(s2) == Stats(2, 1, 2, 6250000, false)
  {
    var (s1, _) := MineBlock(Genesis, [Apartment, House]);
    var trade := [Tx(Wallet1, BuyTokens(0, 50)), Tx(Wallet1, CreateTokenListing(0, 20, 6000000))];
    assert [Tokenize1000] + trade == [Tokenize1000, Tx(Wallet1, BuyTokens(0, 50)),
                                      Tx(Wallet1, CreateTokenListing(0, 20, 6000000))];
    MineBlockSplit(s1, [Tokenize1000], trade);
    var (t, _) := MineBlock(s1, [Tokenize1000]);
    assert t.ledgers[0] == Ledger(1000, 1000, 5000000, map[]) && !t.paused && |t.log| == 0;
    var (u, _) := MineBlock(t, trade);
    assert |u.properties| == 2 && |u.listings| == 1 && |u.log| == 2 && u.revenue == 6250000;
  }

  // Selling the second property moves it to the buyer; the first stays with the deployer.
  lemma SecondPropertySale()
    ensures var (s1, _) := MineBlock(Genesis, [Apartment, House]);
      var (s2, _) := MineBlock(s1, [Tx(Deployer, UpdateProperty(1, 3000000000, true, "Family house for sale")),
                                    Tx(Wallet1, BuyProperty(1))]);
      && GetProperty(s2, 0).value.owner == Deployer
      && GetProperty(s2, 1).value.owner == Wallet1
  {
  }

  // Transaction 0 is the MINT of the first share purchase.
  lemma TransactionLogged()
    ensures var (s1, _) := MineBlock(Genesis, [Apartment, Tokenize1000, Tx(Wallet1, BuyTokens(0, 10))]);
      && GetTransaction(s1, 0) == Some(TxRecord(0, Wallet1, 10, Mint))
      && GetTransaction(s1, 0).value.kind.Tag() == "MINT"
  {
  }

  // Zero price: err 109 and no id used; zero supply: err 107; zero share price: err 109.
  lemma EdgeCases()
    ensures var (s1, r1) := MineBlock(Genesis, [Add(0, "123 Main St, NYC", "Apartment", 1200, "Luxury apartment")]);
      var (s2, r2) := MineBlock(s1, [Apartment]);
      var (s3, r3) := MineBlock(s2, [Tx(Deployer, TokenizeProperty(0, 0, 5000000))]);
      var (s4, r4) := MineBlock(s3, [Tx(Deployer, TokenizeProperty(0, 1000, 0))]);
      && r1 == [Err(InvalidPrice)]
      && r2 == [Ok(UInt(0))]
      && r3 == [Err(InvalidTokenAmount)]
      && r4 == [Err(InvalidPrice)]
    ensures InvalidTokenAmount.Code() == 107 && InvalidPrice.Code() == 109
  {
  }
}
