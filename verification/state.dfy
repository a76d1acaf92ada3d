/** The whole contract state: registry, share ledgers, listings, the
    transaction log and the global variables, plus the invariant every
    entry point preserves. */
module ContractState {
  import opened Types
  import opened Balances

  /** A registered real-estate property; its id is its index in the registry. */
  datatype Property = Property(
    owner: Principal,
    price: nat,
    location: string,
    category: string,
    area: nat,
    description: string,
    tokenized: bool,
    forSale: bool)

  /** The share ledger of a tokenized property. */
  datatype Ledger = Ledger(
    totalSupply: nat,
    remaining: nat,
    tokenPrice: nat,
    balances: BalanceMap)

  /** A secondary-market offer; while active, it holds its shares in escrow. */
  datatype Listing = Listing(
    seller: Principal,
    propertyId: nat,
    amount: nat,
    pricePerToken: nat,
    active: bool)

  /** The transaction types the contract logs. */
  datatype TxKind = Mint | ListingCreated | Sale | Transfer | PropertySale
  {
    /** The ascii tag stored in the log entry. */
    function Tag(): string
    {
      match this
      case Mint => "MINT"
      case ListingCreated => "LISTING"
      case Sale => "SALE"
      case Transfer => "TRANSFER"
      case PropertySale => "PROPERTY_SALE"
    }
  }

  /** One entry of the append-only transaction log; its id is its index. */
  datatype TxRecord = TxRecord(propertyId: nat, buyer: Principal, tokens: nat, kind: TxKind)

  /** A party to an STX movement: a user or the contract's own treasury. */
  datatype Account = User(who: Principal) | Treasury

  /** An STX movement a successful call issues through the native transfer primitive. */
  datatype Payment = Payment(from: Account, to: Account, amount: nat)

  /** The global state. The property, listing and transaction counters are
      the lengths of the three sequences, so ids are sequential from 0. */
  datatype State = State(
    owner: Principal,
    paused: bool,
    revenue: nat,
    properties: seq<Property>,
    ledgers: map<nat, Ledger>,
    listings: seq<Listing>,
    log: seq<TxRecord>)

  /** What a successful call commits: the new state, its `(ok ...)` value
      and the STX payments it makes. */
  datatype Committed<+T> = Committed(state: State, value: T, payments: seq<Payment>)

  /** The state right after deployment by `deployer`. */
  function Init(deployer: Principal): (s: State)
    ensures s.owner == deployer && !s.paused && s.revenue == 0
    ensures |s.properties| == 0 && |s.listings| == 0 && |s.log| == 0 && s.ledgers == map[]
  {
    State(deployer, false, 0, [], map[], [], [])
  }

  /** The property exists and has a share ledger. */
  predicate HasLedger(s: State, id: nat)
  {
    id < |s.properties| && id in s.ledgers
  }

  /** Balance of holder `h` in the ledger of property `id`; zero without a ledger. */
  function TokenBalance(s: State, id: nat, h: Principal): nat
  {
    if id in s.ledgers then BalanceOf(s.ledgers[id].balances, h) else 0
  }

  /** Shares of property `p` that listing `l` holds in escrow. */
  function Held(l: Listing, p: nat): nat
  {
    if l.active && l.propertyId == p then l.amount else 0
  }

  /** Shares of property `p` held in escrow by all active listings. */
  function Escrowed(ls: seq<Listing>, p: nat): nat
  {
    if |ls| == 0 then 0 else Escrowed(ls[..|ls| - 1], p) + Held(ls[|ls| - 1], p)
  }

  /** Appending a listing adds its escrow and nothing else. */
  lemma EscrowedAppend(ls: seq<Listing>, l: Listing, p: nat)
    ensures Escrowed(ls + [l], p) == Escrowed(ls, p) + Held(l, p)
  {
    assert (ls + [l])[..|ls|] == ls;
  }

  /** Replacing one listing changes the escrow by the difference of the two. */
  lemma {:induction false} EscrowedUpdate(ls: seq<Listing>, i: nat, l: Listing, p: nat)
    requires i < |ls|
    ensures Escrowed(ls[i := l], p) + Held(ls[i], p) == Escrowed(ls, p) + Held(l, p)
    decreases |ls|
  {
    var n := |ls| - 1;
    if i < n {
      EscrowedUpdate(ls[..n], i, l, p);
      assert ls[i := l][..n] == ls[..n][i := l];
    } else {
      assert ls[i := l][..n] == ls[..n];
    }
  }

  /** Share conservation for one ledger: unsold supply, holder balances and
      escrowed listings together account for the whole supply. */
  ghost predicate Conserved(s: State, p: nat)
    requires p in s.ledgers
  {
    var l := s.ledgers[p];
    l.totalSupply == l.remaining + Total(l.balances) + Escrowed(s.listings, p)
  }

  /** The state invariant. */
  ghost predicate Valid(s: State)
  {
    // every property was registered with a positive price and area
    && (forall i :: 0 <= i < |s.properties| ==> s.properties[i].price > 0 && s.properties[i].area > 0)
    // a property carries a ledger exactly when it is tokenized
    && (forall i :: 0 <= i < |s.properties| ==> (s.properties[i].tokenized <==> i in s.ledgers))
    // ledgers belong to registered properties, have positive supply and price, and conserve shares
    && (forall p :: p in s.ledgers ==>
          && p < |s.properties|
          && s.ledgers[p].totalSupply > 0
          && s.ledgers[p].tokenPrice > 0
          && Conserved(s, p))
    // listings reference tokenized properties and were created with positive amount and price
    && (forall j :: 0 <= j < |s.listings| ==>
          && s.listings[j].propertyId in s.ledgers
          && s.listings[j].amount > 0
          && s.listings[j].pricePerToken > 0)
  }

  /** The deployed contract satisfies the invariant. */
  lemma InitValid(deployer: Principal)
    ensures Valid(Init(deployer))
  {
  }
}
