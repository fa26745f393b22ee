/**
 The records of the exchange database, one datatype per table, and the result type that
 stands for "return a value or throw". A row's id is its index in its table: tables only
 ever grow at the end, as AUTO_INCREMENT keys do.
 */
module Domain {
  import opened Sums

  type Player = string
  type Id = nat

  const INT64_MAX: int := 0x7fff_ffff_ffff_ffff
  const INT32_MAX: int := 0x7fff_ffff

  datatype Option<+T> = None | Some(value: T)

  /** One constructor for each kind of exception the service throws. */
  datatype Error =
    | IdentityIncomplete | QuantityRange | PriceNotPositive | ProductTooLarge
    | MarketMissing | MarketInactive | BindingMissing | TargetBound | FingerprintCollision
    | AccountMissing | InsufficientBalance | NegativeAmount | BalanceOverflow | BalanceNegative
    | ReserveInvariant | FundingTooLarge | NotABuy | NotASell
    | OrderMissing | NotOwner | OrderNotOpen
    | DeliveryMissing | ClaimMissing | ClaimCompletedDifferently | ClaimTooLarge | ClaimNotApplied
    | NothingToClaim | ReservationInvariant
    | EscrowMissing | EscrowTooSmall | EscrowNotPrepared | EscrowNotTagged | EscrowNotOrdered
    | TransferMissing | TransferClosed | TransferNotApplied | TransferApplied
    | ListingMissing | ListingSettling | ListingUnavailable | PriceChanged | SelfPurchase | ListingUnbound
    | NotAwaitingPickup | DepthRange | InventoryInsufficient
    | LogTooLarge | PriceRange | WholeNumberRange | PriceStep | ExternalMissing | ExternalInsufficient | OutOfRange
    | NbtTruncated | NbtTooLarge | NbtUnknownType | NbtBadHeader | NbtBadRoot | NbtStringTooLarge

  datatype Result<+T> = Ok(value: T) | Err(error: Error) {
    predicate IsFailure() { Err? }
    function PropagateFailure<U>(): Result<U>
      requires Err?
    {
      Err(error)
    }
    function Extract(): T
      requires Ok?
    {
      value
    }
  }

  datatype Side = Buy | Sell
  datatype OrderType = Limit | Market
  datatype OrderStatus = Open | Partial | Filled | Canceled

  /** A row of `exchange_orders`. */
  datatype Order = Order(market: Id, owner: Player, side: Side, kind: OrderType, price: int,
                         original: int, remaining: int, reserved: int, status: OrderStatus)

  /** A row of `exchange_trades`. */
  datatype Trade = Trade(market: Id, buyOrder: Id, sellOrder: Id, buyer: Player, seller: Player,
                         price: int, quantity: int)

  datatype DeliveryReason = TradeBuy | MarketRemainder | OrderCanceled | MarketClosed | EscrowExcess

  /** A row of `exchange_deliveries`. */
  datatype Delivery = Delivery(owner: Player, market: Id, quantity: int, claimed: int, reserved: int,
                               reason: DeliveryReason)

  datatype LedgerReason =
    | AccountOpened | AdminAdjustment
    | BuyOrderReserve | MarketBuyTrade | PriceImprovementRefund | TradeProceeds
    | OrderCancelRefund | MarketCloseRefund
    | UmoneyWithdrawReserved | UmoneyDeposit | UmoneyWithdrawRefund
    | FramePurchase | FrameSale

  /** A row of `exchange_balance_ledger`; the reference type follows from the reason. */
  datatype Entry = Entry(player: Player, delta: int, reason: LedgerReason, reference: Option<Id>)

  datatype Request = Request(market: Id, player: Player, name: string, side: Side, kind: OrderType,
                             price: int, quantity: int)

  datatype Execution = Execution(order: Id, requested: int, filled: int, open: int, gross: int, balance: int)

  datatype TargetKind = Block | Actor

  /** The exact identity of an item: type, data value and encoded NBT. */
  datatype Item = Item(kind: string, data: int, nbt: seq<char>)

  /** A row of `exchange_books`; its fingerprint is the unique key. */
  datatype Book = Book(item: Item, fingerprint: int)

  /** A row of `exchange_markets`: one generation of a physical trading point. */
  datatype Venue = Venue(book: Id, target: string, kind: TargetKind, item: Item, active: bool, reopenable: bool)

  datatype Config = Config(initialBalance: int, maxOrderQuantity: int)

  predicate ConfigOk(cfg: Config)
  {
    0 <= cfg.initialBalance <= INT64_MAX && 0 < cfg.maxOrderQuantity <= INT32_MAX
  }

  /** The tables that matching and settlement write. */
  datatype Floor = Floor(accounts: map<Player, int>, ledger: seq<Entry>, orders: seq<Order>,
                         trades: seq<Trade>, deliveries: seq<Delivery>)

  function Min(a: int, b: int): int { if a <= b then a else b }

  /** Dividing first and comparing is the same as multiplying and comparing. */
  lemma QuotientBound(n: int, d: int, k: int)
    ensures d > 0 ==> (k <= n / d <==> k * d <= n)
  {
    if d > 0 {
      var q, r := n / d, n % d;
      assert n == q * d + r;
      if k <= q {
        assert k * d <= q * d;
      } else {
        assert (q + 1) * d <= k * d;
      }
    }
  }

  /** `checkedProduct`: succeeds exactly when both factors are non-negative and the product fits 64 bits. */
  function Product(price: int, quantity: int): (r: Result<int>)
    ensures r == if 0 <= price && 0 <= quantity && price * quantity <= INT64_MAX then Ok(price * quantity)
                 else Err(ProductTooLarge)
  {
    QuotientBound(INT64_MAX, quantity, price);
    if price < 0 || quantity < 0 || (quantity != 0 && price > INT64_MAX / quantity) then Err(ProductTooLarge)
    else Ok(price * quantity)
  }
}
