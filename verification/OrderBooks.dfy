/** The two views of a book: all price levels up to a depth, and the batched top of many books. */
module OrderBooks {
  import opened Sums
  import opened Domain
  import opened Matching
  import opened Settlement

  datatype Level = Level(price: int, quantity: int)

  datatype Snapshot = Snapshot(bids: seq<Level>, asks: seq<Level>, last: Option<int>)

  /** An order that a book shows on one side. */
  predicate Shown(o: Order, markets: seq<Venue>, side: Side, book: Id)
  {
    Resting(o) && o.side == side && InBook(markets, o.market, book)
  }

  /** Units on offer at one price. */
  function AtPrice(markets: seq<Venue>, side: Side, book: Id, price: int): Order -> int
  {
    (o: Order) => if Shown(o, markets, side, book) && o.price == price then o.remaining else 0
  }

  // ----- `GROUP BY price ORDER BY price` -----

  function AddUnits(levels: seq<Level>, side: Side, price: int, units: int): seq<Level>
  {
    if levels == [] || Better(side, price, levels[0].price) then [Level(price, units)] + levels
    else if levels[0].price == price then [Level(price, levels[0].quantity + units)] + levels[1..]
    else [levels[0]] + AddUnits(levels[1..], side, price, units)
  }

  function Levels(orders: seq<Order>, markets: seq<Venue>, side: Side, book: Id, n: nat): seq<Level>
    requires n <= |orders|
  {
    if n == 0 then []
    else
      var levels := Levels(orders, markets, side, book, n - 1);
      var o := orders[n - 1];
      if Shown(o, markets, side, book) then AddUnits(levels, side, o.price, o.remaining) else levels
  }

  /** Price of the newest trade in a book among the first `n` trades. */
  function LastPrice(trades: seq<Trade>, markets: seq<Venue>, book: Id, n: nat): Option<int>
    requires n <= |trades|
  {
    if n == 0 then None
    else if InBook(markets, trades[n - 1].market, book) then Some(trades[n - 1].price)
    else LastPrice(trades, markets, book, n - 1)
  }

  function FirstLevels(levels: seq<Level>, depth: nat): seq<Level>
  {
    if |levels| <= depth then levels else levels[..depth]
  }

  predicate TotalsFit(levels: seq<Level>)
  {
    forall k :: 0 <= k < |levels| ==> levels[k].quantity <= INT32_MAX
  }

  /** `orderBook`; a level total beyond 32 bits does not convert and is an error. */
  function OrderBookOf(f: Floor, markets: seq<Venue>, market: Id, depth: int): Result<Snapshot>
  {
    if depth <= 0 || depth > 50 then Err(DepthRange)
    else if market >= |markets| then Err(MarketMissing)
    else
      var book := markets[market].book;
      var bids := FirstLevels(Levels(f.orders, markets, Buy, book, |f.orders|), depth);
      var asks := FirstLevels(Levels(f.orders, markets, Sell, book, |f.orders|), depth);
      if TotalsFit(bids) && TotalsFit(asks) then
        Ok(Snapshot(bids, asks, LastPrice(f.trades, markets, book, |f.trades|)))
      else Err(OutOfRange)
  }

  // ----- the batched query -----

  /** `MAX(price)` of the bids or `MIN(price)` of the asks of a book. */
  function BestPrice(orders: seq<Order>, markets: seq<Venue>, side: Side, book: Id, n: nat): Option<int>
    requires n <= |orders|
  {
    if n == 0 then None
    else
      var best := BestPrice(orders, markets, side, book, n - 1);
      var o := orders[n - 1];
      if Shown(o, markets, side, book) && (best.None? || Better(side, o.price, best.value)) then Some(o.price) else best
  }

  /** One side of the batched snapshot: the best price with its total, clamped to 32 bits. */
  function TopLevels(orders: seq<Order>, markets: seq<Venue>, side: Side, book: Id): seq<Level>
  {
    match BestPrice(orders, markets, side, book, |orders|)
    case None => []
    case Some(p) => [Level(p, Min(Sum(orders, AtPrice(markets, side, book, p)), INT32_MAX))]
  }

  function TopOf(f: Floor, markets: seq<Venue>, book: Id): Snapshot
  {
    Snapshot(TopLevels(f.orders, markets, Buy, book), TopLevels(f.orders, markets, Sell, book),
             LastPrice(f.trades, markets, book, |f.trades|))
  }

  // ----- what the levels are -----

  /** Best level first: the dearest bid, the cheapest ask. */
  predicate Descending(levels: seq<Level>, side: Side)
  {
    forall j, k :: 0 <= j < k < |levels| ==> Better(side, levels[j].price, levels[k].price)
  }

  function UnitsAt(price: int): Level -> int { (l: Level) => if l.price == price then l.quantity else 0 }

  lemma {:induction false} SumFront(x: Level, s: seq<Level>, w: Level -> int)
    ensures Sum([x] + s, w) == w(x) + Sum(s, w)
  {
    if s == [] {
      assert [x] + s == [x] && [x][..0] == [];
    } else {
      var n := |s| - 1;
      SumFront(x, s[..n], w);
      assert ([x] + s)[..|s|] == [x] + s[..n];
    }
  }

  /** Adding units moves one price's total and keeps the levels in order. */
  lemma {:induction false} AddUnitsWorks(levels: seq<Level>, side: Side, price: int, units: int)
    requires Descending(levels, side)
    ensures var r := AddUnits(levels, side, price, units);
            && Descending(r, side) && r != []
            && (forall p :: Sum(r, UnitsAt(p)) == Sum(levels, UnitsAt(p)) + (if p == price then units else 0))
            && (forall l :: l in r ==> l.price == price || exists k :: 0 <= k < |levels| && levels[k].price == l.price)
            && r[0].price == (if levels != [] && Better(side, levels[0].price, price) then levels[0].price else price)
  {
    hide Sum;
    var r := AddUnits(levels, side, price, units);
    if levels == [] || Better(side, price, levels[0].price) {
      forall p
        ensures Sum(r, UnitsAt(p)) == Sum(levels, UnitsAt(p)) + (if p == price then units else 0)
      {
        SumFront(Level(price, units), levels, UnitsAt(p));
      }
    } else {
      assert levels == [levels[0]] + levels[1..];
      var rest := levels[1..];
      assert forall k :: 0 <= k < |rest| ==> rest[k] == levels[k + 1];
      if levels[0].price == price {
        forall p
          ensures Sum(r, UnitsAt(p)) == Sum(levels, UnitsAt(p)) + (if p == price then units else 0)
        {
          SumFront(levels[0], rest, UnitsAt(p));
          SumFront(Level(price, levels[0].quantity + units), rest, UnitsAt(p));
        }
      } else {
        AddUnitsWorks(rest, side, price, units);
        var more := AddUnits(rest, side, price, units);
        forall p
          ensures Sum(r, UnitsAt(p)) == Sum(levels, UnitsAt(p)) + (if p == price then units else 0)
        {
          SumFront(levels[0], rest, UnitsAt(p));
          SumFront(levels[0], more, UnitsAt(p));
        }
        forall k | 0 <= k < |more|
          ensures Better(side, levels[0].price, more[k].price)
        {
          assert more[k] in more;
        }
      }
    }
  }

  /** Grouped levels: best first, each with the total of the orders at its price, the first at the best price. */
  lemma {:induction false} LevelsAreTotals(orders: seq<Order>, markets: seq<Venue>, side: Side, book: Id, n: nat)
    requires n <= |orders|
    ensures var levels := Levels(orders, markets, side, book, n);
            && Descending(levels, side)
            && (forall p :: Sum(levels, UnitsAt(p)) == Sum(orders[..n], AtPrice(markets, side, book, p)))
            && (match BestPrice(orders, markets, side, book, n)
                case None => levels == []
                case Some(p) => levels != [] && levels[0].price == p)
  {
    hide Sum; hide Shown;
    if n == 0 {
      forall p
        ensures Sum<Level>([], UnitsAt(p)) == Sum(orders[..0], AtPrice(markets, side, book, p))
      {
        SumZero<Level>([], UnitsAt(p));
        SumZero(orders[..0], AtPrice(markets, side, book, p));
      }
    } else {
      LevelsAreTotals(orders, markets, side, book, n - 1);
      var o := orders[n - 1];
      AddUnitsWorks(Levels(orders, markets, side, book, n - 1), side, o.price, o.remaining);
      assert orders[..n] == orders[..n - 1] + [o];
      forall p
        ensures Sum(orders[..n], AtPrice(markets, side, book, p))
                == Sum(orders[..n - 1], AtPrice(markets, side, book, p)) + AtPrice(markets, side, book, p)(o)
      {
        SumAppend(orders[..n - 1], o, AtPrice(markets, side, book, p));
      }
    }
  }

  lemma FirstTotal(levels: seq<Level>, side: Side)
    requires Descending(levels, side) && levels != []
    ensures Sum(levels, UnitsAt(levels[0].price)) == levels[0].quantity
  {
    hide Sum;
    var p, rest := levels[0].price, levels[1..];
    assert levels == [levels[0]] + rest;
    SumFront(levels[0], rest, UnitsAt(p));
    forall k | 0 <= k < |rest|
      ensures UnitsAt(p)(rest[k]) == 0
    {
      assert rest[k] == levels[k + 1];
    }
    SumZero(rest, UnitsAt(p));
  }

  lemma BetterDiffers(side: Side, p: int, q: int)
    requires Better(side, p, q)
    ensures p != q
  {
  }

  /** The levels' totals, one by one. */
  lemma {:induction false} EachLevelIsATotal(levels: seq<Level>, side: Side, k: nat)
    requires Descending(levels, side) && k < |levels|
    ensures Sum(levels, UnitsAt(levels[k].price)) == levels[k].quantity
  {
    hide Sum; hide Better; hide Descending;
    if k == 0 {
      FirstTotal(levels, side);
    } else {
      RestDescends(levels, side, k);
      EachLevelIsATotal(levels[1..], side, k - 1);
      SumFront(levels[0], levels[1..], UnitsAt(levels[k].price));
      assert levels == [levels[0]] + levels[1..];
    }
  }

  lemma RestDescends(levels: seq<Level>, side: Side, k: nat)
    requires Descending(levels, side) && 0 < k < |levels|
    ensures Descending(levels[1..], side) && levels[0].price != levels[k].price
  {
    BetterDiffers(side, levels[0].price, levels[k].price);
  }

  /** A level shows exactly the units resting at its price, and better levels come first. */
  lemma BookShowsRestingOrders(f: Floor, markets: seq<Venue>, side: Side, book: Id, k: nat)
    requires k < |Levels(f.orders, markets, side, book, |f.orders|)|
    ensures var levels := Levels(f.orders, markets, side, book, |f.orders|);
            && levels[k].quantity == Sum(f.orders, AtPrice(markets, side, book, levels[k].price))
            && Descending(levels, side)
  {
    hide Sum;
    LevelsAreTotals(f.orders, markets, side, book, |f.orders|);
    assert f.orders[..|f.orders|] == f.orders;
    EachLevelIsATotal(Levels(f.orders, markets, side, book, |f.orders|), side, k);
  }

  lemma TopIsFirstLevel(orders: seq<Order>, markets: seq<Venue>, side: Side, book: Id)
    ensures var first := FirstLevels(Levels(orders, markets, side, book, |orders|), 1);
            TotalsFit(first) ==> TopLevels(orders, markets, side, book) == first
  {
    hide Sum; hide Shown;
    var levels := Levels(orders, markets, side, book, |orders|);
    LevelsAreTotals(orders, markets, side, book, |orders|);
    assert orders[..|orders|] == orders;
    if levels != [] {
      FirstTotal(levels, side);
      assert FirstLevels(levels, 1) == [levels[0]];
    }
  }

  /** The batched top agrees with the single book at depth 1 whenever that book's totals fit 32 bits. */
  lemma TopAgreesWithBook(f: Floor, markets: seq<Venue>, market: Id)
    requires market < |markets| && OrderBookOf(f, markets, market, 1).Ok?
    ensures OrderBookOf(f, markets, market, 1) == Ok(TopOf(f, markets, markets[market].book))
  {
    hide Levels; hide TopLevels; hide LastPrice;
    TopIsFirstLevel(f.orders, markets, Buy, markets[market].book);
    TopIsFirstLevel(f.orders, markets, Sell, markets[market].book);
  }

  // ----- which levels a depth shows -----

  function PricesOf(levels: seq<Level>): set<int>
  {
    set k | 0 <= k < |levels| :: levels[k].price
  }

  /** The prices at which a side of a book has orders. */
  function ShownPrices(orders: seq<Order>, markets: seq<Venue>, side: Side, book: Id): set<int>
  {
    set i | 0 <= i < |orders| && Shown(orders[i], markets, side, book) :: orders[i].price
  }

  /** Those of them that come before a given price. */
  function BetterPrices(orders: seq<Order>, markets: seq<Venue>, side: Side, book: Id, price: int): set<int>
  {
    set p | p in ShownPrices(orders, markets, side, book) && Better(side, p, price)
  }

  lemma {:induction false} PricesAfterAdd(levels: seq<Level>, side: Side, price: int, units: int)
    ensures PricesOf(AddUnits(levels, side, price, units)) == PricesOf(levels) + {price}
  {
    if levels == [] || Better(side, price, levels[0].price) {
      PricesSplit(Level(price, units), levels);
    } else {
      assert levels == [levels[0]] + levels[1..];
      PricesSplit(levels[0], levels[1..]);
      if levels[0].price == price {
        PricesSplit(Level(price, levels[0].quantity + units), levels[1..]);
      } else {
        PricesAfterAdd(levels[1..], side, price, units);
        PricesSplit(levels[0], AddUnits(levels[1..], side, price, units));
      }
    }
  }

  lemma PricesSplit(first: Level, rest: seq<Level>)
    ensures PricesOf([first] + rest) == {first.price} + PricesOf(rest)
  {
    var levels := [first] + rest;
    forall p | p in PricesOf(rest)
      ensures p in PricesOf(levels)
    {
      var k :| 0 <= k < |rest| && rest[k].price == p;
      assert levels[k + 1].price == p;
    }
    assert levels[0] == first;
  }

  /** The levels show every price with an order, and no other. */
  lemma {:induction false} LevelPrices(orders: seq<Order>, markets: seq<Venue>, side: Side, book: Id, n: nat)
    requires n <= |orders|
    ensures PricesOf(Levels(orders, markets, side, book, n)) == ShownPrices(orders[..n], markets, side, book)
  {
    hide Shown;
    if n > 0 {
      LevelPrices(orders, markets, side, book, n - 1);
      var o := orders[n - 1];
      assert orders[..n] == orders[..n - 1] + [o];
      if Shown(o, markets, side, book) {
        PricesAfterAdd(Levels(orders, markets, side, book, n - 1), side, o.price, o.remaining);
      }
      ShownAppend(orders[..n - 1], o, markets, side, book);
    }
  }

  lemma ShownAppend(orders: seq<Order>, o: Order, markets: seq<Venue>, side: Side, book: Id)
    ensures ShownPrices(orders + [o], markets, side, book)
            == ShownPrices(orders, markets, side, book) + (if Shown(o, markets, side, book) then {o.price} else {})
  {
    hide Shown;
    var more := orders + [o];
    forall p | p in ShownPrices(orders, markets, side, book)
      ensures p in ShownPrices(more, markets, side, book)
    {
      var i :| 0 <= i < |orders| && Shown(orders[i], markets, side, book) && orders[i].price == p;
      assert more[i] == orders[i];
    }
    assert more[|orders|] == o;
  }

  lemma {:induction false} DistinctPrices(levels: seq<Level>, side: Side, k: nat)
    requires Descending(levels, side) && k <= |levels|
    ensures |PricesOf(levels[..k])| == k
  {
    if k == 0 {
      assert PricesOf(levels[..0]) == {};
    } else {
      DistinctPrices(levels, side, k - 1);
      var front, last := levels[..k - 1], levels[k - 1];
      assert levels[..k] == front + [last];
      assert PricesOf(levels[..k]) == PricesOf(front) + {last.price} by { PricesAppend(front, last); }
      assert last.price !in PricesOf(front);
    }
  }

  lemma PricesAppend(front: seq<Level>, last: Level)
    ensures PricesOf(front + [last]) == PricesOf(front) + {last.price}
  {
    var levels := front + [last];
    forall p | p in PricesOf(front)
      ensures p in PricesOf(levels)
    {
      var k :| 0 <= k < |front| && front[k].price == p;
      assert levels[k] == front[k];
    }
    assert levels[|front|] == last;
  }

  /** A level's place is the number of better prices on its side. */
  lemma PlaceOfLevel(orders: seq<Order>, markets: seq<Venue>, side: Side, book: Id, k: nat)
    requires k < |Levels(orders, markets, side, book, |orders|)|
    ensures |BetterPrices(orders, markets, side, book, Levels(orders, markets, side, book, |orders|)[k].price)| == k
  {
    hide Shown; hide Sum;
    var levels := Levels(orders, markets, side, book, |orders|);
    LevelsAreTotals(orders, markets, side, book, |orders|);
    LevelPrices(orders, markets, side, book, |orders|);
    assert orders[..|orders|] == orders;
    DistinctPrices(levels, side, k);
    BetterAreBefore(levels, side, k);
    assert BetterPrices(orders, markets, side, book, levels[k].price) == PricesOf(levels[..k]);
  }

  lemma BetterAreBefore(levels: seq<Level>, side: Side, k: nat)
    requires Descending(levels, side) && k < |levels|
    ensures (set p | p in PricesOf(levels) && Better(side, p, levels[k].price)) == PricesOf(levels[..k])
  {
    forall p | p in PricesOf(levels) && Better(side, p, levels[k].price)
      ensures p in PricesOf(levels[..k])
    {
      var j :| 0 <= j < |levels| && levels[j].price == p;
      assert j < k;
      assert levels[..k][j] == levels[j];
    }
    forall p | p in PricesOf(levels[..k])
      ensures p in PricesOf(levels) && Better(side, p, levels[k].price)
    {
      var j :| 0 <= j < k && levels[..k][j].price == p;
      assert levels[j].price == p;
    }
  }

  /** A price of one side, with fewer than `depth` better ones, at which more units rest than 32 bits can count. */
  ghost predicate Oversized(orders: seq<Order>, markets: seq<Venue>, side: Side, book: Id, depth: nat)
  {
    exists p :: p in ShownPrices(orders, markets, side, book) && |BetterPrices(orders, markets, side, book, p)| < depth
                && Sum(orders, AtPrice(markets, side, book, p)) > INT32_MAX
  }

  lemma FitsIffSmall(orders: seq<Order>, markets: seq<Venue>, side: Side, book: Id, depth: nat)
    ensures TotalsFit(FirstLevels(Levels(orders, markets, side, book, |orders|), depth))
       <==> !Oversized(orders, markets, side, book, depth)
  {
    hide Sum; hide Shown; hide BetterPrices; hide Descending; hide ShownPrices;
    var levels := Levels(orders, markets, side, book, |orders|);
    var first := FirstLevels(levels, depth);
    LevelsAreTotals(orders, markets, side, book, |orders|);
    LevelPrices(orders, markets, side, book, |orders|);
    assert orders[..|orders|] == orders;
    forall k: nat | k < |levels|
      ensures levels[k].price in PricesOf(levels)
      ensures levels[k].quantity == Sum(orders, AtPrice(markets, side, book, levels[k].price))
      ensures |BetterPrices(orders, markets, side, book, levels[k].price)| == k
    {
      EachLevelIsATotal(levels, side, k);
      PlaceOfLevel(orders, markets, side, book, k);
    }
    if !TotalsFit(first) {
      var k: nat :| k < |first| && first[k].quantity > INT32_MAX;
      assert first[k] == levels[k];
    }
    if Oversized(orders, markets, side, book, depth) {
      var p :| p in ShownPrices(orders, markets, side, book) && |BetterPrices(orders, markets, side, book, p)| < depth
               && Sum(orders, AtPrice(markets, side, book, p)) > INT32_MAX;
      var k: nat :| k < |levels| && levels[k].price == p;
      assert first[k] == levels[k];
    }
  }

  /** At any depth the single book fails exactly when a level it would show does not fit. */
  lemma BookFailsOnLargeTotals(f: Floor, markets: seq<Venue>, market: Id, depth: nat)
    requires market < |markets| && 0 < depth <= 50
    ensures OrderBookOf(f, markets, market, depth).Err? <==>
              || Oversized(f.orders, markets, Buy, markets[market].book, depth)
              || Oversized(f.orders, markets, Sell, markets[market].book, depth)
  {
    hide Sum; hide Shown; hide Levels; hide LastPrice; hide Oversized; hide TotalsFit; hide FirstLevels;
    var book := markets[market].book;
    FitsIffSmall(f.orders, markets, Buy, book, depth);
    FitsIffSmall(f.orders, markets, Sell, book, depth);
  }

  // ----- what the two views say -----

  /** Trade `k` is the newest of its book. */
  predicate NewestTrade(trades: seq<Trade>, markets: seq<Venue>, book: Id, k: Id)
  {
    && k < |trades| && InBook(markets, trades[k].market, book)
    && forall j :: k < j < |trades| ==> !InBook(markets, trades[j].market, book)
  }

  /** The last price of a book is the price of its newest trade, and there is none exactly when it has no trade. */
  ghost predicate LastOf(last: Option<int>, trades: seq<Trade>, markets: seq<Venue>, book: Id)
  {
    match last
    case None => forall k :: 0 <= k < |trades| ==> !InBook(markets, trades[k].market, book)
    case Some(p) => exists k: Id :: NewestTrade(trades, markets, book, k) && trades[k].price == p
  }

  lemma {:induction false} LastPriceIsNewest(trades: seq<Trade>, markets: seq<Venue>, book: Id, n: nat)
    requires n <= |trades| && forall j :: n <= j < |trades| ==> !InBook(markets, trades[j].market, book)
    ensures LastOf(LastPrice(trades, markets, book, n), trades, markets, book)
  {
    if n > 0 {
      if InBook(markets, trades[n - 1].market, book) {
        assert NewestTrade(trades, markets, book, n - 1);
      } else {
        LastPriceIsNewest(trades, markets, book, n - 1);
      }
    }
  }

  /** One side of a book: its best prices up to a depth, best first, each with all units resting at it. */
  ghost predicate SideShown(levels: seq<Level>, orders: seq<Order>, markets: seq<Venue>, side: Side, book: Id,
                            depth: nat)
  {
    && Descending(levels, side)
    && (forall p :: p in PricesOf(levels) <==>
          p in ShownPrices(orders, markets, side, book) && |BetterPrices(orders, markets, side, book, p)| < depth)
    && forall k :: 0 <= k < |levels| ==>
         levels[k].quantity == Sum(orders, AtPrice(markets, side, book, levels[k].price))
  }

  lemma FirstLevelsShown(orders: seq<Order>, markets: seq<Venue>, side: Side, book: Id, depth: nat)
    ensures SideShown(FirstLevels(Levels(orders, markets, side, book, |orders|), depth), orders, markets, side, book,
                      depth)
  {
    hide Sum; hide Shown; hide BetterPrices; hide ShownPrices; hide Better;
    var levels := Levels(orders, markets, side, book, |orders|);
    var first := FirstLevels(levels, depth);
    LevelsAreTotals(orders, markets, side, book, |orders|);
    LevelPrices(orders, markets, side, book, |orders|);
    assert orders[..|orders|] == orders;
    forall k: nat | k < |levels|
      ensures levels[k].price in PricesOf(levels)
      ensures levels[k].quantity == Sum(orders, AtPrice(markets, side, book, levels[k].price))
      ensures |BetterPrices(orders, markets, side, book, levels[k].price)| == k
    {
      EachLevelIsATotal(levels, side, k);
      PlaceOfLevel(orders, markets, side, book, k);
    }
    forall p
      ensures p in PricesOf(first) <==>
                p in PricesOf(levels) && |BetterPrices(orders, markets, side, book, p)| < depth
    {
      if p in PricesOf(first) {
        var k: nat :| k < |first| && first[k].price == p;
        assert first[k] == levels[k];
      }
      if p in PricesOf(levels) && |BetterPrices(orders, markets, side, book, p)| < depth {
        var k: nat :| k < |levels| && levels[k].price == p;
        assert first[k] == levels[k];
      }
    }
  }

  /** A book that can be shown: both sides to the asked depth with whole totals, and the newest trade's price. */
  lemma BookIsShown(f: Floor, markets: seq<Venue>, market: Id, depth: int, s: Snapshot)
    requires OrderBookOf(f, markets, market, depth) == Ok(s)
    ensures 0 < depth <= 50 && market < |markets|
    ensures var book := markets[market].book;
            && SideShown(s.bids, f.orders, markets, Buy, book, depth)
            && SideShown(s.asks, f.orders, markets, Sell, book, depth)
            && LastOf(s.last, f.trades, markets, book)
  {
    hide Levels; hide FirstLevels; hide LastPrice; hide SideShown; hide LastOf; hide TotalsFit;
    var book := markets[market].book;
    FirstLevelsShown(f.orders, markets, Buy, book, depth);
    FirstLevelsShown(f.orders, markets, Sell, book, depth);
    LastPriceIsNewest(f.trades, markets, book, |f.trades|);
  }

  /** A side of the batched view: the best price alone, with all units resting at it, cut off at 32 bits. */
  ghost predicate TopShown(levels: seq<Level>, orders: seq<Order>, markets: seq<Venue>, side: Side, book: Id)
  {
    && (levels == [] <==> ShownPrices(orders, markets, side, book) == {})
    && (levels != [] ==>
          && |levels| == 1 && levels[0].price in ShownPrices(orders, markets, side, book)
          && BetterPrices(orders, markets, side, book, levels[0].price) == {}
          && levels[0].quantity == Min(Sum(orders, AtPrice(markets, side, book, levels[0].price)), INT32_MAX))
  }

  lemma {:induction false} BestPriceIsBest(orders: seq<Order>, markets: seq<Venue>, side: Side, book: Id, n: nat)
    requires n <= |orders|
    ensures match BestPrice(orders, markets, side, book, n)
            case None => ShownPrices(orders[..n], markets, side, book) == {}
            case Some(p) => p in ShownPrices(orders[..n], markets, side, book)
                            && BetterPrices(orders[..n], markets, side, book, p) == {}
  {
    hide Shown;
    if n > 0 {
      BestPriceIsBest(orders, markets, side, book, n - 1);
      assert orders[..n] == orders[..n - 1] + [orders[n - 1]];
      ShownAppend(orders[..n - 1], orders[n - 1], markets, side, book);
      hide ShownPrices;
    }
  }

  /** The batched view of a book, for all totals. */
  lemma TopIsShown(f: Floor, markets: seq<Venue>, book: Id)
    ensures var s := TopOf(f, markets, book);
            && TopShown(s.bids, f.orders, markets, Buy, book) && TopShown(s.asks, f.orders, markets, Sell, book)
            && LastOf(s.last, f.trades, markets, book)
  {
    hide Sum; hide LastPrice; hide LastOf; hide ShownPrices; hide BetterPrices; hide BestPrice;
    assert f.orders[..|f.orders|] == f.orders;
    BestPriceIsBest(f.orders, markets, Buy, book, |f.orders|);
    BestPriceIsBest(f.orders, markets, Sell, book, |f.orders|);
    LastPriceIsNewest(f.trades, markets, book, |f.trades|);
  }

  // ----- the batch -----

  predicate IsEmpty(s: Snapshot) { s == Snapshot([], [], None) }

  /** The books of the known markets among `ids`. */
  method BooksOf(markets: seq<Venue>, ids: seq<Id>) returns (bookOf: map<Id, Id>, books: seq<Id>)
    ensures forall id :: id in bookOf <==> id in ids && id < |markets|
    ensures forall id :: id in bookOf ==> bookOf[id] == markets[id].book && bookOf[id] in books
  {
    bookOf, books := map[], [];
    var i := 0;
    while i < |ids|
      invariant i <= |ids|
      invariant forall id :: id in bookOf <==> id in ids[..i] && id < |markets|
      invariant forall id :: id in bookOf ==> bookOf[id] == markets[id].book && bookOf[id] in books
    {
      assert ids[..i + 1] == ids[..i] + [ids[i]];
      if ids[i] < |markets| {
        var book := markets[ids[i]].book;
        bookOf := bookOf[ids[i] := book];
        if book !in books { books := books + [book]; }
      }
      i := i + 1;
    }
    assert ids[..i] == ids;
  }

  /** The snapshots of the books that have anything to show. */
  method TopsOf(f: Floor, markets: seq<Venue>, books: seq<Id>) returns (byBook: map<Id, Snapshot>)
    ensures forall b :: b in byBook ==> byBook[b] == TopOf(f, markets, b)
    ensures forall b :: b in books && b !in byBook ==> IsEmpty(TopOf(f, markets, b))
  {
    hide TopOf;
    byBook := map[];
    var i := 0;
    while i < |books|
      invariant i <= |books|
      invariant forall b :: b in byBook ==> byBook[b] == TopOf(f, markets, b)
      invariant forall b :: b in books[..i] && b !in byBook ==> IsEmpty(TopOf(f, markets, b))
    {
      assert books[..i + 1] == books[..i] + [books[i]];
      var top := TopOf(f, markets, books[i]);
      if !IsEmpty(top) { byBook := byBook[books[i] := top]; }
      i := i + 1;
    }
    assert books[..i] == books;
  }

  /** `topOfBooks`: one entry for each id asked for; a book with nothing in it keeps its empty entry. */
  method TopOfBooks(f: Floor, markets: seq<Venue>, ids: seq<Id>) returns (result: map<Id, Snapshot>)
    ensures forall id :: id in result <==> id in ids
    ensures forall id :: id in result ==>
              result[id] == if id < |markets| then TopOf(f, markets, markets[id].book) else Snapshot([], [], None)
  {
    hide TopOf;
    result := map[];
    var bookOf, books := BooksOf(markets, ids);
    var byBook := TopsOf(f, markets, books);
    var i := 0;
    while i < |ids|
      invariant i <= |ids|
      invariant forall id :: id in result <==> id in ids[..i]
      invariant forall id :: id in result ==>
                  result[id] == if id < |markets| then TopOf(f, markets, markets[id].book) else Snapshot([], [], None)
    {
      assert ids[..i + 1] == ids[..i] + [ids[i]];
      var id := ids[i];
      result := result[id := if id in bookOf && bookOf[id] in byBook then byBook[bookOf[id]]
                       else Snapshot([], [], None)];
      i := i + 1;
    }
    assert ids[..i] == ids;
  }
}
