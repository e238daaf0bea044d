/** The paper-trading ledger: a cash account, open positions with a
    weighted-average cost, an append-only order history and a log of realized
    trades, plus the read-only queries over them. */
module PaperTrading {
  import opened Common

  datatype OrderType = Buy | Sell

  /** An executed order; `value` is quantity * price, fixed at creation. */
  datatype Order = Order(orderId: string, symbol: string, orderType: OrderType,
                         quantity: int, price: real, value: real)

  /** An open position. `entryPrice` is the price of the order that opened it. */
  datatype Position = Position(symbol: string, quantity: int, avgPrice: real,
                               currentPrice: real, entryPrice: real)

  /** A realized (fully or partially closed) trade. */
  datatype Trade = Trade(symbol: string, quantity: int, buyPrice: real, sellPrice: real,
                         pnl: real, pnlPercent: real)

  /** The whole ledger state, as a value. Positions keep the insertion order of
      the source's dictionary. */
  datatype Account = Account(initialCash: real, cash: real, positions: seq<Position>,
                             orders: seq<Order>, trades: seq<Trade>)

  // ---------------------------------------------------------------------------
  // Position lookup and the sums the accounting invariant is stated with

  function IndexOf(ps: seq<Position>, symbol: string): (r: Option<nat>)
    ensures r.None? ==> forall j :: 0 <= j < |ps| ==> ps[j].symbol != symbol
    ensures r.Some? ==> r.value < |ps| && ps[r.value].symbol == symbol
    ensures r.Some? ==> forall j :: 0 <= j < r.value ==> ps[j].symbol != symbol
  {
    if ps == [] then None
    else if ps[0].symbol == symbol then Some(0)
    else match IndexOf(ps[1..], symbol)
      case None => None
      case Some(i) => Some(i + 1)
  }

  predicate DistinctSymbols(ps: seq<Position>)
  {
    forall i, j :: 0 <= i < j < |ps| ==> ps[i].symbol != ps[j].symbol
  }

  predicate PositiveQuantities(ps: seq<Position>)
  {
    forall i :: 0 <= i < |ps| ==> ps[i].quantity > 0
  }

  /** What a position cost: quantity times average price. */
  function Cost(p: Position): real { p.quantity as real * p.avgPrice }

  /** What a position is worth at its mark: quantity times current price. */
  function Worth(p: Position): real { p.quantity as real * p.currentPrice }

  function Costs(ps: seq<Position>): (r: seq<real>)
    ensures |r| == |ps|
    ensures forall k :: 0 <= k < |ps| ==> r[k] == Cost(ps[k])
  {
    seq(|ps|, i requires 0 <= i < |ps| => Cost(ps[i]))
  }

  function Values(ps: seq<Position>): (r: seq<real>)
    ensures |r| == |ps|
    ensures forall k :: 0 <= k < |ps| ==> r[k] == Worth(ps[k])
  {
    seq(|ps|, i requires 0 <= i < |ps| => Worth(ps[i]))
  }

  /** Sum of quantity * average price over the open positions. */
  function CostBasis(ps: seq<Position>): real { Sum(Costs(ps)) }

  /** Sum of quantity * current price over the open positions. */
  function MarketValue(ps: seq<Position>): real { Sum(Values(ps)) }

  /** The P&L column of the trade log, in log order. */
  function Pnls(ts: seq<Trade>): seq<real>
  {
    seq(|ts|, i requires 0 <= i < |ts| => ts[i].pnl)
  }

  function RealizedPnl(ts: seq<Trade>): real { Sum(Pnls(ts)) }

  /** The ledger invariant: one position per symbol, every stored quantity
      positive, and cost conserved: cash plus the cost basis of what is held,
      minus the profit realized so far, is the cash the account started with. */
  predicate ValidAccount(a: Account)
  {
    && DistinctSymbols(a.positions)
    && PositiveQuantities(a.positions)
    && a.cash + CostBasis(a.positions) - RealizedPnl(a.trades) == a.initialCash
  }

  function NewAccount(initialCash: real): (a: Account)
    ensures ValidAccount(a)
  {
    Account(initialCash, initialCash, [], [], [])
  }

  // ---------------------------------------------------------------------------
  // Orders

  /** `order_id or f"{prefix}_{symbol}_{n}"`: an absent or empty id is replaced
      by the default built from the length of the order history. */
  function OrderId(given: Option<string>, prefix: string, symbol: string, n: nat): string
  {
    if given.Some? && given.value != "" then given.value
    else prefix + "_" + symbol + "_" + NatToString(n)
  }

  function MakeOrder(given: Option<string>, orderType: OrderType, symbol: string,
                     quantity: int, price: real, n: nat): Order
  {
    var prefix := if orderType == Buy then "BUY" else "SELL";
    Order(OrderId(given, prefix, symbol, n), symbol, orderType, quantity, price,
          quantity as real * price)
  }

  // ---------------------------------------------------------------------------
  // Buy and sell as functions of the account; the class below runs them in place

  /** The entry created for a symbol not yet held: no shares, zero average
      price, the order's price as entry price. Its current price is set by the
      update that immediately follows; 0.0 stands in until then. */
  function Placeholder(symbol: string, price: real): Position
  {
    Position(symbol, 0, 0.0, 0.0, price)
  }

  /** A buy's update of one entry: the summed quantity, the quantity-weighted
      average of the old average and the order's price, marked at that price. */
  function Increased(p: Position, quantity: int, price: real): Position
    requires p.quantity + quantity != 0
  {
    var total := p.quantity + quantity;
    p.(avgPrice := (Cost(p) + quantity as real * price) / total as real,
       quantity := total, currentPrice := price)
  }

  /** The positions after buying: a symbol not yet held gets a placeholder
      entry first, and then the entry is increased. */
  function AddToPosition(ps: seq<Position>, symbol: string, quantity: int, price: real): seq<Position>
    requires quantity > 0 && PositiveQuantities(ps)
  {
    match IndexOf(ps, symbol)
    case None => ps + [Increased(Placeholder(symbol, price), quantity, price)]
    case Some(i) => ps[i := Increased(ps[i], quantity, price)]
  }

  /** Buy `quantity` shares at `price`. None when the cost exceeds the cash. */
  function BuyStep(a: Account, symbol: string, quantity: int, price: real,
                   orderId: Option<string>): (Account, Option<Order>)
    requires quantity > 0 && PositiveQuantities(a.positions)
  {
    var cost := quantity as real * price;
    if cost > a.cash then (a, None)
    else
      var order := MakeOrder(orderId, Buy, symbol, quantity, price, |a.orders|);
      (a.(cash := a.cash - cost, positions := AddToPosition(a.positions, symbol, quantity, price),
          orders := a.orders + [order]), Some(order))
  }

  /** Remove the position at index i. */
  function Without(ps: seq<Position>, i: nat): seq<Position>
    requires i < |ps|
  {
    ps[..i] + ps[i + 1..]
  }

  /** A sell's update of one entry: fewer shares, the same average price, marked at the sale price. */
  function Reduced(p: Position, quantity: int, price: real): Position
  {
    p.(quantity := p.quantity - quantity, currentPrice := price)
  }

  /** The positions after selling `quantity` of the position at index i: it is
      deleted when nothing is left, otherwise reduced. */
  function TakeFromPosition(ps: seq<Position>, i: nat, quantity: int, price: real): seq<Position>
    requires i < |ps|
  {
    if ps[i].quantity - quantity == 0 then Without(ps, i)
    else ps[i := Reduced(ps[i], quantity, price)]
  }

  /** The position update of sell: the quantity is reduced in place and the
      entry deleted when it reaches zero. */
  method TakeShares(ps: seq<Position>, i: nat, quantity: int, price: real) returns (rest: seq<Position>)
    requires i < |ps|
    ensures rest == TakeFromPosition(ps, i, quantity, price)
  {
    var pos := Reduced(ps[i], quantity, price);
    if pos.quantity == 0 {
      rest := ps[..i] + ps[i + 1..];
    } else {
      rest := ps[i := pos];
    }
  }

  /** The realized trade of a sale: bought at the average price, P&L is proceeds
      minus cost basis, and the percentage is 0 when the cost basis is not positive. */
  function SaleTrade(symbol: string, p: Position, quantity: int, price: real): Trade
  {
    var proceeds := quantity as real * price;
    var costBasis := quantity as real * p.avgPrice;
    var pnl := proceeds - costBasis;
    Trade(symbol, quantity, p.avgPrice, price, pnl,
          if costBasis > 0.0 then pnl / costBasis * 100.0 else 0.0)
  }

  /** Sell `quantity` shares at `price`. None when the symbol is not held or the
      held quantity is smaller than requested. */
  function SellStep(a: Account, symbol: string, quantity: int, price: real,
                    orderId: Option<string>): (Account, Option<Order>)
  {
    match IndexOf(a.positions, symbol)
    case None => (a, None)
    case Some(i) =>
      if a.positions[i].quantity < quantity then (a, None)
      else
        var order := MakeOrder(orderId, Sell, symbol, quantity, price, |a.orders|);
        (a.(cash := a.cash + quantity as real * price,
            positions := TakeFromPosition(a.positions, i, quantity, price),
            trades := a.trades + [SaleTrade(symbol, a.positions[i], quantity, price)],
            orders := a.orders + [order]), Some(order))
  }

  // ---------------------------------------------------------------------------
  // Arithmetic of one entry

  lemma ScaleBack(n: int, x: real)
    requires n != 0
    ensures n as real * (x / n as real) == x
  {
  }

  lemma AddProduct(m: int, n: int, x: real)
    ensures (m + n) as real * x == m as real * x + n as real * x
  {
  }

  /** Increasing an entry adds exactly the order's cost to what it cost. */
  lemma IncreasedCost(p: Position, quantity: int, price: real)
    requires p.quantity + quantity != 0
    ensures Cost(Increased(p, quantity, price)) == Cost(p) + quantity as real * price
  {
    ScaleBack(p.quantity + quantity, Cost(p) + quantity as real * price);
  }

  /** Increasing an entry already marked at the order's price adds the order's cost to its worth. */
  lemma IncreasedWorth(p: Position, quantity: int, price: real)
    requires p.quantity + quantity != 0 && p.currentPrice == price
    ensures Worth(Increased(p, quantity, price)) == Worth(p) + quantity as real * price
  {
    AddProduct(p.quantity, quantity, price);
  }

  /** The first buy of a symbol records the order's price as the average. */
  lemma FirstBuyAverage(symbol: string, quantity: int, price: real)
    requires quantity != 0
    ensures Increased(Placeholder(symbol, price), quantity, price).avgPrice == price
    ensures Cost(Increased(Placeholder(symbol, price), quantity, price)) == quantity as real * price
    ensures Worth(Increased(Placeholder(symbol, price), quantity, price)) == quantity as real * price
  {
    IncreasedCost(Placeholder(symbol, price), quantity, price);
  }

  /** Buying more shares moves the average price between the old average and
      the order's price. */
  lemma AverageBetween(p: Position, quantity: int, price: real)
    requires p.quantity > 0 && quantity > 0
    ensures Min(p.avgPrice, price) <= Increased(p, quantity, price).avgPrice <= Max(p.avgPrice, price)
  {
    var n, m := p.quantity as real, quantity as real;
    var avg := Increased(p, quantity, price).avgPrice;
    assert avg == (n * p.avgPrice + m * price) / (n + m);
    assert (n + m) * avg == n * p.avgPrice + m * price;
    assert (n + m) * Min(p.avgPrice, price) <= n * p.avgPrice + m * price;
    assert n * p.avgPrice + m * price <= (n + m) * Max(p.avgPrice, price);
  }

  /** Reducing an entry lowers what it cost by the sold quantity times the average price. */
  lemma ReducedCost(p: Position, quantity: int, price: real)
    ensures Cost(Reduced(p, quantity, price)) == Cost(p) - quantity as real * p.avgPrice
  {
    AddProduct(p.quantity - quantity, quantity, p.avgPrice);
  }

  // ---------------------------------------------------------------------------
  // How the sums move when one position changes

  lemma CostsUpdate(ps: seq<Position>, i: nat, p: Position)
    requires i < |ps|
    ensures CostBasis(ps[i := p]) == CostBasis(ps) - Cost(ps[i]) + Cost(p)
    ensures MarketValue(ps[i := p]) == MarketValue(ps) - Worth(ps[i]) + Worth(p)
  {
    var c, c' := Costs(ps), Costs(ps[i := p]);
    forall k | 0 <= k < |c| ensures c'[k] == c[i := Cost(p)][k] {
      if k != i { assert c'[k] == c[k]; }
    }
    assert c' == c[i := Cost(p)];
    SumUpdate(c, i, Cost(p));
    var v, v' := Values(ps), Values(ps[i := p]);
    forall k | 0 <= k < |v| ensures v'[k] == v[i := Worth(p)][k] {
      if k != i { assert v'[k] == v[k]; }
    }
    assert v' == v[i := Worth(p)];
    SumUpdate(v, i, Worth(p));
  }

  lemma CostsAppend(ps: seq<Position>, p: Position)
    ensures CostBasis(ps + [p]) == CostBasis(ps) + Cost(p)
    ensures MarketValue(ps + [p]) == MarketValue(ps) + Worth(p)
  {
    var c, c' := Costs(ps), Costs(ps + [p]);
    forall k | 0 <= k < |c'| ensures c'[k] == (c + [Cost(p)])[k] {
      if k < |ps| { assert c'[k] == c[k]; }
    }
    assert c' == c + [Cost(p)];
    SumAppend(c, Cost(p));
    var v, v' := Values(ps), Values(ps + [p]);
    forall k | 0 <= k < |v'| ensures v'[k] == (v + [Worth(p)])[k] {
      if k < |ps| { assert v'[k] == v[k]; }
    }
    assert v' == v + [Worth(p)];
    SumAppend(v, Worth(p));
  }

  lemma WithoutAt(ps: seq<Position>, i: nat, k: nat)
    requires i < |ps| && k < |ps| - 1
    ensures Without(ps, i)[k] == ps[if k < i then k else k + 1]
  {
  }

  lemma CostsRemove(ps: seq<Position>, i: nat)
    requires i < |ps|
    ensures CostBasis(Without(ps, i)) == CostBasis(ps) - Cost(ps[i])
    ensures MarketValue(Without(ps, i)) == MarketValue(ps) - Worth(ps[i])
  {
    var c, v := Costs(ps), Values(ps);
    var c', v' := Costs(Without(ps, i)), Values(Without(ps, i));
    var cr, vr := c[..i] + c[i + 1..], v[..i] + v[i + 1..];
    forall k | 0 <= k < |c'| ensures c'[k] == cr[k] && v'[k] == vr[k] {
      WithoutAt(ps, i, k);
    }
    assert c' == cr;
    assert v' == vr;
    SumRemove(c, i);
    SumRemove(v, i);
  }

  lemma PnlsAppend(ts: seq<Trade>, t: Trade)
    ensures RealizedPnl(ts + [t]) == RealizedPnl(ts) + t.pnl
  {
    assert Pnls(ts + [t]) == Pnls(ts) + [t.pnl];
    SumAppend(Pnls(ts), t.pnl);
  }

  // ---------------------------------------------------------------------------
  // Adding to and taking from the position list

  /** Buying keeps one position per symbol, every quantity positive, and raises
      the cost basis by exactly the cost of the order. */
  lemma AddToPositionKeepsShape(ps: seq<Position>, symbol: string, quantity: int, price: real)
    requires DistinctSymbols(ps) && PositiveQuantities(ps) && quantity > 0
    ensures var ps' := AddToPosition(ps, symbol, quantity, price);
      && DistinctSymbols(ps') && PositiveQuantities(ps')
      && CostBasis(ps') == CostBasis(ps) + quantity as real * price
  {
    match IndexOf(ps, symbol)
    case None =>
      CostsAppend(ps, Increased(Placeholder(symbol, price), quantity, price));
      FirstBuyAverage(symbol, quantity, price);
    case Some(i) =>
      CostsUpdate(ps, i, Increased(ps[i], quantity, price));
      IncreasedCost(ps[i], quantity, price);
      var ps' := AddToPosition(ps, symbol, quantity, price);
      forall j, k | 0 <= j < k < |ps'| ensures ps'[j].symbol != ps'[k].symbol {
        assert ps'[j].symbol == ps[j].symbol && ps'[k].symbol == ps[k].symbol;
      }
  }

  /** After a buy the symbol is held, and its entry is the old one (or a fresh
      placeholder) increased by the order. */
  lemma AddToPositionEntry(ps: seq<Position>, symbol: string, quantity: int, price: real)
    requires PositiveQuantities(ps) && quantity > 0
    ensures var ps' := AddToPosition(ps, symbol, quantity, price);
      && IndexOf(ps', symbol).Some?
      && ps'[IndexOf(ps', symbol).value]
           == Increased(if IndexOf(ps, symbol).Some? then ps[IndexOf(ps, symbol).value]
                        else Placeholder(symbol, price), quantity, price)
  {
    var ps' := AddToPosition(ps, symbol, quantity, price);
    match IndexOf(ps, symbol)
    case None =>
      assert ps'[|ps|].symbol == symbol;
      assert IndexOf(ps', symbol).value == |ps|;
    case Some(i) =>
      assert ps'[i].symbol == symbol;
      assert IndexOf(ps', symbol).value == i;
  }

  /** A buy leaves every other symbol's position as it was. */
  lemma AddToPositionFrame(ps: seq<Position>, symbol: string, quantity: int, price: real, other: string)
    requires PositiveQuantities(ps) && quantity > 0 && other != symbol
    ensures var ps' := AddToPosition(ps, symbol, quantity, price);
      && (IndexOf(ps', other).Some? <==> IndexOf(ps, other).Some?)
      && (IndexOf(ps, other).Some? ==> ps'[IndexOf(ps', other).value] == ps[IndexOf(ps, other).value])
  {
    var ps' := AddToPosition(ps, symbol, quantity, price);
    if IndexOf(ps, other).Some? {
      var j := IndexOf(ps, other).value;
      assert ps'[j] == ps[j];
      assert IndexOf(ps', other).value == j;
    } else if IndexOf(ps, symbol).None? {
      assert forall j :: 0 <= j < |ps'| ==> ps'[j].symbol != other;
    }
  }

  /** Buying at the held position's current mark (or opening a new symbol)
      raises the market value by exactly the cost of the order. */
  lemma AddToPositionAtMark(ps: seq<Position>, symbol: string, quantity: int, price: real)
    requires PositiveQuantities(ps) && quantity > 0
    requires IndexOf(ps, symbol).Some? ==> ps[IndexOf(ps, symbol).value].currentPrice == price
    ensures MarketValue(AddToPosition(ps, symbol, quantity, price)) == MarketValue(ps) + quantity as real * price
  {
    match IndexOf(ps, symbol)
    case None =>
      CostsAppend(ps, Increased(Placeholder(symbol, price), quantity, price));
      FirstBuyAverage(symbol, quantity, price);
    case Some(i) =>
      CostsUpdate(ps, i, Increased(ps[i], quantity, price));
      IncreasedWorth(ps[i], quantity, price);
  }

  /** Deleting an entry keeps the symbols distinct and the quantities positive. */
  lemma WithoutKeepsShape(ps: seq<Position>, i: nat)
    requires DistinctSymbols(ps) && PositiveQuantities(ps) && i < |ps|
    ensures DistinctSymbols(Without(ps, i)) && PositiveQuantities(Without(ps, i))
  {
    var w := Without(ps, i);
    forall j | 0 <= j < |w| ensures w[j] == ps[if j < i then j else j + 1] {
      WithoutAt(ps, i, j);
    }
  }

  /** Reducing an entry by less than it holds keeps the symbols distinct and
      the quantities positive. */
  lemma ReducedKeepsShape(ps: seq<Position>, i: nat, quantity: int, price: real)
    requires DistinctSymbols(ps) && PositiveQuantities(ps)
    requires i < |ps| && ps[i].quantity > quantity
    ensures DistinctSymbols(ps[i := Reduced(ps[i], quantity, price)])
    ensures PositiveQuantities(ps[i := Reduced(ps[i], quantity, price)])
  {
    var ps' := ps[i := Reduced(ps[i], quantity, price)];
    assert forall j :: 0 <= j < |ps'| ==> ps'[j].symbol == ps[j].symbol;
  }

  /** Selling part or all of a position keeps one position per symbol and every
      quantity positive, and lowers the cost basis by quantity times the
      average price. */
  lemma TakeFromPositionKeepsShape(ps: seq<Position>, i: nat, quantity: int, price: real)
    requires DistinctSymbols(ps) && PositiveQuantities(ps)
    requires i < |ps| && ps[i].quantity >= quantity
    ensures var ps' := TakeFromPosition(ps, i, quantity, price);
      && DistinctSymbols(ps') && PositiveQuantities(ps')
      && CostBasis(ps') == CostBasis(ps) - quantity as real * ps[i].avgPrice
  {
    if ps[i].quantity - quantity == 0 {
      CostsRemove(ps, i);
      WithoutKeepsShape(ps, i);
    } else {
      CostsUpdate(ps, i, Reduced(ps[i], quantity, price));
      ReducedCost(ps[i], quantity, price);
      ReducedKeepsShape(ps, i, quantity, price);
    }
  }

  /** Selling everything removes the symbol; selling part keeps it at the same
      index, reduced. */
  lemma TakeFromPositionEntry(ps: seq<Position>, i: nat, quantity: int, price: real)
    requires DistinctSymbols(ps) && i < |ps| && ps[i].quantity >= quantity
    ensures var ps' := TakeFromPosition(ps, i, quantity, price);
      && (ps[i].quantity == quantity ==> IndexOf(ps', ps[i].symbol).None?)
      && (ps[i].quantity > quantity ==>
            && IndexOf(ps', ps[i].symbol) == Some(i)
            && ps'[i] == Reduced(ps[i], quantity, price))
  {
    var ps' := TakeFromPosition(ps, i, quantity, price);
    if ps[i].quantity == quantity {
      forall j | 0 <= j < |ps'| ensures ps'[j].symbol != ps[i].symbol {
        WithoutAt(ps, i, j);
      }
    } else {
      assert ps'[i].symbol == ps[i].symbol;
      assert forall j :: 0 <= j < i ==> ps'[j] == ps[j];
    }
  }

  // ---------------------------------------------------------------------------
  // Properties of buy

  /** A buy is rejected exactly when its cost exceeds the cash, and a rejected
      buy changes nothing. */
  lemma BuyRejection(a: Account, symbol: string, quantity: int, price: real, orderId: Option<string>)
    requires quantity > 0 && PositiveQuantities(a.positions)
    ensures var (a', o) := BuyStep(a, symbol, quantity, price, orderId);
      && (o.None? <==> quantity as real * price > a.cash)
      && (o.None? ==> a' == a)
  {
  }

  /** A successful buy takes exactly the cost from the cash, leaves the trade
      log alone and appends one order carrying the order's quantity, price and
      value; the symbol's position is updated as AddToPositionEntry states. */
  lemma BuyEffect(a: Account, symbol: string, quantity: int, price: real, orderId: Option<string>)
    requires quantity > 0 && PositiveQuantities(a.positions)
    requires quantity as real * price <= a.cash
    ensures var (a', o) := BuyStep(a, symbol, quantity, price, orderId);
      && o.Some?
      && a'.cash == a.cash - quantity as real * price
      && a'.initialCash == a.initialCash && a'.trades == a.trades
      && a'.positions == AddToPosition(a.positions, symbol, quantity, price)
      && a'.orders == a.orders + [o.value]
      && o.value.orderType == Buy && o.value.symbol == symbol
      && o.value.quantity == quantity && o.value.price == price
      && o.value.value == quantity as real * price
  {
  }

  /** Buying keeps the ledger invariant (distinct symbols, positive quantities,
      cost conservation) and never drives cash below zero. */
  lemma BuyPreservesInvariant(a: Account, symbol: string, quantity: int, price: real, orderId: Option<string>)
    requires ValidAccount(a) && quantity > 0
    ensures ValidAccount(BuyStep(a, symbol, quantity, price, orderId).0)
    ensures a.cash >= 0.0 ==> BuyStep(a, symbol, quantity, price, orderId).0.cash >= 0.0
  {
    AddToPositionKeepsShape(a.positions, symbol, quantity, price);
  }

  /** Buying at the position's current mark (or opening a new symbol) does not
      change the total portfolio value: cash moves into stock one for one. */
  lemma BuyAtMarkKeepsTotalValue(a: Account, symbol: string, quantity: int, price: real, orderId: Option<string>)
    requires quantity > 0 && PositiveQuantities(a.positions)
    requires IndexOf(a.positions, symbol).Some? ==> a.positions[IndexOf(a.positions, symbol).value].currentPrice == price
    ensures var a' := BuyStep(a, symbol, quantity, price, orderId).0;
      a'.cash + MarketValue(a'.positions) == a.cash + MarketValue(a.positions)
  {
    AddToPositionAtMark(a.positions, symbol, quantity, price);
  }

  /** Two buys of one new symbol leave the summed quantity and the
      quantity-weighted mean of their prices as the average price. */
  lemma TwoBuysAverage(a: Account, symbol: string, q1: int, p1: real, q2: int, p2: real)
    requires PositiveQuantities(a.positions) && IndexOf(a.positions, symbol).None?
    requires q1 > 0 && q2 > 0
    requires q1 as real * p1 <= a.cash && q2 as real * p2 <= a.cash - q1 as real * p1
    ensures var a1 := BuyStep(a, symbol, q1, p1, None).0;
      var a2 := BuyStep(a1, symbol, q2, p2, None).0;
      && IndexOf(a2.positions, symbol).Some?
      && a2.positions[IndexOf(a2.positions, symbol).value].quantity == q1 + q2
      && a2.positions[IndexOf(a2.positions, symbol).value].avgPrice
           == (q1 as real * p1 + q2 as real * p2) / (q1 + q2) as real
  {
    var a1 := BuyStep(a, symbol, q1, p1, None).0;
    var e1 := Increased(Placeholder(symbol, p1), q1, p1);
    FirstBuyOpens(a.positions, symbol, q1, p1);
    assert a1.positions == a.positions + [e1];
    var a2 := BuyStep(a1, symbol, q2, p2, None).0;
    assert a2.positions == AddToPosition(a1.positions, symbol, q2, p2);
    AddToPositionEntry(a1.positions, symbol, q2, p2);
    assert a2.positions[IndexOf(a2.positions, symbol).value] == Increased(e1, q2, p2);
  }

  /** A first buy of a symbol appends one entry holding the bought quantity
      at the order's price, keeping every quantity positive. */
  lemma FirstBuyOpens(ps: seq<Position>, symbol: string, quantity: int, price: real)
    requires PositiveQuantities(ps) && IndexOf(ps, symbol).None? && quantity > 0
    ensures var e := Increased(Placeholder(symbol, price), quantity, price);
      && AddToPosition(ps, symbol, quantity, price) == ps + [e]
      && IndexOf(ps + [e], symbol) == Some(|ps|)
      && PositiveQuantities(ps + [e])
      && e.quantity == quantity && Cost(e) == quantity as real * price
  {
    var e := Increased(Placeholder(symbol, price), quantity, price);
    FirstBuyAverage(symbol, quantity, price);
    AddToPositionEntry(ps, symbol, quantity, price);
    var ps' := ps + [e];
    assert forall k :: 0 <= k < |ps| ==> ps'[k] == ps[k];
  }

  // ---------------------------------------------------------------------------
  // Properties of sell

  /** A sell is rejected exactly when the symbol is not held or the held
      quantity is smaller than requested; a rejected sell changes nothing. */
  lemma SellRejection(a: Account, symbol: string, quantity: int, price: real, orderId: Option<string>)
    ensures var (a', o) := SellStep(a, symbol, quantity, price, orderId);
      && (o.None? <==> (IndexOf(a.positions, symbol).None?
                        || a.positions[IndexOf(a.positions, symbol).value].quantity < quantity))
      && (o.None? ==> a' == a)
  {
  }

  /** A successful sell adds the proceeds to the cash and appends exactly one
      order and one trade, whose buy price is the average cost, whose P&L is
      proceeds minus cost basis and whose percentage is 0 for a non-positive
      cost basis; the position is then removed (everything sold) or keeps its
      average price with the quantity reduced. */
  lemma SellEffect(a: Account, symbol: string, quantity: int, price: real, orderId: Option<string>)
    requires DistinctSymbols(a.positions)
    requires IndexOf(a.positions, symbol).Some?
    requires a.positions[IndexOf(a.positions, symbol).value].quantity >= quantity
    ensures var (a', o) := SellStep(a, symbol, quantity, price, orderId);
      var p := a.positions[IndexOf(a.positions, symbol).value];
      && o.Some? && o.value.orderType == Sell && o.value.quantity == quantity && o.value.price == price
      && a'.orders == a.orders + [o.value]
      && a'.cash == a.cash + quantity as real * price
      && |a'.trades| == |a.trades| + 1 && a'.trades[..|a.trades|] == a.trades
      && (var t := a'.trades[|a.trades|];
          && t.symbol == symbol && t.quantity == quantity
          && t.buyPrice == p.avgPrice && t.sellPrice == price
          && t.pnl == quantity as real * price - quantity as real * p.avgPrice
          && t.pnlPercent == (if quantity as real * p.avgPrice > 0.0
                              then t.pnl / (quantity as real * p.avgPrice) * 100.0 else 0.0))
      && (p.quantity == quantity ==> IndexOf(a'.positions, symbol).None?)
      && (p.quantity > quantity ==>
            && IndexOf(a'.positions, symbol).Some?
            && a'.positions[IndexOf(a'.positions, symbol).value].quantity == p.quantity - quantity
            && a'.positions[IndexOf(a'.positions, symbol).value].avgPrice == p.avgPrice
            && a'.positions[IndexOf(a'.positions, symbol).value].currentPrice == price)
  {
    var i := IndexOf(a.positions, symbol).value;
    var (a', o) := SellStep(a, symbol, quantity, price, orderId);
    var t := SaleTrade(symbol, a.positions[i], quantity, price);
    assert a'.trades == a.trades + [t];
    assert a'.trades[..|a.trades|] == a.trades;
    TakeFromPositionEntry(a.positions, i, quantity, price);
  }

  /** Selling keeps the ledger invariant: the symbol disappears when its
      quantity reaches zero, so every stored quantity stays positive, and
      cost is conserved because the realized P&L absorbs the difference
      between proceeds and cost basis. */
  lemma SellPreservesInvariant(a: Account, symbol: string, quantity: int, price: real, orderId: Option<string>)
    requires ValidAccount(a)
    ensures ValidAccount(SellStep(a, symbol, quantity, price, orderId).0)
  {
    match IndexOf(a.positions, symbol)
    case None =>
    case Some(i) =>
      if a.positions[i].quantity >= quantity {
        SaleConservesCost(a, i, symbol, quantity, price, SellStep(a, symbol, quantity, price, orderId).0);
      }
  }

  /** The accounting step behind SellPreservesInvariant: proceeds go to the
      cash, the basis leaves the positions and their difference is realized. */
  lemma SaleConservesCost(a: Account, i: nat, symbol: string, quantity: int, price: real, a': Account)
    requires ValidAccount(a) && i < |a.positions| && a.positions[i].quantity >= quantity
    requires a'.initialCash == a.initialCash
    requires a'.cash == a.cash + quantity as real * price
    requires a'.positions == TakeFromPosition(a.positions, i, quantity, price)
    requires a'.trades == a.trades + [SaleTrade(symbol, a.positions[i], quantity, price)]
    ensures ValidAccount(a')
  {
    var proceeds, basis := quantity as real * price, quantity as real * a.positions[i].avgPrice;
    var t := SaleTrade(symbol, a.positions[i], quantity, price);
    TakeFromPositionKeepsShape(a.positions, i, quantity, price);
    PnlsAppend(a.trades, t);
    assert t.pnl == proceeds - basis;
    assert CostBasis(a'.positions) == CostBasis(a.positions) - basis;
    assert RealizedPnl(a'.trades) == RealizedPnl(a.trades) + (proceeds - basis);
  }

  /** Cash stays non-negative through a sell whose proceeds are not negative. */
  lemma SellKeepsCashNonNegative(a: Account, symbol: string, quantity: int, price: real, orderId: Option<string>)
    requires a.cash >= 0.0 && quantity as real * price >= 0.0
    ensures SellStep(a, symbol, quantity, price, orderId).0.cash >= 0.0
  {
  }

  /** After selling the whole holding, a further sell of that symbol is rejected. */
  lemma SellAllThenSellRejected(a: Account, symbol: string, price: real, price2: real, q2: int)
    requires DistinctSymbols(a.positions) && IndexOf(a.positions, symbol).Some?
    ensures var held := a.positions[IndexOf(a.positions, symbol).value].quantity;
      var a' := SellStep(a, symbol, held, price, None).0;
      SellStep(a', symbol, q2, price2, None).1.None?
  {
    var held := a.positions[IndexOf(a.positions, symbol).value].quantity;
    SellEffect(a, symbol, held, price, None);
  }

  /** The trade log only grows, by appending: a buy leaves it alone and a sell
      keeps the old log as a prefix. */
  lemma TradeLogAppendOnly(a: Account, symbol: string, quantity: int, price: real, orderId: Option<string>)
    requires quantity > 0 && PositiveQuantities(a.positions)
    ensures BuyStep(a, symbol, quantity, price, orderId).0.trades == a.trades
    ensures var t := SellStep(a, symbol, quantity, price, orderId).0.trades;
      |t| >= |a.trades| && t[..|a.trades|] == a.trades
  {
    var t := SellStep(a, symbol, quantity, price, orderId).0.trades;
    if |t| > |a.trades| {
      assert t == a.trades + [t[|a.trades|]];
      assert t[..|a.trades|] == a.trades;
    }
  }

  /** Every successful order appends exactly one order; an absent or empty id
      becomes `BUY_<symbol>_<n>` or `SELL_<symbol>_<n>`, n the prior history length. */
  lemma DefaultOrderIds(a: Account, symbol: string, quantity: int, price: real)
    requires quantity > 0 && PositiveQuantities(a.positions)
    ensures var (b, o) := BuyStep(a, symbol, quantity, price, None);
      o.Some? ==> b.orders == a.orders + [o.value]
                  && o.value.orderId == "BUY_" + symbol + "_" + NatToString(|a.orders|)
    ensures var (s, o) := SellStep(a, symbol, quantity, price, None);
      o.Some? ==> s.orders == a.orders + [o.value]
                  && o.value.orderId == "SELL_" + symbol + "_" + NatToString(|a.orders|)
    ensures var (b, o) := BuyStep(a, symbol, quantity, price, Some(""));
      o.Some? ==> o.value.orderId == "BUY_" + symbol + "_" + NatToString(|a.orders|)
  {
  }

  /** Round trip: opening a new symbol and then selling all of it restores
      the other positions exactly, moves the cash by the price difference, and
      realizes one trade bought at the first price. */
  lemma BuyThenSellAll(a: Account, symbol: string, quantity: int, p1: real, p2: real)
    requires PositiveQuantities(a.positions) && IndexOf(a.positions, symbol).None?
    requires quantity > 0 && quantity as real * p1 <= a.cash
    ensures var a1 := BuyStep(a, symbol, quantity, p1, None).0;
      var (a2, o) := SellStep(a1, symbol, quantity, p2, None);
      && o.Some?
      && a2.positions == a.positions
      && a2.cash == a.cash - quantity as real * p1 + quantity as real * p2
      && a2.trades == a.trades + [Trade(symbol, quantity, p1, p2, quantity as real * p2 - quantity as real * p1,
                                        SaleTrade(symbol, Increased(Placeholder(symbol, p1), quantity, p1), quantity, p2).pnlPercent)]
  {
    var ps := a.positions;
    var e := Increased(Placeholder(symbol, p1), quantity, p1);
    FirstBuyAverage(symbol, quantity, p1);
    FirstBuyOpens(ps, symbol, quantity, p1);
    var a1 := BuyStep(a, symbol, quantity, p1, None).0;
    assert a1.positions == ps + [e];
    assert Without(ps + [e], |ps|) == ps;
    assert e.quantity == quantity && e.avgPrice == p1;
    assert TakeFromPosition(ps + [e], |ps|, quantity, p2) == ps;
    assert SaleTrade(symbol, e, quantity, p2).pnl == quantity as real * p2 - quantity as real * p1;
  }

  // ---------------------------------------------------------------------------
  // Read-only queries

  datatype PortfolioValue = PortfolioValue(cash: real, stocksValue: real, totalValue: real,
                                           totalReturn: real, returnPercent: real)

  /** get_portfolio_value; the return percentage divides by the initial cash. */
  function GetPortfolioValue(a: Account): (v: PortfolioValue)
    requires a.initialCash != 0.0
    ensures v.totalValue == v.cash + v.stocksValue && v.cash == a.cash
    ensures v.stocksValue == MarketValue(a.positions)
    ensures v.totalReturn == v.totalValue - a.initialCash
    ensures v.returnPercent * a.initialCash == v.totalReturn * 100.0
  {
    var stocks := MarketValue(a.positions);
    var total := a.cash + stocks;
    PortfolioValue(a.cash, stocks, total, total - a.initialCash,
                   (total - a.initialCash) / a.initialCash * 100.0)
  }

  datatype PositionView = PositionView(symbol: string, quantity: int, avgPrice: real,
                                       currentPrice: real, value: real, unrealizedPnl: real)

  function View(p: Position): PositionView
  {
    PositionView(p.symbol, p.quantity, p.avgPrice, p.currentPrice,
                 p.quantity as real * p.currentPrice,
                 p.quantity as real * (p.currentPrice - p.avgPrice))
  }

  /** get_positions: one view per open position, in insertion order, carrying
      the position's symbol, quantity, average and mark, valued at the mark.
      Each view's unrealized P&L is its value minus what the position cost, so the
      views' values add up to the market value of the positions and their
      unrealized P&Ls to market value minus cost basis. */
  function GetPositions(ps: seq<Position>): (r: seq<PositionView>)
    ensures |r| == |ps|
    ensures forall i :: 0 <= i < |ps| ==>
              && r[i].symbol == ps[i].symbol && r[i].quantity == ps[i].quantity
              && r[i].avgPrice == ps[i].avgPrice && r[i].currentPrice == ps[i].currentPrice
              && r[i].value == ps[i].quantity as real * ps[i].currentPrice
              && r[i].unrealizedPnl == r[i].value - ps[i].quantity as real * ps[i].avgPrice
    ensures Sum(ViewValues(r)) == MarketValue(ps)
    ensures Sum(ViewPnls(r)) == MarketValue(ps) - CostBasis(ps)
  {
    var r := seq(|ps|, i requires 0 <= i < |ps| => View(ps[i]));
    ViewSums(ps, r);
    r
  }

  lemma ViewSums(ps: seq<Position>, r: seq<PositionView>)
    requires |r| == |ps| && forall i :: 0 <= i < |ps| ==> r[i] == View(ps[i])
    ensures Sum(ViewValues(r)) == MarketValue(ps)
    ensures Sum(ViewPnls(r)) == MarketValue(ps) - CostBasis(ps)
  {
    assert ViewValues(r) == Values(ps) by {
      forall i | 0 <= i < |ps| ensures ViewValues(r)[i] == Values(ps)[i] {
        assert r[i] == View(ps[i]);
      }
    }
    forall i | 0 <= i < |ps| ensures ViewPnls(r)[i] == Values(ps)[i] - Costs(ps)[i] {
      assert ViewPnls(r)[i] == ps[i].quantity as real * (ps[i].currentPrice - ps[i].avgPrice);
    }
    SumDifference(Values(ps), Costs(ps), ViewPnls(r));
  }

  function ViewValues(vs: seq<PositionView>): seq<real>
  {
    seq(|vs|, i requires 0 <= i < |vs| => vs[i].value)
  }

  function ViewPnls(vs: seq<PositionView>): seq<real>
  {
    seq(|vs|, i requires 0 <= i < |vs| => vs[i].unrealizedPnl)
  }

  lemma {:induction false} SumDifference(a: seq<real>, b: seq<real>, d: seq<real>)
    requires |a| == |b| == |d|
    requires forall i :: 0 <= i < |a| ==> d[i] == a[i] - b[i]
    ensures Sum(d) == Sum(a) - Sum(b)
    decreases |a|
  {
    if a != [] {
      var n := |a| - 1;
      SumDifference(a[..n], b[..n], d[..n]);
    }
  }

  // ---------------------------------------------------------------------------
  // Performance metrics

  /** The trade-count and P&L part of get_performance_metrics. */
  datatype TradeStats = TradeStats(totalTrades: nat, winningTrades: nat, losingTrades: nat,
                                   winRate: real, totalPnl: real, avgWin: real, avgLoss: real,
                                   profitFactor: real)

  /** The winning and the losing P&Ls, in log order. */
  function Wins(pnls: seq<real>): seq<real> { Positives(pnls) }
  function Losses(pnls: seq<real>): seq<real> { Negatives(pnls) }

  /** Mean of the winning P&Ls; 0 without wins. */
  function AvgWin(pnls: seq<real>): real { Mean(Wins(pnls)) }

  /** Absolute mean of the losing P&Ls; 0 without losses. */
  function AvgLoss(pnls: seq<real>): real { Abs(Mean(Losses(pnls))) }

  function Stats(pnls: seq<real>): TradeStats
  {
    var total := |pnls|;
    var wins := |Wins(pnls)|;
    var winRate := if total > 0 then wins as real / total as real * 100.0 else 0.0;
    var avgWin, avgLoss := AvgWin(pnls), AvgLoss(pnls);
    var profitFactor := if avgLoss != 0.0 then avgWin / avgLoss else 0.0;
    TradeStats(total, wins, |Losses(pnls)|, winRate, Total(pnls), avgWin, avgLoss, profitFactor)
  }

  /** The trade counts are consistent: wins and losses never exceed the trade
      count, the win rate is a percentage, both averages are non-negative, the
      profit factor is avg_win / avg_loss when some trade lost and 0 when none
      did (never an infinity), and an empty log gives all zeros. */
  lemma StatsConsistent(pnls: seq<real>)
    ensures var st := Stats(pnls);
      && st.winningTrades + st.losingTrades <= st.totalTrades
      && 0.0 <= st.winRate <= 100.0
      && st.avgWin >= 0.0 && st.avgLoss >= 0.0
      && (st.losingTrades > 0 ==> st.avgLoss > 0.0 && st.profitFactor == st.avgWin / st.avgLoss)
      && (st.losingTrades == 0 ==> st.profitFactor == 0.0)
      && (pnls == [] ==> st == TradeStats(0, 0, 0, 0.0, 0.0, 0.0, 0.0, 0.0))
  {
    WinLossSplit(pnls);
    if |pnls| > 0 {
      RatioPercent(|Wins(pnls)|, |pnls|);
    }
    AverageSigns(pnls);
  }

  /** The average win is never negative, and the average loss is positive
      as soon as some trade lost. */
  lemma AverageSigns(pnls: seq<real>)
    ensures AvgWin(pnls) >= 0.0 && AvgLoss(pnls) >= 0.0
    ensures |Losses(pnls)| > 0 ==> AvgLoss(pnls) > 0.0
  {
    var ws, ls := Wins(pnls), Losses(pnls);
    SumNonNegative(ws);
    if |ws| > 0 {
      assert Total(ws) / |ws| as real >= 0.0;
    }
    NegativeSum(ls);
    if |ls| > 0 {
      assert Total(ls) / |ls| as real < 0.0;
    }
  }

  // ---------------------------------------------------------------------------
  // Drawdown

  /** The cumulative portfolio curve: the initial cash, then one point per trade
      adding that trade's P&L to the previous point. */
  function Equity(initialCash: real, pnls: seq<real>): (r: seq<real>)
    ensures |r| == |pnls| + 1 && r[0] == initialCash
    ensures forall i :: 0 <= i < |pnls| ==> r[i + 1] == r[i] + pnls[i]
  {
    if pnls == [] then [initialCash]
    else
      var e := Equity(initialCash, pnls[..|pnls| - 1]);
      e + [e[|e| - 1] + pnls[|pnls| - 1]]
  }

  /** The per-point drawdown of get_performance_metrics, guarded against a non-positive peak. */
  function DrawdownFrom(peak: real, v: real): real
  {
    if peak > 0.0 then (peak - v) / peak * 100.0 else 0.0
  }

  lemma DrawdownFromBounds(peak: real, v: real)
    ensures v <= peak ==> DrawdownFrom(peak, v) >= 0.0
    ensures v == peak ==> DrawdownFrom(peak, v) == 0.0
    ensures peak > 0.0 && 0.0 <= v ==> DrawdownFrom(peak, v) <= 100.0
  {
    if peak > 0.0 {
      assert (peak - v) / peak <= 1.0 <== 0.0 <= v;
    }
  }

  /** The source's reduction: the smallest per-point drawdown from the peak. */
  function MinDrawdown(peak: real, vs: seq<real>): real
    requires vs != []
  {
    if |vs| == 1 then DrawdownFrom(peak, vs[0])
    else Min(MinDrawdown(peak, vs[..|vs| - 1]), DrawdownFrom(peak, vs[|vs| - 1]))
  }

  /** As written, the reported "max drawdown" is always 0: the peak is one of
      the points, its own drawdown is 0 and no point's drawdown is negative. */
  lemma {:induction false} AsWrittenDrawdownIsZero(vs: seq<real>)
    requires vs != []
    ensures MinDrawdown(SeqMax(vs), vs) == 0.0
  {
    MinDrawdownFacts(SeqMax(vs), vs);
  }

  lemma {:induction false} MinDrawdownFacts(peak: real, vs: seq<real>)
    requires vs != []
    requires forall i :: 0 <= i < |vs| ==> vs[i] <= peak
    ensures MinDrawdown(peak, vs) >= 0.0
    ensures (exists i :: 0 <= i < |vs| && vs[i] == peak) ==> MinDrawdown(peak, vs) == 0.0
    decreases |vs|
  {
    var n := |vs| - 1;
    DrawdownFromBounds(peak, vs[n]);
    if n > 0 {
      MinDrawdownFacts(peak, vs[..n]);
      if exists i :: 0 <= i < |vs| && vs[i] == peak {
        var i :| 0 <= i < |vs| && vs[i] == peak;
        if i < n { assert vs[..n][i] == peak; }
      }
    }
  }

  /** The evidently intended maximum drawdown: the largest fall, in percent,
      from the running peak seen so far to a later point. */
  function PeakToTrough(peak: real, vs: seq<real>): real
    decreases |vs|
  {
    if vs == [] then 0.0
    else
      var p := Max(peak, vs[0]);
      Max(DrawdownFrom(p, vs[0]), PeakToTrough(p, vs[1..]))
  }

  function MaxDrawdown(vs: seq<real>): (r: real)
    requires vs != []
  {
    PeakToTrough(vs[0], vs)
  }

  /** The corrected drawdown is a percentage: never negative, and at most 100
      while the curve stays non-negative and starts positive. */
  lemma {:induction false} PeakToTroughBounds(peak: real, vs: seq<real>)
    ensures PeakToTrough(peak, vs) >= 0.0
    ensures peak > 0.0 && (forall i :: 0 <= i < |vs| ==> vs[i] >= 0.0) ==> PeakToTrough(peak, vs) <= 100.0
    decreases |vs|
  {
    if vs != [] {
      var p := Max(peak, vs[0]);
      DrawdownFromBounds(p, vs[0]);
      PeakToTroughBounds(p, vs[1..]);
      if peak > 0.0 && (forall i :: 0 <= i < |vs| ==> vs[i] >= 0.0) {
        assert forall i :: 0 <= i < |vs[1..]| ==> vs[1..][i] == vs[i + 1];
      }
    }
  }

  /** The corrected drawdown covers every point: each point's fall from the
      running peak before it is at most the reported maximum. */
  lemma {:induction false} PeakToTroughCoversFall(peak: real, vs: seq<real>, j: nat)
    requires j < |vs|
    ensures DrawdownFrom(Max(peak, SeqMax(vs[..j + 1])), vs[j]) <= PeakToTrough(peak, vs)
    decreases |vs|
  {
    var p := Max(peak, vs[0]);
    PeakToTroughBounds(p, vs[1..]);
    if j == 0 {
      assert vs[..1] == [vs[0]];
    } else {
      PeakToTroughCoversFall(p, vs[1..], j - 1);
      assert vs[1..][..j] == vs[1..j + 1];
      RunningPeakShift(peak, vs, j);
    }
  }

  /** The fall of point j from the running peak before it, `peak` included. */
  function RunningFall(peak: real, vs: seq<real>, j: nat): real
    requires j < |vs|
  {
    DrawdownFrom(Max(peak, SeqMax(vs[..j + 1])), vs[j])
  }

  lemma RunningFallShift(peak: real, vs: seq<real>, k: nat)
    requires k + 1 < |vs|
    ensures RunningFall(Max(peak, vs[0]), vs[1..], k) == RunningFall(peak, vs, k + 1)
  {
    assert vs[1..][..k + 1] == vs[1..k + 2];
    RunningPeakShift(peak, vs, k + 1);
  }

  /** The corrected drawdown is attained: it is 0 or the fall of some point
      from the running peak before it, so it is the largest such fall. */
  lemma {:induction false} PeakToTroughAttained(peak: real, vs: seq<real>)
    ensures PeakToTrough(peak, vs) == 0.0
            || exists j :: 0 <= j < |vs| && PeakToTrough(peak, vs) == RunningFall(peak, vs, j)
    decreases |vs|
  {
    if vs != [] {
      var p := Max(peak, vs[0]);
      var r := PeakToTrough(peak, vs);
      if r == DrawdownFrom(p, vs[0]) {
        assert vs[..1] == [vs[0]];
        assert r == RunningFall(peak, vs, 0);
      } else {
        assert r == PeakToTrough(p, vs[1..]);
        PeakToTroughAttained(p, vs[1..]);
        if r != 0.0 {
          var k :| 0 <= k < |vs[1..]| && r == RunningFall(p, vs[1..], k);
          RunningFallShift(peak, vs, k);
          assert r == RunningFall(peak, vs, k + 1);
        }
      }
    }
  }

  /** The corrected maximum drawdown of a curve is its largest fall from the
      running peak: no point falls further, it is 0 or some point's fall, and
      it is a percentage for a curve that starts positive and stays
      non-negative. */
  lemma MaxDrawdownIsLargestFall(vs: seq<real>)
    requires vs != []
    ensures forall j :: 0 <= j < |vs| ==> DrawdownFrom(SeqMax(vs[..j + 1]), vs[j]) <= MaxDrawdown(vs)
    ensures MaxDrawdown(vs) == 0.0
            || exists j :: 0 <= j < |vs| && MaxDrawdown(vs) == DrawdownFrom(SeqMax(vs[..j + 1]), vs[j])
    ensures 0.0 <= MaxDrawdown(vs)
    ensures vs[0] > 0.0 && (forall i :: 0 <= i < |vs| ==> vs[i] >= 0.0) ==> MaxDrawdown(vs) <= 100.0
  {
    forall j | 0 <= j < |vs|
      ensures DrawdownFrom(SeqMax(vs[..j + 1]), vs[j]) <= MaxDrawdown(vs)
    {
      assert vs[..j + 1][0] == vs[0];
      PeakToTroughCoversFall(vs[0], vs, j);
    }
    PeakToTroughAttained(vs[0], vs);
    if MaxDrawdown(vs) != 0.0 {
      var j :| 0 <= j < |vs| && MaxDrawdown(vs) == RunningFall(vs[0], vs, j);
      assert vs[..j + 1][0] == vs[0];
      assert MaxDrawdown(vs) == DrawdownFrom(SeqMax(vs[..j + 1]), vs[j]);
    }
    PeakToTroughBounds(vs[0], vs);
  }

  lemma RunningPeakShift(peak: real, vs: seq<real>, j: nat)
    requires 0 < j < |vs|
    ensures Max(Max(peak, vs[0]), SeqMax(vs[1..j + 1])) == Max(peak, SeqMax(vs[..j + 1]))
  {
    var w, t := vs[..j + 1], vs[1..j + 1];
    assert forall i :: 0 <= i < |t| ==> t[i] == w[i + 1];
    var mw, mt := SeqMax(w), SeqMax(t);
    assert mt <= mw by {
      var i :| 0 <= i < |t| && t[i] == mt;
      assert w[i + 1] == mt;
    }
    assert vs[0] <= mw by { assert w[0] == vs[0]; }
    assert mw <= Max(vs[0], mt) by {
      var i :| 0 <= i < |w| && w[i] == mw;
      if i > 0 { assert t[i - 1] == w[i]; }
    }
  }

  /** The input that exposes the discrepancy: one losing trade of 1000 on an
      account of 100000 falls 1% below the peak, yet the source reports 0. */
  lemma DrawdownCounterexample()
    ensures MinDrawdown(SeqMax([100000.0, 99000.0]), [100000.0, 99000.0]) == 0.0
    ensures MaxDrawdown([100000.0, 99000.0]) == 1.0
  {
    var vs := [100000.0, 99000.0];
    AsWrittenDrawdownIsZero(vs);
    assert vs[1..] == [99000.0];
    assert vs[1..][1..] == [];
  }

  /** The full get_performance_metrics result. The drawdown is absent for an
      empty trade log, as the source omits that key there. */
  datatype PerformanceMetrics = PerformanceMetrics(stats: TradeStats, maxDrawdown: Option<real>)

  // ---------------------------------------------------------------------------
  // The ledger object

  class PaperTradingService {
    var initialCash: real
    var cash: real
    var positions: seq<Position>
    var orderHistory: seq<Order>
    var trades: seq<Trade>

    function Snapshot(): Account
      reads this
    {
      Account(initialCash, cash, positions, orderHistory, trades)
    }

    predicate Valid()
      reads this
    {
      ValidAccount(Snapshot())
    }

    constructor (initialCash: real)
      ensures Valid()
      ensures Snapshot() == NewAccount(initialCash)
    {
      this.initialCash := initialCash;
      cash := initialCash;
      positions := [];
      orderHistory := [];
      trades := [];
    }

    method Buy(symbol: string, quantity: int, price: real, orderId: Option<string>)
      returns (order: Option<Order>)
      requires Valid() && quantity > 0
      modifies this
      ensures Valid()
      ensures (Snapshot(), order) == BuyStep(old(Snapshot()), symbol, quantity, price, orderId)
    {
      ghost var before := Snapshot();
      var cost := quantity as real * price;
      if cost > cash {
        return None;
      }
      cash := cash - cost;
      var idx := IndexOf(positions, symbol);
      if idx.None? {
        positions := positions + [Placeholder(symbol, price)];
        idx := Some(|positions| - 1);
      }
      var i := idx.value;
      positions := positions[i := Increased(positions[i], quantity, price)];
      assert positions == AddToPosition(before.positions, symbol, quantity, price);
      var o := MakeOrder(orderId, OrderType.Buy, symbol, quantity, price, |orderHistory|);
      orderHistory := orderHistory + [o];
      order := Some(o);
      BuyPreservesInvariant(before, symbol, quantity, price, orderId);
    }

    method Sell(symbol: string, quantity: int, price: real, orderId: Option<string>)
      returns (order: Option<Order>)
      requires Valid()
      modifies this
      ensures Valid()
      ensures (Snapshot(), order) == SellStep(old(Snapshot()), symbol, quantity, price, orderId)
    {
      ghost var before := Snapshot();
      var idx := IndexOf(positions, symbol);
      if idx.None? || positions[idx.value].quantity < quantity {
        return None;
      }
      var i := idx.value;
      var sold := positions[i];
      var rest := TakeShares(positions, i, quantity, price);
      var o := MakeOrder(orderId, OrderType.Sell, symbol, quantity, price, |orderHistory|);
      cash := cash + quantity as real * price;
      trades := trades + [SaleTrade(symbol, sold, quantity, price)];
      positions := rest;
      orderHistory := orderHistory + [o];
      order := Some(o);
      assert (Snapshot(), order) == SellStep(before, symbol, quantity, price, orderId);
      SellPreservesInvariant(before, symbol, quantity, price, orderId);
    }

    /** get_performance_metrics: the trade statistics, and as "max drawdown"
        the smallest per-point drawdown of the cumulative curve from its peak,
        which is always 0 (see AsWrittenDrawdownIsZero). */
    method GetPerformanceMetrics() returns (m: PerformanceMetrics)
      ensures trades == [] ==> m == PerformanceMetrics(TradeStats(0, 0, 0, 0.0, 0.0, 0.0, 0.0, 0.0), None)
      ensures trades != [] ==>
                var curve := Equity(initialCash, Pnls(trades));
                && m.stats == Stats(Pnls(trades))
                && m.maxDrawdown == Some(MinDrawdown(SeqMax(curve), curve))
                && m.maxDrawdown == Some(0.0)
    {
      if trades == [] {
        return PerformanceMetrics(TradeStats(0, 0, 0, 0.0, 0.0, 0.0, 0.0, 0.0), None);
      }
      var values := PortfolioCurve(initialCash, trades);
      var drawdown := SmallestDrawdown(values);
      AsWrittenDrawdownIsZero(values);
      m := PerformanceMetrics(Stats(Pnls(trades)), Some(drawdown));
    }
  }

  /** The portfolio_values loop of get_performance_metrics: start at the
      initial cash and append the running total after each trade's P&L. */
  method PortfolioCurve(initialCash: real, trades: seq<Trade>) returns (values: seq<real>)
    ensures values == Equity(initialCash, Pnls(trades))
  {
    ghost var pnls := Pnls(trades);
    values := [initialCash];
    var k := 0;
    while k < |trades|
      invariant 0 <= k <= |trades|
      invariant values == Equity(initialCash, pnls[..k])
    {
      assert pnls[..k + 1][..k] == pnls[..k];
      values := values + [values[|values| - 1] + trades[k].pnl];
      k := k + 1;
    }
    assert pnls[..|trades|] == pnls;
  }

  /** The drawdown reduction of get_performance_metrics: the peak is the
      largest value, and the result the smallest drawdown from it over all points. */
  method SmallestDrawdown(values: seq<real>) returns (drawdown: real)
    requires values != []
    ensures drawdown == MinDrawdown(SeqMax(values), values)
  {
    var peak := SeqMax(values);
    drawdown := DrawdownFrom(peak, values[0]);
    var j := 1;
    while j < |values|
      invariant 1 <= j <= |values|
      invariant drawdown == MinDrawdown(peak, values[..j])
    {
      assert values[..j + 1][..j] == values[..j];
      drawdown := Min(drawdown, DrawdownFrom(peak, values[j]));
      j := j + 1;
    }
    assert values[..|values|] == values;
  }

  // ---------------------------------------------------------------------------
  // Position sizing

  datatype Sizing =
    | Sized(symbol: string, positionSize: int, riskAmount: real, accountPercent: real)
    | Unsized(riskAmount: real, accountPercent: real)

  /** int(risk / price) shares cost at most the risk, and one more share would exceed it. */
  lemma SizeWithinRisk(risk: real, price: real)
    requires price > 0.0
    ensures var size := Trunc(risk / price);
      risk >= 0.0 ==> 0 <= size && size as real * price <= risk < (size + 1) as real * price
  {
    if risk >= 0.0 {
      var q := risk / price;
      var size := Trunc(q);
      assert q * price == risk;
      assert q >= 0.0;
      assert size as real <= q < size as real + 1.0;
      MulMono(size as real, q, price);
      assert q < (size + 1) as real;
      MulMono(q, (size + 1) as real, price);
      assert q * price < (size + 1) as real * price;
      assert risk < (size + 1) as real * price;
    }
  }

  /** Risk `accountRiskPercent` of the total value. With a non-empty symbol and a
      positive quoted price the suggested size is int(risk / price); a zero total
      value makes the percentage a division by zero, which the source's bare
      `except` turns into the unsized answer. */
  function PositionSizing(a: Account, accountRiskPercent: real, symbol: string, quotedPrice: Option<real>): Sizing
    requires a.initialCash != 0.0
  {
    var total := GetPortfolioValue(a).totalValue;
    var risk := total * (accountRiskPercent / 100.0);
    if symbol != "" && quotedPrice.Some? && quotedPrice.value > 0.0 && total != 0.0 then
      var price := quotedPrice.value;
      var size := Trunc(risk / price);
      Sized(symbol, size, risk, size as real * price / total * 100.0)
    else
      Unsized(risk, accountRiskPercent)
  }

  /** The risk amount is the requested share of the total value; a size is
      suggested exactly for a non-empty symbol with a positive quote and a
      non-zero total value, and otherwise the requested percentage is echoed. */
  lemma PositionSizingCases(a: Account, accountRiskPercent: real, symbol: string, quotedPrice: Option<real>)
    requires a.initialCash != 0.0
    ensures var r := PositionSizing(a, accountRiskPercent, symbol, quotedPrice);
      && r.riskAmount == (a.cash + MarketValue(a.positions)) * (accountRiskPercent / 100.0)
      && (r.Unsized? ==> r.accountPercent == accountRiskPercent)
      && (r.Sized? <==> symbol != "" && quotedPrice.Some? && quotedPrice.value > 0.0
                        && a.cash + MarketValue(a.positions) != 0.0)
  {
  }

  /** With a non-negative risk amount the suggested size is the largest whole
      number of shares whose cost stays within the risk. */
  lemma PositionSizingWithinRisk(a: Account, accountRiskPercent: real, symbol: string, quotedPrice: Option<real>)
    requires a.initialCash != 0.0
    ensures var r := PositionSizing(a, accountRiskPercent, symbol, quotedPrice);
      r.Sized? && r.riskAmount >= 0.0 ==>
        && 0 <= r.positionSize
        && r.positionSize as real * quotedPrice.value <= r.riskAmount
        && r.riskAmount < (r.positionSize + 1) as real * quotedPrice.value
  {
    var r := PositionSizing(a, accountRiskPercent, symbol, quotedPrice);
    if r.Sized? {
      SizeWithinRisk(r.riskAmount, quotedPrice.value);
    }
  }
}
