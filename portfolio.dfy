/** The portfolio controller's arithmetic: folding the transaction log into
    per-symbol holdings, valuing the holdings at quoted prices, and
    validating a new transaction. */
module PortfolioHoldings {
  import opened Common

  /** A stored transaction. Any type other than "buy" is folded as a sale. */
  datatype Transaction = Transaction(symbol: string, transactionType: string, quantity: real, totalAmount: real)

  /** A running holding: net quantity and net amount paid. */
  datatype Holding = Holding(symbol: string, quantity: real, totalCost: real)

  function SignedQuantity(t: Transaction): real
  {
    if t.transactionType == "buy" then t.quantity else -t.quantity
  }

  function SignedAmount(t: Transaction): real
  {
    if t.transactionType == "buy" then t.totalAmount else -t.totalAmount
  }

  // ---------------------------------------------------------------------------
  // Net positions, defined transaction by transaction

  /** Net quantity of a symbol: bought minus sold. */
  function NetQuantity(ts: seq<Transaction>, symbol: string): real
  {
    if ts == [] then 0.0
    else NetQuantity(ts[..|ts| - 1], symbol)
         + (if ts[|ts| - 1].symbol == symbol then SignedQuantity(ts[|ts| - 1]) else 0.0)
  }

  /** Net amount of a symbol: paid for buys minus received for sales. */
  function NetCost(ts: seq<Transaction>, symbol: string): real
  {
    if ts == [] then 0.0
    else NetCost(ts[..|ts| - 1], symbol)
         + (if ts[|ts| - 1].symbol == symbol then SignedAmount(ts[|ts| - 1]) else 0.0)
  }

  /** Both nets split over a concatenation. */
  lemma {:induction false} NetsAppend(a: seq<Transaction>, b: seq<Transaction>, symbol: string)
    ensures NetQuantity(a + b, symbol) == NetQuantity(a, symbol) + NetQuantity(b, symbol)
    ensures NetCost(a + b, symbol) == NetCost(a, symbol) + NetCost(b, symbol)
    decreases |b|
  {
    if b == [] {
      assert a + b == a;
    } else {
      var n := |b| - 1;
      assert (a + b)[..|a + b| - 1] == a + b[..n];
      NetsAppend(a, b[..n], symbol);
    }
  }

  /** The nets do not depend on the order of the transactions. */
  lemma NetsIgnoreOrder(a: seq<Transaction>, b: seq<Transaction>, symbol: string)
    ensures NetQuantity(a + b, symbol) == NetQuantity(b + a, symbol)
    ensures NetCost(a + b, symbol) == NetCost(b + a, symbol)
  {
    NetsAppend(a, b, symbol);
    NetsAppend(b, a, symbol);
  }

  // ---------------------------------------------------------------------------
  // The fold of get_portfolio

  function IndexOf(hs: seq<Holding>, symbol: string): (r: Option<nat>)
    ensures r.Some? ==> r.value < |hs| && hs[r.value].symbol == symbol
    ensures r.None? ==> forall i :: 0 <= i < |hs| ==> hs[i].symbol != symbol
  {
    if hs == [] then None
    else if hs[|hs| - 1].symbol == symbol then Some(|hs| - 1)
    else IndexOf(hs[..|hs| - 1], symbol)
  }

  /** One transaction applied to the holdings: a new symbol starts at zero at
      the end (dict insertion order), then quantity and amount move by the
      signed values. */
  function Apply(hs: seq<Holding>, t: Transaction): seq<Holding>
  {
    match IndexOf(hs, t.symbol)
    case None => hs + [Holding(t.symbol, SignedQuantity(t), SignedAmount(t))]
    case Some(i) =>
      hs[i := Holding(t.symbol, hs[i].quantity + SignedQuantity(t), hs[i].totalCost + SignedAmount(t))]
  }

  function Fold(ts: seq<Transaction>): seq<Holding>
  {
    if ts == [] then [] else Apply(Fold(ts[..|ts| - 1]), ts[|ts| - 1])
  }

  predicate DistinctSymbols(hs: seq<Holding>)
  {
    forall i, j :: 0 <= i < j < |hs| ==> hs[i].symbol != hs[j].symbol
  }

  /** One pass of the holdings loop: a missing symbol gets a zero entry
      first, then a buy adds and anything else subtracts. */
  method Record(hs: seq<Holding>, t: Transaction) returns (r: seq<Holding>)
    ensures r == Apply(hs, t)
  {
    r := hs;
    var idx := IndexOf(r, t.symbol);
    if idx.None? {
      r := r + [Holding(t.symbol, 0.0, 0.0)];
      idx := Some(|r| - 1);
    }
    var i := idx.value;
    if t.transactionType == "buy" {
      r := r[i := r[i].(quantity := r[i].quantity + t.quantity, totalCost := r[i].totalCost + t.totalAmount)];
    } else {
      r := r[i := r[i].(quantity := r[i].quantity - t.quantity, totalCost := r[i].totalCost - t.totalAmount)];
    }
  }

  /** The holdings loop of get_portfolio. */
  method AggregateHoldings(ts: seq<Transaction>) returns (hs: seq<Holding>)
    ensures hs == Fold(ts)
  {
    hs := [];
    var k := 0;
    while k < |ts|
      invariant 0 <= k <= |ts|
      invariant hs == Fold(ts[..k])
    {
      assert ts[..k + 1][..k] == ts[..k];
      hs := Record(hs, ts[k]);
      k := k + 1;
    }
    assert ts[..|ts|] == ts;
  }

  /** Quantity held of a symbol, 0 when it has no entry. */
  function QuantityOf(hs: seq<Holding>, s: string): real
  {
    match IndexOf(hs, s)
    case None => 0.0
    case Some(i) => hs[i].quantity
  }

  /** Net amount recorded for a symbol, 0 when it has no entry. */
  function CostOf(hs: seq<Holding>, s: string): real
  {
    match IndexOf(hs, s)
    case None => 0.0
    case Some(i) => hs[i].totalCost
  }

  /** With distinct symbols an entry is found at its own index. */
  lemma FoundAtOwnIndex(hs: seq<Holding>, i: nat)
    requires DistinctSymbols(hs) && i < |hs|
    ensures IndexOf(hs, hs[i].symbol) == Some(i)
  {
  }

  /** One transaction moves only its own symbol's quantity and amount, by the
      signed values, and keeps the symbols distinct. */
  lemma ApplyEffect(hs: seq<Holding>, t: Transaction, s: string)
    requires DistinctSymbols(hs)
    ensures DistinctSymbols(Apply(hs, t))
    ensures QuantityOf(Apply(hs, t), s) == QuantityOf(hs, s) + (if t.symbol == s then SignedQuantity(t) else 0.0)
    ensures CostOf(Apply(hs, t), s) == CostOf(hs, s) + (if t.symbol == s then SignedAmount(t) else 0.0)
  {
    var hs' := Apply(hs, t);
    assert |hs'| >= |hs|;
    assert forall i :: 0 <= i < |hs| ==> hs'[i].symbol == hs[i].symbol;
    assert DistinctSymbols(hs');
    match IndexOf(hs', s)
    case None =>
    case Some(j) =>
      if j < |hs| {
        FoundAtOwnIndex(hs, j);
      } else {
        assert IndexOf(hs, s).None?;
      }
  }

  /** The fold holds one entry per symbol, carrying that symbol's net
      quantity and net amount. */
  lemma {:induction false} FoldIsNet(ts: seq<Transaction>)
    ensures DistinctSymbols(Fold(ts))
    ensures forall s :: QuantityOf(Fold(ts), s) == NetQuantity(ts, s) && CostOf(Fold(ts), s) == NetCost(ts, s)
    decreases |ts|
  {
    if ts != [] {
      var n := |ts| - 1;
      FoldIsNet(ts[..n]);
      forall s
        ensures QuantityOf(Fold(ts), s) == NetQuantity(ts, s) && CostOf(Fold(ts), s) == NetCost(ts, s)
      {
        ApplyEffect(Fold(ts[..n]), ts[n], s);
      }
      ApplyEffect(Fold(ts[..n]), ts[n], "");
    }
  }

  /** Only symbols with a positive net quantity are kept. */
  function Kept(hs: seq<Holding>): (r: seq<Holding>)
    ensures forall i :: 0 <= i < |r| ==> r[i].quantity > 0.0
    ensures forall i :: 0 <= i < |hs| && hs[i].quantity > 0.0 ==> hs[i] in r
    ensures forall h :: h in r ==> h in hs
  {
    if hs == [] then []
    else Kept(hs[..|hs| - 1]) + (if hs[|hs| - 1].quantity > 0.0 then [hs[|hs| - 1]] else [])
  }

  /** Every kept holding carries its symbol's net quantity, which is
      positive, and its net amount. */
  lemma KeptAreNet(ts: seq<Transaction>)
    ensures forall h :: h in Kept(Fold(ts)) ==>
              h.quantity == NetQuantity(ts, h.symbol) > 0.0 && h.totalCost == NetCost(ts, h.symbol)
  {
    FoldIsNet(ts);
    var hs := Fold(ts);
    forall h | h in Kept(hs)
      ensures h.quantity == NetQuantity(ts, h.symbol) > 0.0 && h.totalCost == NetCost(ts, h.symbol)
    {
      var i :| 0 <= i < |hs| && hs[i] == h;
      FoundAtOwnIndex(hs, i);
    }
  }

  /** The kept holdings are exactly the symbols whose net quantity is positive,
      each with its net quantity and net amount. */
  lemma HoldingsAreNetPositive(ts: seq<Transaction>, s: string)
    ensures (exists h :: h in Kept(Fold(ts)) && h.symbol == s) <==> NetQuantity(ts, s) > 0.0
    ensures forall h :: h in Kept(Fold(ts)) ==>
              h.quantity == NetQuantity(ts, h.symbol) > 0.0 && h.totalCost == NetCost(ts, h.symbol)
  {
    KeptAreNet(ts);
    if NetQuantity(ts, s) > 0.0 {
      FoldIsNet(ts);
      var hs := Fold(ts);
      assert QuantityOf(hs, s) > 0.0;
      var i := IndexOf(hs, s).value;
      assert hs[i] in Kept(hs);
    }
  }

  // ---------------------------------------------------------------------------
  // Valuation

  /** One row of the holdings table. */
  datatype HoldingView = HoldingView(symbol: string, quantity: real, avgCost: real, currentPrice: real,
                                     currentValue: real, totalCost: real, gainLoss: real,
                                     gainLossPercent: real)

  datatype PortfolioSummary = PortfolioSummary(totalValue: real, totalCost: real, totalGainLoss: real,
                                               totalGainLossPercent: real, holdings: seq<HoldingView>)

  /** quote.get('price', 0): the quoted price, 0 when the quote has none. */
  function QuotedPrice(quotes: map<string, real>, symbol: string): real
  {
    if symbol in quotes then quotes[symbol] else 0.0
  }

  function View(h: Holding, price: real): HoldingView
  {
    var value := h.quantity * price;
    var gain := value - h.totalCost;
    HoldingView(h.symbol, h.quantity, if h.quantity > 0.0 then h.totalCost / h.quantity else 0.0,
                price, value, h.totalCost, gain,
                if h.totalCost > 0.0 then gain / h.totalCost * 100.0 else 0.0)
  }

  /** A row of the holding `h` at `price`: it keeps the symbol, quantity and
      cost of the holding, is worth quantity * price, gains its value minus
      its cost, and its average cost times its quantity is its cost. */
  predicate RowOf(h: Holding, price: real, v: HoldingView)
  {
    && v.symbol == h.symbol && v.quantity == h.quantity && v.totalCost == h.totalCost
    && v.currentValue == h.quantity * price
    && v.gainLoss == v.currentValue - v.totalCost
    && (h.quantity > 0.0 ==> v.avgCost * v.quantity == v.totalCost)
  }

  lemma RowFacts(h: Holding, price: real)
    ensures RowOf(h, price, View(h, price))
  {
    if h.quantity > 0.0 {
      ViewConsistent(h, price);
    }
  }

  /** One row per holding, valued at its quote. Each row keeps the holding's
      symbol, quantity and cost, its gain is its value minus its cost, and its
      average cost times its quantity is its cost; so the gains add up to the
      total value minus the total cost. */
  function Views(hs: seq<Holding>, quotes: map<string, real>): (r: seq<HoldingView>)
    ensures |r| == |hs|
    ensures forall i :: 0 <= i < |hs| ==> RowOf(hs[i], QuotedPrice(quotes, hs[i].symbol), r[i])
    ensures Sum(GainsOf(r)) == Sum(ValuesOf(r)) - Sum(CostsOf(r))
  {
    var r := seq(|hs|, i requires 0 <= i < |hs| => View(hs[i], QuotedPrice(quotes, hs[i].symbol)));
    forall i | 0 <= i < |hs|
      ensures RowOf(hs[i], QuotedPrice(quotes, hs[i].symbol), r[i])
    {
      RowFacts(hs[i], QuotedPrice(quotes, hs[i].symbol));
    }
    GainsAreDifferences(r);
    r
  }

  function ValuesOf(vs: seq<HoldingView>): seq<real>
  {
    seq(|vs|, i requires 0 <= i < |vs| => vs[i].currentValue)
  }

  function CostsOf(vs: seq<HoldingView>): seq<real>
  {
    seq(|vs|, i requires 0 <= i < |vs| => vs[i].totalCost)
  }

  function GainsOf(vs: seq<HoldingView>): seq<real>
  {
    seq(|vs|, i requires 0 <= i < |vs| => vs[i].gainLoss)
  }

  function Summary(vs: seq<HoldingView>): PortfolioSummary
  {
    var value, cost := Total(ValuesOf(vs)), Total(CostsOf(vs));
    var gain := value - cost;
    PortfolioSummary(value, cost, gain, if cost > 0.0 then gain / cost * 100.0 else 0.0, vs)
  }

  /** Adding a row adds its value and its cost to the running sums. */
  lemma AddRow(rows: seq<HoldingView>, row: HoldingView)
    ensures Sum(ValuesOf(rows + [row])) == Sum(ValuesOf(rows)) + row.currentValue
    ensures Sum(CostsOf(rows + [row])) == Sum(CostsOf(rows)) + row.totalCost
  {
    assert ValuesOf(rows + [row]) == ValuesOf(rows) + [row.currentValue];
    assert CostsOf(rows + [row]) == CostsOf(rows) + [row.totalCost];
    SumAppend(ValuesOf(rows), row.currentValue);
    SumAppend(CostsOf(rows), row.totalCost);
  }

  /** The valuation loop of get_portfolio over the kept holdings: one row
      per holding, and the running value and cost. */
  method ValueRows(hs: seq<Holding>, quotes: map<string, real>)
      returns (rows: seq<HoldingView>, portfolioValue: real, portfolioCost: real)
    ensures rows == Views(hs, quotes)
    ensures portfolioValue == Total(ValuesOf(rows)) && portfolioCost == Total(CostsOf(rows))
  {
    ghost var vs := Views(hs, quotes);
    portfolioValue, portfolioCost := 0.0, 0.0;
    rows := [];
    var k := 0;
    while k < |hs|
      invariant 0 <= k <= |hs|
      invariant rows == vs[..k]
      invariant portfolioValue == Sum(ValuesOf(rows)) && portfolioCost == Sum(CostsOf(rows))
    {
      var row := View(hs[k], QuotedPrice(quotes, hs[k].symbol));
      AddRow(rows, row);
      assert vs[..k + 1] == rows + [row];
      rows := rows + [row];
      portfolioValue := portfolioValue + row.currentValue;
      portfolioCost := portfolioCost + row.totalCost;
      k := k + 1;
    }
    assert rows == vs;
  }

  /** The totals of get_portfolio over the kept holdings. */
  method ValuePortfolio(hs: seq<Holding>, quotes: map<string, real>) returns (summary: PortfolioSummary)
    ensures summary == Summary(Views(hs, quotes))
  {
    var rows, portfolioValue, portfolioCost := ValueRows(hs, quotes);
    var gain := portfolioValue - portfolioCost;
    summary := PortfolioSummary(portfolioValue, portfolioCost, gain,
                                if portfolioCost > 0.0 then gain / portfolioCost * 100.0 else 0.0, rows);
  }

  /** Each row's gain is its value minus its cost, its average cost times its
      quantity is its cost, and its percentage is 0 without a positive cost. */
  lemma ViewConsistent(h: Holding, price: real)
    requires h.quantity > 0.0
    ensures var v := View(h, price);
      && v.currentValue == h.quantity * price
      && v.gainLoss == v.currentValue - v.totalCost
      && v.avgCost * v.quantity == v.totalCost
      && (v.totalCost <= 0.0 ==> v.gainLossPercent == 0.0)
      && (v.totalCost > 0.0 ==> (v.gainLossPercent > 0.0 <==> v.currentValue > v.totalCost))
  {
    var v := View(h, price);
    if v.totalCost > 0.0 {
      var g := v.gainLoss;
      assert g > 0.0 ==> g / v.totalCost > 0.0;
      assert g <= 0.0 ==> g / v.totalCost <= 0.0;
    }
  }

  /** The totals add up: the total gain is the sum of the rows' gains, and its
      percentage is 0 unless the total cost is positive. */
  lemma SummaryAddsUp(vs: seq<HoldingView>)
    requires forall i :: 0 <= i < |vs| ==> vs[i].gainLoss == vs[i].currentValue - vs[i].totalCost
    ensures var s := Summary(vs);
      && s.totalGainLoss == Total(GainsOf(vs))
      && (s.totalCost <= 0.0 ==> s.totalGainLossPercent == 0.0)
  {
    GainsAreDifferences(vs);
  }

  lemma {:induction false} GainsAreDifferences(vs: seq<HoldingView>)
    requires forall i :: 0 <= i < |vs| ==> vs[i].gainLoss == vs[i].currentValue - vs[i].totalCost
    ensures Sum(GainsOf(vs)) == Sum(ValuesOf(vs)) - Sum(CostsOf(vs))
    decreases |vs|
  {
    if vs != [] {
      var n := |vs| - 1;
      var w := vs[..n];
      GainsAreDifferences(w);
      assert GainsOf(vs) == GainsOf(w) + [vs[n].gainLoss];
      assert ValuesOf(vs) == ValuesOf(w) + [vs[n].currentValue];
      assert CostsOf(vs) == CostsOf(w) + [vs[n].totalCost];
      SumAppend(GainsOf(w), vs[n].gainLoss);
      SumAppend(ValuesOf(w), vs[n].currentValue);
      SumAppend(CostsOf(w), vs[n].totalCost);
    }
  }

  /** get_portfolio after the database reads: fold, drop, value. */
  method GetPortfolio(ts: seq<Transaction>, quotes: map<string, real>) returns (summary: PortfolioSummary)
    ensures summary == Summary(Views(Kept(Fold(ts)), quotes))
    ensures summary.totalGainLoss == Total(GainsOf(summary.holdings))
    ensures forall i :: 0 <= i < |summary.holdings| ==> summary.holdings[i].quantity > 0.0
  {
    var hs := AggregateHoldings(ts);
    summary := ValuePortfolio(Kept(hs), quotes);
    var vs := Views(Kept(hs), quotes);
    forall i | 0 <= i < |vs| ensures vs[i].gainLoss == vs[i].currentValue - vs[i].totalCost {
      ViewConsistent(Kept(hs)[i], QuotedPrice(quotes, Kept(hs)[i].symbol));
    }
    SummaryAddsUp(vs);
  }

  // ---------------------------------------------------------------------------
  // add_transaction

  datatype Rejection = BadType | NotPositive

  datatype Validated = Rejected(reason: Rejection) | Accepted(t: Transaction)

  /** The checks of add_transaction and the record it stores: the type must
      be "buy" or "sell", quantity and price must be positive, the symbol is
      upper-cased and the amount is quantity times price. */
  function ValidateTransaction(symbol: string, transactionType: string, quantity: real, price: real): Validated
  {
    if transactionType != "buy" && transactionType != "sell" then Rejected(BadType)
    else if quantity <= 0.0 || price <= 0.0 then Rejected(NotPositive)
    else Accepted(Transaction(Upper(symbol), transactionType, quantity, quantity * price))
  }

  lemma ValidationExact(symbol: string, transactionType: string, quantity: real, price: real)
    ensures var v := ValidateTransaction(symbol, transactionType, quantity, price);
      && (v.Accepted? <==> (transactionType == "buy" || transactionType == "sell") && quantity > 0.0 && price > 0.0)
      && (v.Rejected? && v.reason == BadType <==> transactionType != "buy" && transactionType != "sell")
      && (v.Accepted? ==> v.t.totalAmount > 0.0 && v.t.quantity == quantity
                          && v.t.totalAmount == quantity * price && v.t.symbol == Upper(symbol))
  {
    if quantity > 0.0 && price > 0.0 {
      MulMono(0.0, quantity, price);
    }
  }

  /** A validated buy followed by a validated sale of the same quantity of the
      same symbol leaves a net quantity of 0, so the symbol is not held. */
  lemma BuyThenSellNetsOut(symbol: string, quantity: real, p1: real, p2: real)
    requires quantity > 0.0 && p1 > 0.0 && p2 > 0.0
    ensures var b := ValidateTransaction(symbol, "buy", quantity, p1).t;
      var s := ValidateTransaction(symbol, "sell", quantity, p2).t;
      && NetQuantity([b, s], Upper(symbol)) == 0.0
      && NetCost([b, s], Upper(symbol)) == quantity * p1 - quantity * p2
      && forall h :: h in Kept(Fold([b, s])) ==> h.symbol != Upper(symbol)
  {
    var u := Upper(symbol);
    var b := Transaction(u, "buy", quantity, quantity * p1);
    var s := Transaction(u, "sell", quantity, quantity * p2);
    assert ValidateTransaction(symbol, "buy", quantity, p1).t == b;
    assert ValidateTransaction(symbol, "sell", quantity, p2).t == s;
    var ts := [b, s];
    assert ts[..1] == [b];
    assert [b][..0] == [];
    assert NetQuantity([b], u) == quantity;
    assert NetCost([b], u) == quantity * p1;
    assert NetQuantity(ts, u) == 0.0;
    HoldingsAreNetPositive(ts, u);
  }
}
