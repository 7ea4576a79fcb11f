/** The mock wallet's asset bookkeeping in services/xrplApi.ts, as functions
    on its asset list: what `executeTrade`, `retireToken`, `cancelOrder` and
    `approveTokenizationRequest` do to the balance and the portfolio entries.
    Entries are found with `find`/`findIndex` on the ticker, so the first
    entry for a ticker is the one that counts. */
module WalletLedger {
  import opened Types
  import opened Js

  function Tickers(assets: seq<PortfolioItem>): (r: seq<string>)
    ensures |r| == |assets|
  {
    seq(|assets|, i requires 0 <= i < |assets| => assets[i].ticker)
  }

  /** At most one entry per ticker. */
  predicate UniqueTickers(assets: seq<PortfolioItem>) {
    Distinct(Tickers(assets))
  }

  /** Every entry holds a positive amount. */
  predicate Positive(assets: seq<PortfolioItem>) {
    forall i :: 0 <= i < |assets| ==> assets[i].amount > 0
  }

  /** The amount held of `ticker`: that of the entry `find` returns, or 0. */
  function Holding(assets: seq<PortfolioItem>, ticker: string): int {
    match IndexOf(Tickers(assets), ticker)
    case None => 0
    case Some(i) => assets[i].amount
  }

  /** Changing the amount of one entry keeps the list of tickers. */
  lemma TickersSetAmount(assets: seq<PortfolioItem>, i: nat, amount: int)
    requires i < |assets|
    ensures Tickers(assets[i := assets[i].(amount := amount)]) == Tickers(assets)
  {
    var a := assets[i := assets[i].(amount := amount)];
    assert forall m | 0 <= m < |a| :: Tickers(a)[m] == Tickers(assets)[m];
  }

  lemma TickersAppend(assets: seq<PortfolioItem>, x: PortfolioItem)
    ensures Tickers(assets + [x]) == Tickers(assets) + [x.ticker]
  {
    var a := assets + [x];
    assert forall m | 0 <= m < |a| :: Tickers(a)[m] == (Tickers(assets) + [x.ticker])[m];
  }

  lemma TickersRemoveAt(assets: seq<PortfolioItem>, i: nat)
    requires i < |assets|
    ensures Tickers(RemoveAt(assets, i)) == RemoveAt(Tickers(assets), i)
  {
    var a, t := RemoveAt(assets, i), RemoveAt(Tickers(assets), i);
    forall m | 0 <= m < |a| ensures Tickers(a)[m] == t[m] {
      RemoveAtIndex(assets, i, m);
      RemoveAtIndex(Tickers(assets), i, m);
    }
  }

  // --- Crediting: `asset.amount += n`, or `push` of a new entry ---

  /** Adds `n` to the entry `find` returns for `ticker`, or appends a new
      entry `{ ticker, amount: n, avgBuyPrice, currentValue }`. */
  function Credit(assets: seq<PortfolioItem>, ticker: string, n: int, avgBuyPrice: int, currentValue: int)
    : (r: seq<PortfolioItem>)
    ensures Tickers(r) == if ticker in Tickers(assets) then Tickers(assets) else Tickers(assets) + [ticker]
    ensures Holding(r, ticker) == Holding(assets, ticker) + n
  {
    match IndexOf(Tickers(assets), ticker)
    case Some(i) =>
      TickersSetAmount(assets, i, assets[i].amount + n);
      assets[i := assets[i].(amount := assets[i].amount + n)]
    case None =>
      var x := PortfolioItem(ticker, n, avgBuyPrice, currentValue);
      TickersAppend(assets, x);
      IndexOfAppend(Tickers(assets), ticker, ticker);
      assets + [x]
  }

  /** Crediting one ticker leaves every other holding as it was. */
  lemma CreditOthers(assets: seq<PortfolioItem>, ticker: string, n: int, avgBuyPrice: int, currentValue: int,
                     t: string)
    requires t != ticker
    ensures Holding(Credit(assets, ticker, n, avgBuyPrice, currentValue), t) == Holding(assets, t)
  {
    var r := Credit(assets, ticker, n, avgBuyPrice, currentValue);
    if ticker !in Tickers(assets) {
      IndexOfAppend(Tickers(assets), ticker, t);
    }
  }

  /** Crediting keeps one entry per ticker, and positive amounts when `n` is positive. */
  lemma CreditKeepsInvariant(assets: seq<PortfolioItem>, ticker: string, n: int, avgBuyPrice: int,
                             currentValue: int)
    requires UniqueTickers(assets)
    ensures UniqueTickers(Credit(assets, ticker, n, avgBuyPrice, currentValue))
    ensures Positive(assets) && n > 0 ==> Positive(Credit(assets, ticker, n, avgBuyPrice, currentValue))
  {
    if ticker !in Tickers(assets) {
      DistinctAppend(Tickers(assets), ticker);
    }
    var r := Credit(assets, ticker, n, avgBuyPrice, currentValue);
    if Positive(assets) && n > 0 {
      forall m | 0 <= m < |r| ensures r[m].amount > 0 {
      }
    }
  }

  // --- Debiting: the balance test, `amount -= n`, and `splice` at <= 0 ---

  /** SELL and retirement: `None` (the error) when there is no entry for
      `ticker` or it holds less than `n`; otherwise the entry loses `n` and
      is removed once its amount is <= 0. */
  function Debit(assets: seq<PortfolioItem>, ticker: string, n: int): (r: Option<seq<PortfolioItem>>)
    ensures r.None? <==> ticker !in Tickers(assets) || Holding(assets, ticker) < n
  {
    match IndexOf(Tickers(assets), ticker)
    case None => None
    case Some(i) =>
      if assets[i].amount < n then None
      else if assets[i].amount - n <= 0 then Some(RemoveAt(assets, i))
      else Some(assets[i := assets[i].(amount := assets[i].amount - n)])
  }

  /** With one entry per ticker, a successful debit takes exactly `n` from the
      holding; an entry emptied by it leaves the list, any other entry stays. */
  lemma DebitHolding(assets: seq<PortfolioItem>, ticker: string, n: int)
    requires UniqueTickers(assets) && Debit(assets, ticker, n).Some?
    ensures Holding(Debit(assets, ticker, n).value, ticker) == Holding(assets, ticker) - n
    ensures Holding(assets, ticker) == n ==> ticker !in Tickers(Debit(assets, ticker, n).value)
    ensures Holding(assets, ticker) > n ==> Tickers(Debit(assets, ticker, n).value) == Tickers(assets)
  {
    var i := IndexOf(Tickers(assets), ticker).value;
    if assets[i].amount - n <= 0 {
      TickersRemoveAt(assets, i);
      DistinctRemoveAt(Tickers(assets), i);
    } else {
      TickersSetAmount(assets, i, assets[i].amount - n);
    }
  }

  /** Debiting one ticker leaves every other holding as it was. */
  lemma DebitOthers(assets: seq<PortfolioItem>, ticker: string, n: int, t: string)
    requires t != ticker && Debit(assets, ticker, n).Some?
    ensures Holding(Debit(assets, ticker, n).value, t) == Holding(assets, t)
  {
    var i := IndexOf(Tickers(assets), ticker).value;
    if assets[i].amount - n <= 0 {
      TickersRemoveAt(assets, i);
      IndexOfRemoveAt(Tickers(assets), i, t);
      match IndexOf(Tickers(assets), t)
      case None =>
      case Some(j) =>
        RemoveAtIndex(assets, i, if j < i then j else j - 1);
    } else {
      TickersSetAmount(assets, i, assets[i].amount - n);
    }
  }

  /** Debiting keeps one entry per ticker and positive amounts. */
  lemma DebitKeepsInvariant(assets: seq<PortfolioItem>, ticker: string, n: int)
    requires Debit(assets, ticker, n).Some?
    ensures UniqueTickers(assets) ==> UniqueTickers(Debit(assets, ticker, n).value)
    ensures Positive(assets) ==> Positive(Debit(assets, ticker, n).value)
  {
    var i := IndexOf(Tickers(assets), ticker).value;
    var r := Debit(assets, ticker, n).value;
    if assets[i].amount - n <= 0 {
      TickersRemoveAt(assets, i);
      if UniqueTickers(assets) {
        DistinctRemoveAt(Tickers(assets), i);
      }
      forall m | 0 <= m < |r| ensures r[m] == assets[if m < i then m else m + 1] {
        RemoveAtIndex(assets, i, m);
      }
    } else {
      TickersSetAmount(assets, i, assets[i].amount - n);
    }
  }

  // --- Market swap (the mock AMM of `executeTrade`) ---

  /** The new XRP balance and assets after a mock swap of `amount` tokens at
      `price` drops each, or the error thrown: a BUY needs `amount * price`
      drops and credits the tokens (a new entry records `price` as its buy
      price and value); a SELL debits the tokens and pays `amount * price`. */
  function Swap(xrp: int, assets: seq<PortfolioItem>, ticker: string, side: Side, amount: int, price: int)
    : (r: Result<(int, seq<PortfolioItem>)>)
    ensures side == Buy ==> (r.Err? <==> xrp < amount * price) && (r.Err? ==> r.error == InsufficientXrp)
    ensures side == Sell ==>
      (r.Err? <==> ticker !in Tickers(assets) || Holding(assets, ticker) < amount) &&
      (r.Err? ==> r.error == InsufficientFunds)
    ensures r.Ok? && side == Buy ==> r.value.0 == xrp - amount * price
    ensures r.Ok? && side == Sell ==> r.value.0 == xrp + amount * price
  {
    match side
    case Buy =>
      var cost := amount * price;
      if xrp < cost then Err(InsufficientXrp)
      else Ok((xrp - cost, Credit(assets, ticker, amount, price, price)))
    case Sell =>
      match Debit(assets, ticker, amount)
      case None => Err(InsufficientFunds)
      case Some(rest) => Ok((xrp + amount * price, rest))
  }

  /** A successful swap moves exactly `amount` tokens of `ticker`, touches no
      other holding, and keeps one entry per ticker. */
  lemma SwapHoldings(xrp: int, assets: seq<PortfolioItem>, ticker: string, side: Side, amount: int, price: int,
                     t: string)
    requires UniqueTickers(assets) && Swap(xrp, assets, ticker, side, amount, price).Ok?
    ensures var a := Swap(xrp, assets, ticker, side, amount, price).value.1;
      Holding(a, ticker) == Holding(assets, ticker) + (if side == Buy then amount else -amount) &&
      (t != ticker ==> Holding(a, t) == Holding(assets, t)) &&
      UniqueTickers(a)
  {
    match side
    case Buy =>
      CreditKeepsInvariant(assets, ticker, amount, price, price);
      if t != ticker {
        CreditOthers(assets, ticker, amount, price, price, t);
      }
    case Sell =>
      DebitHolding(assets, ticker, amount);
      DebitKeepsInvariant(assets, ticker, amount);
      if t != ticker {
        DebitOthers(assets, ticker, amount, t);
      }
  }

  /** A swap at `price` keeps the wallet's value at that price: the XRP balance
      plus `price` times the tokens held. */
  lemma SwapConservesValue(xrp: int, assets: seq<PortfolioItem>, ticker: string, side: Side, amount: int,
                           price: int)
    requires UniqueTickers(assets) && Swap(xrp, assets, ticker, side, amount, price).Ok?
    ensures var (x, a) := Swap(xrp, assets, ticker, side, amount, price).value;
      x + price * Holding(a, ticker) == xrp + price * Holding(assets, ticker)
  {
    SwapHoldings(xrp, assets, ticker, side, amount, price, ticker);
  }

  /** Selling right back what was just bought, at the same price, restores
      the balance and the portfolio exactly (entries must be positive, or the
      refilled entry could be spliced out). */
  lemma BuyThenSellRestores(xrp: int, assets: seq<PortfolioItem>, ticker: string, amount: int, price: int)
    requires UniqueTickers(assets) && Positive(assets)
    requires Swap(xrp, assets, ticker, Buy, amount, price).Ok?
    ensures var (x, a) := Swap(xrp, assets, ticker, Buy, amount, price).value;
      Swap(x, a, ticker, Sell, amount, price) == Ok((xrp, assets))
  {
    var a := Credit(assets, ticker, amount, price, price);
    match IndexOf(Tickers(assets), ticker)
    case Some(i) =>
      TickersSetAmount(assets, i, assets[i].amount + amount);
      assert a[i := a[i].(amount := a[i].amount - amount)] == assets;
    case None =>
      TickersAppend(assets, PortfolioItem(ticker, amount, price, price));
      IndexOfAppend(Tickers(assets), ticker, ticker);
      assert RemoveAt(a, |assets|) == assets;
  }

  // --- Cancelling an open order ---

  /** `cancelOrder`'s refund: the unfilled XRP of a BUY; the unfilled tokens of
      a SELL go back to the wallet's entry for the ticker, and are lost when
      there is none. */
  function Refund(xrp: int, assets: seq<PortfolioItem>, o: OpenOrder): (r: (int, seq<PortfolioItem>))
    ensures Tickers(r.1) == Tickers(assets)
    ensures o.side == Buy ==> r == (xrp + o.remaining * o.price, assets)
    ensures o.side == Sell ==> r.0 == xrp
    ensures o.side == Sell && o.ticker in Tickers(assets) ==> r.1 == Credit(assets, o.ticker, o.remaining, 0, 0)
    ensures o.side == Sell && o.ticker !in Tickers(assets) ==> r.1 == assets
  {
    match o.side
    case Buy => (xrp + o.remaining * o.price, assets)
    case Sell =>
      match IndexOf(Tickers(assets), o.ticker)
      case None => (xrp, assets)
      case Some(i) =>
        TickersSetAmount(assets, i, assets[i].amount + o.remaining);
        (xrp, assets[i := assets[i].(amount := assets[i].amount + o.remaining)])
  }
}
