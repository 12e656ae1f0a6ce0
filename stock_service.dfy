/** The stock service (src/services/stock.service.ts). The two data-access
    objects the service is constructed with are passed to it as the
    functions `findStock` and `findTransactions`, each standing for the
    `findBySku` of one reader: a found value or the error it rejected with. */
module StockService {
  import opened Interfaces
  import StockDao
  import TransactionDao

  /** Sum of the quantities of the transactions of one kind. */
  function SumQty(ts: seq<Transaction>, kind: TxKind): int
  {
    if ts == [] then 0
    else (if ts[0].kind == kind then ts[0].qty else 0) + SumQty(ts[1..], kind)
  }

  /** The quantity the computation starts from: the record's stock, or 0
      when the SKU has no stock record. */
  function BaseQty(stock: Option<StockRecord>): int
  {
    match stock
    case None => 0
    case Some(record) => record.stock
  }

  /** The stock level in closed form: the base quantity, less every ordered
      quantity, plus every refunded quantity. */
  function NetQty(base: int, ts: seq<Transaction>): int
  {
    base - SumQty(ts, Order) + SumQty(ts, Refund)
  }

  /** What `getCurrentStockLevel` produces from the outcomes of the two
      lookups: the stock lookup's error, else the transaction lookup's
      error, else "Stock not found" when there is neither a stock record nor
      a transaction, else the net quantity for the queried SKU. */
  function CurrentStockLevel(sku: string, stockLookup: Result<Option<StockRecord>>,
                             txLookup: Result<seq<Transaction>>): Result<StockLevel>
  {
    match stockLookup
    case Failure(e) => Failure(e)
    case Success(stock) =>
      match txLookup
      case Failure(e) => Failure(e)
      case Success(ts) =>
        if stock.None? && ts == [] then Failure(Error(StockNotFound))
        else Success(StockLevel(sku, NetQty(BaseQty(stock), ts)))
  }

  /** `getCurrentStockLevel`: looks the SKU up in both readers and walks
      the transactions in order, taking an order's quantity off the level
      and adding a refund's back, and ignoring any other kind. */
  method GetCurrentStockLevel(sku: string,
                              findStock: string -> Result<Option<StockRecord>>,
                              findTransactions: string -> Result<seq<Transaction>>)
    returns (r: Result<StockLevel>)
    ensures r == CurrentStockLevel(sku, findStock(sku), findTransactions(sku))
  {
    var stock := findStock(sku);
    if stock.Failure? {
      return Failure(stock.error);
    }
    var response := StockLevel(sku, BaseQty(stock.value));
    var transactions := findTransactions(sku);
    if transactions.Failure? {
      return Failure(transactions.error);
    }
    var ts := transactions.value;
    if |ts| == 0 && stock.value.None? {
      return Failure(Error(StockNotFound));
    }
    for i := 0 to |ts|
      invariant response.sku == sku
      invariant response.qty == NetQty(BaseQty(stock.value), ts[..i])
    {
      var t := ts[i];
      if t.kind == Order {
        response := response.(qty := response.qty - t.qty);
      } else if t.kind == Refund {
        response := response.(qty := response.qty + t.qty);
      }
      SumQtyAppend(ts[..i], [t], Order);
      SumQtyAppend(ts[..i], [t], Refund);
      assert ts[..i + 1] == ts[..i] + [t];
    }
    assert ts[..|ts|] == ts;
    return Success(response);
  }

  /** Sums over a concatenation add up. */
  lemma {:induction false} SumQtyAppend(a: seq<Transaction>, b: seq<Transaction>, kind: TxKind)
    ensures SumQty(a + b, kind) == SumQty(a, kind) + SumQty(b, kind)
    decreases |a|
  {
    if a == [] {
      assert a + b == b;
    } else {
      SumQtyAppend(a[1..], b, kind);
      assert (a + b)[1..] == a[1..] + b;
    }
  }

  /** A transaction that is neither an order nor a refund, wherever it
      stands in the list, leaves the stock level as it was. */
  lemma OtherKindIsInert(base: int, before: seq<Transaction>, t: Transaction, after: seq<Transaction>)
    requires t.kind.Other?
    ensures NetQty(base, before + [t] + after) == NetQty(base, before + after)
  {
    SumQtyAppend(before + [t], after, Order);
    SumQtyAppend(before + [t], after, Refund);
    SumQtyAppend(before, [t], Order);
    SumQtyAppend(before, [t], Refund);
    SumQtyAppend(before, after, Order);
    SumQtyAppend(before, after, Refund);
  }

  /** Each transaction moves the level by its own quantity, down for an
      order and up for a refund, independently of the ones around it. */
  lemma AppendOne(base: int, ts: seq<Transaction>, t: Transaction)
    ensures NetQty(base, ts + [t]) ==
              NetQty(base, ts) + (match t.kind
                                  case Order => -t.qty
                                  case Refund => t.qty
                                  case Other(_) => 0)
  {
    SumQtyAppend(ts, [t], Order);
    SumQtyAppend(ts, [t], Refund);
  }

  /** A successful result always carries the SKU that was asked for. */
  lemma ResultCarriesQueriedSku(sku: string, stockLookup: Result<Option<StockRecord>>,
                                txLookup: Result<seq<Transaction>>)
    ensures CurrentStockLevel(sku, stockLookup, txLookup).Success? ==>
              CurrentStockLevel(sku, stockLookup, txLookup).value.sku == sku
  {
  }

  /** With a stock record and no transaction, the level is the record's stock. */
  lemma NoTransactionsGivesBaseStock(sku: string, record: StockRecord)
    ensures CurrentStockLevel(sku, Success(Some(record)), Success([])) ==
              Success(StockLevel(sku, record.stock))
  {
  }

  /** Without a stock record, any non-empty transaction list succeeds with the
      refunded quantities less the ordered ones, which may be negative. */
  lemma TransactionsWithoutStockSucceed(sku: string, ts: seq<Transaction>)
    requires ts != []
    ensures CurrentStockLevel(sku, Success(None), Success(ts)) ==
              Success(StockLevel(sku, SumQty(ts, Refund) - SumQty(ts, Order)))
  {
  }

  /** Neither a stock record nor a transaction: the query fails with
      "Stock not found". */
  lemma NothingKnownFails(sku: string)
    ensures CurrentStockLevel(sku, Success(None), Success([])) == Failure(Error(StockNotFound))
  {
  }

  /** The not-found check looks only at whether the list is empty: a lone
      transaction of an unknown kind, which moves nothing, still makes an
      unknown SKU succeed, with level 0. */
  lemma UnknownKindAloneSucceeds(sku: string, t: Transaction)
    requires t.kind.Other?
    ensures CurrentStockLevel(sku, Success(None), Success([t])) == Success(StockLevel(sku, 0))
  {
    OtherKindIsInert(0, [], t, []);
    assert [] + [t] + [] == [t];
  }

  /** A failed stock lookup is returned as it is, whatever the transaction
      lookup would have given: the transactions are never consulted. */
  lemma StockFailureShortCircuits(sku: string, e: Error,
                                  tx1: Result<seq<Transaction>>, tx2: Result<seq<Transaction>>)
    ensures CurrentStockLevel(sku, Failure(e), tx1) == CurrentStockLevel(sku, Failure(e), tx2) == Failure(e)
  {
  }

  /** A failed transaction lookup is returned as it is. */
  lemma TransactionFailurePropagates(sku: string, stock: Option<StockRecord>, e: Error)
    ensures CurrentStockLevel(sku, Success(stock), Failure(e)) == Failure(e)
  {
  }

  /** The cases of the service's tests: stock 10 with [order 3, refund 1]
      gives 8, with [order 2, refund 1, order 4] gives 5, with no transaction
      gives 10; no stock record with [order 3] gives -3. */
  lemma TestScenarios()
    ensures CurrentStockLevel("test-sku", Success(Some(StockRecord("test-sku", 10))),
              Success([Transaction("test-sku", Order, 3), Transaction("test-sku", Refund, 1)]))
            == Success(StockLevel("test-sku", 8))
    ensures CurrentStockLevel("test-sku", Success(Some(StockRecord("test-sku", 10))),
              Success([Transaction("test-sku", Order, 2), Transaction("test-sku", Refund, 1),
                       Transaction("test-sku", Order, 4)]))
            == Success(StockLevel("test-sku", 5))
    ensures CurrentStockLevel("test-sku", Success(Some(StockRecord("test-sku", 10))), Success([]))
            == Success(StockLevel("test-sku", 10))
    ensures CurrentStockLevel("test-sku", Success(None), Success([Transaction("test-sku", Order, 3)]))
            == Success(StockLevel("test-sku", -3))
  {
  }

  /** The service over the two readers themselves: a failed read of the
      stock source gives "Could not find stock" whatever the transaction
      source holds; otherwise a failed read of the transaction source gives
      that read's own error; otherwise the query fails with "Stock not
      found" exactly when neither source holds a record for the SKU, and
      else gives the first stock record's quantity adjusted by the SKU's
      transactions. */
  lemma ServiceOverReaders(sku: string, stocks: Result<seq<StockRecord>>, txs: Result<seq<Transaction>>)
    ensures var r := CurrentStockLevel(sku, StockDao.FindBySku(stocks, sku), TransactionDao.FindBySku(txs, sku));
      && (stocks.Failure? ==> r == Failure(Error(CouldNotFindStock)))
      && (stocks.Success? && txs.Failure? ==> r == Failure(txs.error))
      && (stocks.Success? && txs.Success? ==>
            (r == Failure(Error(StockNotFound)) <==>
               (forall i | 0 <= i < |stocks.value| :: stocks.value[i].sku != sku) &&
               (forall i | 0 <= i < |txs.value| :: txs.value[i].sku != sku)))
      && (stocks.Success? && txs.Success? && r.Success? ==>
            r.value == StockLevel(sku, NetQty(BaseQty(StockDao.Find(stocks.value, sku)),
                                              TransactionDao.Filter(txs.value, sku))))
  {
  }
}
