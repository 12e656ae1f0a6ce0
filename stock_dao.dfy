/** The stock reader (src/dao/stock.dao.ts). The outcome of `findAll`, that
    is reading and parsing the stock document, is the parameter `source`:
    the parsed list, or the error the read or the parse failed with. */
module StockDao {
  import opened Interfaces

  /** `i` is the position of the first record in `stocks` for `sku`. */
  predicate IsFirstMatch(stocks: seq<StockRecord>, sku: string, i: int)
  {
    0 <= i < |stocks| && stocks[i].sku == sku &&
    forall j | 0 <= j < i :: stocks[j].sku != sku
  }

  /** `stocks.find(stock => stock.sku === sku) || null`: the first record
      whose SKU is the query, or `None` when the list holds none. */
  function Find(stocks: seq<StockRecord>, sku: string): (r: Option<StockRecord>)
    ensures r.None? <==> forall i | 0 <= i < |stocks| :: stocks[i].sku != sku
    ensures r.Some? ==> r.value.sku == sku && r.value in stocks
    ensures r.Some? ==> exists i :: IsFirstMatch(stocks, sku, i) && stocks[i] == r.value
  {
    if stocks == [] then None
    else if stocks[0].sku == sku then
      assert IsFirstMatch(stocks, sku, 0);
      Some(stocks[0])
    else
      var r := Find(stocks[1..], sku);
      assert r.Some? ==> exists i :: IsFirstMatch(stocks, sku, i) && stocks[i] == r.value by {
        if r.Some? {
          var k :| IsFirstMatch(stocks[1..], sku, k) && stocks[1..][k] == r.value;
          assert IsFirstMatch(stocks, sku, k + 1);
        }
      }
      r
  }

  /** `findBySku`: the first matching record of the source list, `None`
      when there is none, and the fixed error "Could not find stock" when
      the source could not be read, whatever the cause was. */
  function FindBySku(source: Result<seq<StockRecord>>, sku: string): (r: Result<Option<StockRecord>>)
    ensures r.Failure? <==> source.Failure?
    ensures r.Failure? ==> r.error == Error(CouldNotFindStock)
    ensures r.Success? ==> r.value == Find(source.value, sku)
  {
    match source
    case Failure(_) => Failure(Error(CouldNotFindStock))
    case Success(stocks) => Success(Find(stocks, sku))
  }

  /** The record found is the only first match: any position whose record
      has the SKU and that no earlier record for it precedes holds it. */
  lemma FindIsFirstMatch(stocks: seq<StockRecord>, sku: string, i: int)
    requires IsFirstMatch(stocks, sku, i)
    ensures Find(stocks, sku) == Some(stocks[i])
  {
  }

  /** A record found by `findBySku` has the queried SKU and is one of the
      records that `findAll` returned. */
  lemma FoundRecordComesFromSource(source: Result<seq<StockRecord>>, sku: string)
    requires source.Success?
    ensures FindBySku(source, sku).Success?
    ensures FindBySku(source, sku).value.Some? ==>
              FindBySku(source, sku).value.value.sku == sku &&
              FindBySku(source, sku).value.value in source.value
  {
  }

  /** The cause of a failed read is lost: every failure gives the same error. */
  lemma FailureCauseIsLost(e1: Error, e2: Error, sku: string)
    ensures FindBySku(Failure(e1), sku) == FindBySku(Failure(e2), sku) == Failure(Error(CouldNotFindStock))
  {
  }

  /** The two test fixtures: 'test-sku-1' gives the first record, an unknown
      SKU gives `null`, and a failed read gives "Could not find stock". */
  lemma FixtureLookups()
    ensures FindBySku(Success([StockRecord("test-sku-1", 1000), StockRecord("test-sku-2", 50)]), "test-sku-1")
              == Success(Some(StockRecord("test-sku-1", 1000)))
    ensures FindBySku(Success([StockRecord("test-sku-1", 1000), StockRecord("test-sku-2", 50)]), "non-existent-sku")
              == Success(None)
    ensures FindBySku(Failure(Error("File read error")), "test-sku-1") == Failure(Error(CouldNotFindStock))
  {
  }
}
