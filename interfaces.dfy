/** Records shared by the two data-access objects and the stock service
    (src/interfaces/index.ts), with the Option and Result wrappers that
    stand in for `null` and for thrown exceptions. */
module Interfaces {

  /** A base stock record (IStock): the on-hand quantity of one SKU. */
  datatype StockRecord = StockRecord(sku: string, stock: int)

  /** The `type` field of a transaction. The source declares only 'order'
      and 'refund', but the records come from an untyped JSON document, so
      any other string can occur; `Other` keeps that case visible. */
  datatype TxKind = Order | Refund | Other(name: OtherKindName)

  /** A type string other than the two the service acts on. */
  type OtherKindName = s: string | s != "order" && s != "refund" witness ""

  /** A transaction record (ITransaction). */
  datatype Transaction = Transaction(sku: string, kind: TxKind, qty: int)

  /** The result of a stock-level query (IResponseStock). */
  datatype StockLevel = StockLevel(sku: string, qty: int)

  /** A JavaScript `Error`, identified by its message. */
  datatype Error = Error(message: string)

  /** Message of the error the stock reader reports for any failed read. */
  const CouldNotFindStock: string := "Could not find stock"

  /** Message of the error the service reports when the SKU is unknown. */
  const StockNotFound: string := "Stock not found"

  /** A value or `null`. */
  datatype Option<T> = None | Some(value: T)

  /** A value, or the error an asynchronous call rejected with. */
  datatype Result<T> = Success(value: T) | Failure(error: Error)
}
