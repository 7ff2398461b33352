/** The unified `Stock` record of `src/types/stock.ts` and the values that the
    caches and the request state hold. */
module StockTypes {

  /** `source: 'twse' | 'tpex'` */
  datatype Market = Twse | Tpex

  /** One security's daily figures. Every figure is text, as the upstream sends it.
      The code reads the code and name through `code`/`name` in some places and
      `Code`/`Name` in others; both are the `code` and `name` fields here. */
  datatype Stock = Stock(
    date: string,
    code: string,
    name: string,
    closingPrice: string,
    change: string,
    openingPrice: string,
    highestPrice: string,
    lowestPrice: string,
    tradeVolume: string,
    tradeValue: string,
    transaction: string,
    source: Market)

  /** What a cache entry or a request's stored data can be: a list of stocks,
      a single stock, or a number (a millisecond timestamp). */
  datatype Value = StockList(stocks: seq<Stock>) | Quote(stock: Stock) | Number(n: int)

  /** JavaScript truthiness of a stored value: arrays and objects are truthy,
      the number 0 is not. */
  predicate Truthy(v: Value)
  {
    match v
    case Number(n) => n != 0
    case _ => true
  }
}
