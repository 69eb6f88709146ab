/**
 * The records of the persisted portfolio document (frontend/lib/types.ts).
 * Every JavaScript `number` is a `real`: the model is exact where the source
 * uses IEEE-754 doubles.
 */
module Types {

  /** One holding. The first four fields are the base fields edited by hand in
      the document; the others are derived anew by every refresh cycle. */
  datatype Stock = Stock(
    name: string,               // the ticker symbol, also the key sent to the market data sources
    sector: string,             // free-form label; the sector dictionary is keyed by it literally
    quantity: real,
    purchase_price: real,
    cmp: real,                  // current market price
    pe_ratio: real,
    earnings: real,             // earnings per share
    investment: real,
    present_value: real,
    gain_loss: real,
    portfolio_percentage: real)

  /** One entry of the sector dictionary. */
  datatype SectorData = SectorData(
    stocks: seq<string>,        // member tickers in processing order, duplicates kept
    investment: real,
    present_value: real,
    gain_loss: real)

  /** The whole document. `sectorOrder` is the key order of the `sectors`
      object, which is its insertion order. */
  datatype Portfolio = Portfolio(
    stocks: seq<Stock>,
    sectors: map<string, SectorData>,
    sectorOrder: seq<string>,
    last_updated: string)
}
