/**
 * The two market data fetchers of backend/server.js, reduced to what they
 * return. The network calls themselves (a quote service and a scraped finance
 * page) are not modelled; their outcomes are inputs.
 */
module Gateway {
  import opened Wrappers

  /** Outcome of the quote call: it throws, or it answers with a
      `regularMarketPrice` that may be missing (None also stands for NaN). */
  datatype PriceFetch = PriceError | PriceQuote(regularMarketPrice: Option<real>)

  /** Outcome of the page fetch: it throws, or it yields the two scraped texts
      as numbers after `parseFloat` (None when a text does not parse, i.e. NaN). */
  datatype PageFetch = PageError | PageFields(pe: Option<real>, eps: Option<real>)

  /** What the two sources answer for one ticker in one cycle. */
  datatype Quote = Quote(price: PriceFetch, page: PageFetch)

  /** The answers of the market data sources during one cycle, by ticker. */
  type Market = map<string, Quote>

  /** A ticker the sources do not know makes both calls fail. */
  function QuoteFor(market: Market, ticker: string): (q: Quote)
    ensures ticker in market ==> q == market[ticker]
    ensures ticker !in market ==> q.price.PriceError? && q.page.PageError?
  {
    if ticker in market then market[ticker] else Quote(PriceError, PageError)
  }

  /** JavaScript's `x || 0` on a number that may be missing or NaN. */
  function OrZero(x: Option<real>): real
  {
    match x
    case Some(v) => v
    case None => 0.0
  }

  /** `fetchCmp`: the quoted price, or 0 when the call throws or the price is
      missing (backend/server.js:11-19). */
  function FetchCmp(f: PriceFetch): (cmp: real)
    ensures f.PriceQuote? && f.regularMarketPrice.Some? ==> cmp == f.regularMarketPrice.value
    ensures cmp != 0.0 ==> f == PriceQuote(Some(cmp))
  {
    match f
    case PriceError => 0.0
    case PriceQuote(p) => OrZero(p)
  }

  /** `fetchPeAndEarnings`: each parsed figure, or 0 for a figure that does not
      parse; both 0 when the page fetch throws (backend/server.js:20-32). */
  function FetchPeAndEarnings(f: PageFetch): (r: (real, real))
    ensures f.PageFields? && f.pe.Some? ==> r.0 == f.pe.value
    ensures f.PageFields? && f.eps.Some? ==> r.1 == f.eps.value
    ensures r.0 != 0.0 ==> f.PageFields? && f.pe == Some(r.0)
    ensures r.1 != 0.0 ==> f.PageFields? && f.eps == Some(r.1)
  {
    match f
    case PageError => (0.0, 0.0)
    case PageFields(pe, eps) => (OrZero(pe), OrZero(eps))
  }
}
