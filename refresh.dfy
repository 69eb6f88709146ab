/**
 * The refresh cycle of backend/server.js:33-74: read the document, revalue
 * its holdings in place, rebuild the sector dictionary, write the document
 * back. Everything is abandoned when the document cannot be read.
 */
module Refresh {
  import opened Wrappers
  import opened Types
  import opened Gateway
  import opened Valuation
  import opened SectorAggregation

  /** Writing a key twice keeps the second value. */
  lemma OverwriteEntry(m: map<string, SectorData>, key: string, first: SectorData, second: SectorData)
    ensures m[key := first][key := second] == m[key := second]
  {
  }

  /**
   * Lines 52-58 of backend/server.js for one stock: its sector's entry is
   * created on first sight (and its label appended to the key order), then
   * the stock's investment, present value and ticker are added to it. The
   * dictionary that held the stocks `done` then holds `done + [stock]`.
   */
  method AddToSector(ghost done: seq<Stock>, sectors: map<string, SectorData>, order: seq<string>, stock: Stock)
    returns (sectors': map<string, SectorData>, order': seq<string>)
    requires sectors == Accumulated(done) && order == SectorLabels(done)
    ensures sectors' == Accumulated(done + [stock])
    ensures order' == SectorLabels(done + [stock])
  {
    sectors', order' := sectors, order;
    var sector := stock.sector;
    if sector !in sectors' {
      sectors' := sectors'[sector := SectorData([], 0.0, 0.0, 0.0)];
      order' := order' + [sector];
    }
    var entry := sectors'[sector];
    var updated := entry.(investment := entry.investment + stock.investment,
                          present_value := entry.present_value + stock.present_value,
                          stocks := entry.stocks + [stock.name]);
    sectors' := sectors'[sector := updated];
    if sector !in sectors {
      OverwriteEntry(sectors, sector, EmptySector, updated);
    }
    assert updated == AddStock(if sector in sectors then sectors[sector] else EmptySector, stock);
    AccumulatedSnoc(done, stock);
    SectorLabelsSnoc(done, stock);
  }

  /** The first pass for one stock (backend/server.js:40-48): fetch its
      price and fundamentals, store them, derive the three amounts. */
  method ValueStock(stock: Stock, quote: Quote) returns (valued: Stock)
    ensures && valued.name == stock.name && valued.sector == stock.sector
            && valued.quantity == stock.quantity && valued.purchase_price == stock.purchase_price
            && valued.portfolio_percentage == stock.portfolio_percentage
    ensures valued.cmp == FetchCmp(quote.price)
    ensures (valued.pe_ratio, valued.earnings) == FetchPeAndEarnings(quote.page)
    ensures valued.investment == stock.purchase_price * stock.quantity
    ensures valued.present_value == valued.cmp * stock.quantity
    ensures valued.gain_loss == valued.present_value - valued.investment
    ensures valued == Enrich(stock, quote)
  {
    var cmp := FetchCmp(quote.price);
    var fundamentals := FetchPeAndEarnings(quote.page);
    var investment := stock.purchase_price * stock.quantity;
    var presentValue := cmp * stock.quantity;
    valued := stock.(cmp := cmp, pe_ratio := fundamentals.0, earnings := fundamentals.1,
                     investment := investment, present_value := presentValue,
                     gain_loss := presentValue - investment);
  }

  /**
   * The first loop of `updatePortfolio` (backend/server.js:39-59): each stock
   * gets its fetched figures and derived amounts in place, its investment is
   * added to the total, and it is added to its sector's entry.
   */
  method AccumulatePass(stocks: array<Stock>, market: Market)
    returns (sectors: map<string, SectorData>, order: seq<string>, totalInvestment: real)
    modifies stocks
    ensures stocks[..] == FirstPass(old(stocks[..]), market)
    ensures totalInvestment == Total(stocks[..], Investment)
    ensures order == SectorLabels(stocks[..])
    ensures sectors == Accumulated(stocks[..])
  {
    ghost var input := stocks[..];
    ghost var done: seq<Stock> := [];
    totalInvestment := 0.0;
    sectors := map[];
    order := [];
    var i := 0;
    while i < stocks.Length
      invariant 0 <= i <= stocks.Length
      invariant forall k :: 0 <= k < i ==> stocks[k] == Enrich(input[k], QuoteFor(market, input[k].name))
      invariant forall k :: i <= k < stocks.Length ==> stocks[k] == input[k]
      invariant done == stocks[..i]
      invariant totalInvestment == Total(done, Investment)
      invariant order == SectorLabels(done)
      invariant sectors == Accumulated(done)
    {
      var stock := ValueStock(stocks[i], QuoteFor(market, stocks[i].name));
      stocks[i] := stock;
      totalInvestment := totalInvestment + stock.investment;
      sectors, order := AddToSector(done, sectors, order, stock);
      assert (done + [stock])[..i] == done;
      done := done + [stock];
      i := i + 1;
    }
    assert done == stocks[..];
  }

  /** The second loop (backend/server.js:61-63): each stock's share of the
      total investment, 0 for all when the total is not positive. */
  method PercentagePass(stocks: array<Stock>, totalInvestment: real)
    modifies stocks
    ensures stocks[..] == WithPercentages(old(stocks[..]), totalInvestment)
  {
    for j := 0 to stocks.Length
      invariant forall k :: 0 <= k < j ==>
        stocks[k] == old(stocks[k]).(portfolio_percentage := Weight(old(stocks[k]).investment, totalInvestment))
      invariant forall k :: j <= k < stocks.Length ==> stocks[k] == old(stocks[k])
    {
      stocks[j] := stocks[j].(portfolio_percentage := Weight(stocks[j].investment, totalInvestment));
    }
  }

  /** The third loop (backend/server.js:64-66): every entry of the dictionary,
      visited in key order, gets its gain/loss; nothing else changes. */
  method GainLossPass(pending: map<string, SectorData>, order: seq<string>)
    returns (sectors: map<string, SectorData>)
    requires Distinct(order)
    requires forall l :: l in pending <==> l in order
    ensures sectors == map l | l in pending :: Finalize(pending[l])
  {
    sectors := pending;
    for j := 0 to |order|
      invariant sectors.Keys == pending.Keys
      invariant forall k :: 0 <= k < j ==> sectors[order[k]] == Finalize(pending[order[k]])
      invariant forall k :: j <= k < |order| ==> sectors[order[k]] == pending[order[k]]
    {
      var sector := order[j];
      sectors := sectors[sector := sectors[sector].(gain_loss :=
        sectors[sector].present_value - sectors[sector].investment)];
    }
  }

  /** What the second and third passes leave behind, in terms of the list
      and the dictionary the first pass produced. */
  lemma LaterPasses(input: seq<Stock>, first: seq<Stock>, final: seq<Stock>, market: Market)
    requires first == FirstPass(input, market)
    requires final == WithPercentages(first, Total(first, Investment))
    ensures final == Valued(input, market)
    ensures Total(final, Investment) == Total(first, Investment)
    ensures Distinct(SectorLabels(first)) && SectorLabels(final) == SectorLabels(first)
    ensures forall l :: l in Accumulated(first) <==> l in SectorLabels(first)
    ensures Sectors(final) == map l | l in Accumulated(first) :: Finalize(Accumulated(first)[l])
  {
    SectorLabelsCoverOnce(first);
    assert SameButPercentage(first, final);
    TotalIgnoresPercentage(first, final, Investment);
    SectorsIgnorePercentage(first, final);
    SectorsFinalizeAccumulated(first);
  }

  /**
   * The body of `updatePortfolio` between reading and writing the document
   * (backend/server.js:36-66): the three passes in order.
   */
  method UpdateValuations(stocks: array<Stock>, market: Market)
    returns (sectors: map<string, SectorData>, order: seq<string>, totalInvestment: real)
    modifies stocks
    ensures stocks[..] == Valued(old(stocks[..]), market)
    ensures totalInvestment == Total(stocks[..], Investment)
    ensures order == SectorLabels(stocks[..])
    ensures sectors == Sectors(stocks[..])
  {
    ghost var input := stocks[..];
    var pending;
    pending, order, totalInvestment := AccumulatePass(stocks, market);
    ghost var first := stocks[..];
    PercentagePass(stocks, totalInvestment);
    LaterPasses(input, first, stocks[..], market);
    sectors := GainLossPass(pending, order);
  }

  /** The document after a successful cycle at time `now`. */
  function Refreshed(p: Portfolio, market: Market, now: string): Portfolio
  {
    var stocks := Valued(p.stocks, market);
    Portfolio(stocks, Sectors(stocks), SectorLabels(stocks), now)
  }

  /** The persisted document as `JSON.parse` sees it: either a portfolio or
      something that cannot be read (no file, invalid JSON, no `stocks` list). */
  datatype Document = Unreadable | Json(portfolio: Portfolio)

  /** The file the server reads and rewrites every cycle. */
  class PortfolioFile {
    var document: Document

    constructor (initial: Document)
      ensures document == initial
    {
      document := initial;
    }

    /**
     * One cycle of `updatePortfolio` (backend/server.js:33-74): an unreadable
     * document aborts the cycle and stays as it was; otherwise the whole
     * refreshed document replaces it and is returned.
     */
    method UpdatePortfolio(market: Market, now: string) returns (result: Option<Portfolio>)
      modifies this
      ensures old(document).Unreadable? ==> result == None && document == old(document)
      ensures old(document).Json? ==>
        result == Some(Refreshed(old(document).portfolio, market, now)) && document == Json(result.value)
    {
      match document
      case Unreadable =>
        result := None;
      case Json(p) =>
        var stocks := new Stock[|p.stocks|](k requires 0 <= k < |p.stocks| => p.stocks[k]);
        assert stocks[..] == p.stocks;
        var sectors, order, totalInvestment := UpdateValuations(stocks, market);
        var updated := Portfolio(stocks[..], sectors, order, now);
        document := Json(updated);
        result := Some(updated);
    }
  }

  /** Two cycles with the same market answers store the same document up to
      its timestamp: every derived field depends on the base fields only. */
  lemma RefreshIdempotent(p: Portfolio, market: Market, now: string, later: string)
    ensures Refreshed(Refreshed(p, market, now), market, later) == Refreshed(p, market, later)
  {
    ValuedIdempotent(p.stocks, market);
  }
}
