/**
 * The dashboard's headline figures (frontend/components/portfolio-summary.tsx:10-13)
 * and the up/down indicators drawn from them (lines 47-55, 63-71), computed
 * from whatever snapshot the dashboard was given.
 */
module Summary {
  import opened Types
  import opened Gateway
  import opened Valuation
  import opened SectorAggregation
  import opened Refresh

  datatype Totals = Totals(totalInvestment: real, totalPresentValue: real, totalGainLoss: real)

  /** The two `reduce` sums over the holdings and their difference
      (frontend/components/portfolio-summary.tsx:10-12). */
  function PortfolioTotals(p: Portfolio): Totals
  {
    var investment := Total(p.stocks, Investment);
    var presentValue := Total(p.stocks, PresentValue);
    Totals(investment, presentValue, presentValue - investment)
  }

  /** The return in percent (line 13). The source divides without a guard,
      so the model asks for a nonzero investment. */
  function GainLossPercentage(t: Totals): (r: real)
    requires t.totalInvestment != 0.0
    ensures r * t.totalInvestment == t.totalGainLoss * 100.0
  {
    t.totalGainLoss / t.totalInvestment * 100.0
  }

  /** The gain/loss card shows the upward arrow and green text (lines 47-54)
      exactly when the holdings are worth at least what was paid for them. */
  function GainLossUp(p: Portfolio): (up: bool)
    ensures up <==> Total(p.stocks, PresentValue) >= Total(p.stocks, Investment)
  {
    PortfolioTotals(p).totalGainLoss >= 0.0
  }

  /** The return card's arrow (lines 63-70). With a positive investment it
      agrees with the gain/loss card; with a negative one it is reversed. */
  function ReturnUp(p: Portfolio): (up: bool)
    requires Total(p.stocks, Investment) != 0.0
    ensures Total(p.stocks, Investment) > 0.0 ==> (up <==> GainLossUp(p))
    ensures Total(p.stocks, Investment) < 0.0 ==>
      (up <==> Total(p.stocks, PresentValue) <= Total(p.stocks, Investment))
  {
    var t := PortfolioTotals(p);
    var r := GainLossPercentage(t);
    assert r == t.totalGainLoss * (100.0 / t.totalInvestment);
    r >= 0.0
  }

  /** A snapshot with no holdings shows zero everywhere (line 10). */
  lemma EmptyPortfolioTotals(p: Portfolio)
    requires p.stocks == []
    ensures PortfolioTotals(p) == Totals(0.0, 0.0, 0.0)
    ensures GainLossUp(p)
  {
  }

  /** The sums over a valued list that the dashboard shows. */
  lemma ValuedSums(ss: seq<Stock>, market: Market)
    ensures var v := Valued(ss, market);
      && Total(v, Investment) == SectorTotal(Sectors(v), SectorLabels(v), Investment)
      && Total(v, PresentValue) == SectorTotal(Sectors(v), SectorLabels(v), PresentValue)
      && Total(v, PresentValue) - Total(v, Investment) == SectorTotal(Sectors(v), SectorLabels(v), GainLoss)
      && Total(v, PresentValue) - Total(v, Investment) == Total(v, GainLoss)
      && (Total(v, Investment) > 0.0 ==> PercentageTotal(v) == 100.0)
  {
    SectorsPartitionPortfolio(Valued(ss, market));
    ValuedTotals(ss, market);
    PercentagesSumTo100(ss, market);
  }

  /**
   * On a snapshot the server wrote, the dashboard's figures agree with the
   * server's: the total investment is the one the percentages were computed
   * from, the totals are the sums over the sector dictionary, and the total
   * gain/loss is the sum of the stocks' own gains/losses
   * (frontend/components/portfolio-summary.tsx:10-12, backend/server.js:48-66).
   */
  lemma RefreshedTotalsAgree(p: Portfolio, market: Market, now: string)
    ensures var q := Refreshed(p, market, now);
      var t := PortfolioTotals(q);
      && t.totalInvestment == SectorTotal(q.sectors, q.sectorOrder, Investment)
      && t.totalPresentValue == SectorTotal(q.sectors, q.sectorOrder, PresentValue)
      && t.totalGainLoss == SectorTotal(q.sectors, q.sectorOrder, GainLoss)
      && t.totalGainLoss == Total(q.stocks, GainLoss)
      && (t.totalInvestment > 0.0 ==> PercentageTotal(q.stocks) == 100.0)
  {
    var v := Valued(p.stocks, market);
    assert Refreshed(p, market, now) == Portfolio(v, Sectors(v), SectorLabels(v), now);
    ValuedSums(p.stocks, market);
  }

  /** The share of each holding the server stored is its investment over the
      dashboard's total investment, as a percentage. */
  lemma RefreshedPercentages(p: Portfolio, market: Market, now: string, k: nat)
    requires k < |p.stocks|
    ensures var q := Refreshed(p, market, now);
      var t := PortfolioTotals(q);
      q.stocks[k].portfolio_percentage ==
        if t.totalInvestment > 0.0 then q.stocks[k].investment / t.totalInvestment * 100.0 else 0.0
  {
    ValuedStock(p.stocks, market, k);
  }
}
