/**
 * What one refresh cycle does to the list of holdings (backend/server.js:39-63),
 * stated as functions of the list read from the document and the market's
 * answers: the first pass fills in the fetched and derived fields of every
 * stock, the second gives every stock its share of the total investment.
 */
module Valuation {
  import opened Types
  import opened Gateway

  /** The money amounts that are summed over holdings and over sectors. */
  datatype Amount = Investment | PresentValue | GainLoss

  function Get(s: Stock, a: Amount): real
  {
    match a
    case Investment => s.investment
    case PresentValue => s.present_value
    case GainLoss => s.gain_loss
  }

  /** `stocks.reduce((sum, stock) => sum + stock.<amount>, 0)`, a left fold:
      the last stock is added last. */
  function Total(ss: seq<Stock>, a: Amount): real
  {
    if ss == [] then 0.0 else Total(ss[..|ss| - 1], a) + Get(ss[|ss| - 1], a)
  }

  /** The sum of the stocks' portfolio percentages. */
  function PercentageTotal(ss: seq<Stock>): real
  {
    if ss == [] then 0.0 else PercentageTotal(ss[..|ss| - 1]) + ss[|ss| - 1].portfolio_percentage
  }

  /** The first pass for one stock: store the fetched figures, then derive
      investment, present value and gain/loss (backend/server.js:40-48). */
  function Enrich(s: Stock, q: Quote): Stock
  {
    var cmp := FetchCmp(q.price);
    var fundamentals := FetchPeAndEarnings(q.page);
    var investment := s.purchase_price * s.quantity;
    var presentValue := cmp * s.quantity;
    s.(cmp := cmp, pe_ratio := fundamentals.0, earnings := fundamentals.1,
       investment := investment, present_value := presentValue,
       gain_loss := presentValue - investment)
  }

  function FirstPass(ss: seq<Stock>, market: Market): seq<Stock>
  {
    seq(|ss|, k requires 0 <= k < |ss| => Enrich(ss[k], QuoteFor(market, ss[k].name)))
  }

  /** The guarded share of backend/server.js:62. */
  function Weight(investment: real, totalInvestment: real): (w: real)
    ensures totalInvestment > 0.0 ==> w * totalInvestment == investment * 100.0
    ensures totalInvestment <= 0.0 ==> w == 0.0
  {
    if totalInvestment > 0.0 then investment / totalInvestment * 100.0 else 0.0
  }

  function WithPercentages(ss: seq<Stock>, totalInvestment: real): seq<Stock>
  {
    seq(|ss|, k requires 0 <= k < |ss| =>
      ss[k].(portfolio_percentage := Weight(ss[k].investment, totalInvestment)))
  }

  /** `tt` is `ss` with (possibly) other portfolio percentages. */
  ghost predicate SameButPercentage(ss: seq<Stock>, tt: seq<Stock>)
  {
    |ss| == |tt| &&
    forall k :: 0 <= k < |ss| ==> tt[k] == ss[k].(portfolio_percentage := tt[k].portfolio_percentage)
  }

  /** The sums of money amounts do not look at the percentages. */
  lemma {:induction false} TotalIgnoresPercentage(ss: seq<Stock>, tt: seq<Stock>, a: Amount)
    requires SameButPercentage(ss, tt)
    ensures Total(ss, a) == Total(tt, a)
  {
    if ss != [] {
      var n := |ss| - 1;
      assert SameButPercentage(ss[..n], tt[..n]);
      TotalIgnoresPercentage(ss[..n], tt[..n], a);
    }
  }

  /** The list of holdings after a cycle (backend/server.js:39-63). */
  function Valued(ss: seq<Stock>, market: Market): (r: seq<Stock>)
    ensures |r| == |ss|
  {
    var first := FirstPass(ss, market);
    WithPercentages(first, Total(first, Investment))
  }

  /**
   * Each holding after a cycle: base fields unchanged, fetched figures with
   * their fallbacks, the derived fields consistent with them, and its
   * portfolio percentage its share of the list's total investment, or 0
   * when that total is not positive.
   */
  lemma ValuedStock(ss: seq<Stock>, market: Market, k: nat)
    requires k < |ss|
    ensures var s, r, t := ss[k], Valued(ss, market)[k], Total(Valued(ss, market), Investment);
      && r.name == s.name && r.sector == s.sector
      && r.quantity == s.quantity && r.purchase_price == s.purchase_price
      && r.cmp == FetchCmp(QuoteFor(market, s.name).price)
      && (r.pe_ratio, r.earnings) == FetchPeAndEarnings(QuoteFor(market, s.name).page)
      && r.investment == s.purchase_price * s.quantity
      && r.present_value == r.cmp * s.quantity
      && r.gain_loss == r.present_value - r.investment
      && r.portfolio_percentage == Weight(r.investment, t)
  {
    ValuedAt(ss, market, k);
  }

  /** The holding at index `k` after a cycle, in terms of the two passes. */
  lemma ValuedAt(ss: seq<Stock>, market: Market, k: nat)
    requires k < |ss|
    ensures var e := Enrich(ss[k], QuoteFor(market, ss[k].name));
      Valued(ss, market)[k] == e.(portfolio_percentage := Weight(e.investment, Total(Valued(ss, market), Investment)))
  {
    var first := FirstPass(ss, market);
    TotalIgnoresPercentage(first, Valued(ss, market), Investment);
  }

  /** Scaling every investment by the same factor scales their sum. */
  lemma {:induction false} PercentageTotalScales(ss: seq<Stock>, t: real)
    requires t > 0.0
    requires forall k :: 0 <= k < |ss| ==> ss[k].portfolio_percentage == Weight(ss[k].investment, t)
    ensures PercentageTotal(ss) == Total(ss, Investment) / t * 100.0
  {
    if ss != [] {
      var n := |ss| - 1;
      PercentageTotalScales(ss[..n], t);
      var a, b := Total(ss[..n], Investment), ss[n].investment;
      assert (a + b) / t * 100.0 == a / t * 100.0 + b / t * 100.0;
    }
  }

  lemma ValuedWeights(ss: seq<Stock>, market: Market)
    ensures var r := Valued(ss, market);
      forall k :: 0 <= k < |r| ==> r[k].portfolio_percentage == Weight(r[k].investment, Total(r, Investment))
  {
    var r := Valued(ss, market);
    forall k | 0 <= k < |r|
      ensures r[k].portfolio_percentage == Weight(r[k].investment, Total(r, Investment))
    {
      ValuedAt(ss, market, k);
    }
  }

  /** The portfolio percentages add up to 100 when the total investment is
      positive, and are all 0 otherwise (backend/server.js:61-63). */
  lemma PercentagesSumTo100(ss: seq<Stock>, market: Market)
    ensures var r := Valued(ss, market);
      Total(r, Investment) > 0.0 ==> PercentageTotal(r) == 100.0
    ensures var r := Valued(ss, market);
      Total(r, Investment) <= 0.0 ==> forall k :: 0 <= k < |r| ==> r[k].portfolio_percentage == 0.0
  {
    var r := Valued(ss, market);
    var t := Total(r, Investment);
    ValuedWeights(ss, market);
    if t > 0.0 {
      PercentageTotalScales(r, t);
      assert t / t == 1.0;
    }
  }

  /** A sum of gain/loss is the difference of the sums when every stock's
      gain/loss is its present value minus its investment. */
  lemma {:induction false} GainLossTotal(ss: seq<Stock>)
    requires forall k :: 0 <= k < |ss| ==> ss[k].gain_loss == ss[k].present_value - ss[k].investment
    ensures Total(ss, GainLoss) == Total(ss, PresentValue) - Total(ss, Investment)
  {
    if ss != [] {
      GainLossTotal(ss[..|ss| - 1]);
    }
  }

  /** `totalInvestment` of backend/server.js:36,50 is the sum of the stocks'
      investments, so 0 for an empty list; the same sum gives the sum of
      gain/loss as present value minus investment. */
  lemma ValuedTotals(ss: seq<Stock>, market: Market)
    ensures ss == [] ==> Total(Valued(ss, market), Investment) == 0.0
    ensures var r := Valued(ss, market);
      Total(r, GainLoss) == Total(r, PresentValue) - Total(r, Investment)
  {
    var r := Valued(ss, market);
    forall k | 0 <= k < |r|
      ensures r[k].gain_loss == r[k].present_value - r[k].investment
    {
      ValuedStock(ss, market, k);
    }
    GainLossTotal(r);
  }

  /** A failed price fetch leaves the stock valued at 0 and its whole
      investment lost; the fundamentals do not depend on the price fetch. */
  lemma PriceFailureFallback(ss: seq<Stock>, market: Market, k: nat)
    requires k < |ss|
    requires QuoteFor(market, ss[k].name).price.PriceError?
    ensures var r := Valued(ss, market);
      && r[k].cmp == 0.0 && r[k].present_value == 0.0
      && r[k].gain_loss == -r[k].investment
      && (r[k].pe_ratio, r[k].earnings) == FetchPeAndEarnings(QuoteFor(market, ss[k].name).page)
  {
    ValuedStock(ss, market, k);
  }

  /** A failed page fetch zeroes P/E and EPS whatever the price fetch did. */
  lemma PageFailureFallback(ss: seq<Stock>, market: Market, k: nat)
    requires k < |ss|
    requires QuoteFor(market, ss[k].name).page.PageError?
    ensures var r := Valued(ss, market);
      && r[k].pe_ratio == 0.0 && r[k].earnings == 0.0
      && r[k].cmp == FetchCmp(QuoteFor(market, ss[k].name).price)
  {
    ValuedStock(ss, market, k);
  }

  /** Valuing an already valued list with the same answers changes nothing:
      the derived fields are recomputed from the base fields alone. */
  lemma ValuedIdempotent(ss: seq<Stock>, market: Market)
    ensures Valued(Valued(ss, market), market) == Valued(ss, market)
  {
    var v := Valued(ss, market);
    var f1 := FirstPass(ss, market);
    var f2 := FirstPass(v, market);
    assert SameButPercentage(f1, f2) by {
      forall k | 0 <= k < |f1|
        ensures f2[k] == f1[k].(portfolio_percentage := f2[k].portfolio_percentage)
      {
      }
    }
    TotalIgnoresPercentage(f1, f2, Investment);
  }
}
