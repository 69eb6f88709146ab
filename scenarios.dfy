/** Worked cycles on small portfolios, checked against the general model. */
module Scenarios {
  import opened Wrappers
  import opened Types
  import opened Gateway
  import opened Valuation
  import opened SectorAggregation
  import opened Refresh

  function Holding(name: string, sector: string, quantity: real, purchasePrice: real): Stock
  {
    Stock(name, sector, quantity, purchasePrice, 0.0, 0.0, 0.0, 0.0, 0.0, 0.0, 0.0)
  }

  const Quotes: Market := map["AAPL" := Quote(PriceQuote(Some(150.0)), PageError),
                              "XOM" := Quote(PriceQuote(Some(40.0)), PageError)]
  const Bought: seq<Stock> := [Holding("AAPL", "Technology", 10.0, 100.0), Holding("XOM", "Energy", 5.0, 50.0)]
  const AaplValued := Stock("AAPL", "Technology", 10.0, 100.0, 150.0, 0.0, 0.0, 1000.0, 1500.0, 500.0, 80.0)
  const XomValued := Stock("XOM", "Energy", 5.0, 50.0, 40.0, 0.0, 0.0, 250.0, 200.0, -50.0, 20.0)

  lemma TwoHoldingsValued()
    ensures Valued(Bought, Quotes) == [AaplValued, XomValued]
  {
    var a, x := AaplValued.(portfolio_percentage := 0.0), XomValued.(portfolio_percentage := 0.0);
    var first := FirstPass(Bought, Quotes);
    assert first == [a, x];
    assert first[..1] == [a] && [a][..0] == [];
    assert Total([a], Investment) == 1000.0;
    assert Total(first, Investment) == 1250.0;
  }

  lemma TwoHoldingsMembers()
    ensures SectorLabels([AaplValued, XomValued]) == ["Technology", "Energy"]
    ensures Members([AaplValued, XomValued], "Technology") == [AaplValued]
    ensures Members([AaplValued, XomValued], "Energy") == [XomValued]
  {
    var v := [AaplValued, XomValued];
    assert v[..1] == [AaplValued] && [AaplValued][..0] == [];
    assert "Technology" != "Energy";
    assert SectorLabels([AaplValued]) == ["Technology"];
    assert Members([AaplValued], "Technology") == [AaplValued];
    assert Members([AaplValued], "Energy") == [];
  }

  lemma SingleHolding(s: Stock)
    ensures Pending([s], s.sector) == SectorData([s.name], s.investment, s.present_value, 0.0)
  {
    assert [s][..0] == [];
    assert Members([s], s.sector) == [s];
    assert Names([s]) == [s.name];
    assert Total([s], Investment) == s.investment;
    assert Total([s], PresentValue) == s.present_value;
  }

  lemma TwoHoldingsPending()
    ensures Pending([AaplValued, XomValued], "Technology") == SectorData(["AAPL"], 1000.0, 1500.0, 0.0)
    ensures Pending([AaplValued, XomValued], "Energy") == SectorData(["XOM"], 250.0, 200.0, 0.0)
  {
    TwoHoldingsMembers();
    SingleHolding(AaplValued);
    SingleHolding(XomValued);
  }

  lemma TwoHoldingsSectors()
    ensures SectorLabels([AaplValued, XomValued]) == ["Technology", "Energy"]
    ensures Sectors([AaplValued, XomValued]) ==
      map["Technology" := SectorData(["AAPL"], 1000.0, 1500.0, 500.0),
          "Energy" := SectorData(["XOM"], 250.0, 200.0, -50.0)]
  {
    var v := [AaplValued, XomValued];
    TwoHoldingsMembers();
    TwoHoldingsPending();
    var expected := map["Technology" := SectorData(["AAPL"], 1000.0, 1500.0, 500.0),
                        "Energy" := SectorData(["XOM"], 250.0, 200.0, -50.0)];
    var sectors := Sectors(v);
    assert forall l :: l in sectors <==> l in expected;
    assert sectors["Technology"] == expected["Technology"];
    assert sectors["Energy"] == expected["Energy"];
    SameEntries(sectors, expected);
  }

  /**
   * Ten AAPL bought at 100 and five XOM bought at 50, quoted at 150 and 40,
   * with no fundamentals available: AAPL gains 500, XOM loses 50, the weights
   * are 80% and 20%, and each sector holds one stock.
   */
  lemma TwoHoldingsCycle(now: string)
    ensures Refreshed(Portfolio(Bought, map[], [], ""), Quotes, now) == Portfolio(
      [AaplValued, XomValued],
      map["Technology" := SectorData(["AAPL"], 1000.0, 1500.0, 500.0),
          "Energy" := SectorData(["XOM"], 250.0, 200.0, -50.0)],
      ["Technology", "Energy"], now)
  {
    TwoHoldingsValued();
    TwoHoldingsSectors();
  }

  /** An empty portfolio: nothing is invested, no sector exists, and no
      division takes place. */
  lemma EmptyCycle(market: Market, now: string)
    ensures Refreshed(Portfolio([], map[], [], ""), market, now) == Portfolio([], map[], [], now)
  {
    assert Sectors([]) == map[];
  }
}
