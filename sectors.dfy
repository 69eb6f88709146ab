/**
 * The sector dictionary a refresh cycle builds (backend/server.js:52-58,64-66),
 * defined independently of the loop that builds it: a sector's entry lists the
 * stocks carrying its label, in processing order, and sums their amounts.
 */
module SectorAggregation {
  import opened Types
  import opened Valuation

  ghost predicate Distinct(labels: seq<string>)
  {
    forall i, j :: 0 <= i < j < |labels| ==> labels[i] != labels[j]
  }

  /** The sector labels in the order they are first met: the key order of the
      dictionary. */
  function SectorLabels(ss: seq<Stock>): seq<string>
  {
    if ss == [] then []
    else
      var seen := SectorLabels(ss[..|ss| - 1]);
      var next := ss[|ss| - 1].sector;
      if next in seen then seen else seen + [next]
  }

  /** Every label that some stock carries is a key, and each key is listed once. */
  lemma {:induction false} SectorLabelsCoverOnce(ss: seq<Stock>)
    ensures forall k :: 0 <= k < |ss| ==> ss[k].sector in SectorLabels(ss)
    ensures Distinct(SectorLabels(ss))
  {
    if ss != [] {
      var init := ss[..|ss| - 1];
      SectorLabelsCoverOnce(init);
      assert forall k :: 0 <= k < |init| ==> init[k] == ss[k];
    }
  }

  /** The dictionary's keys are exactly the labels carried by some stock
      (backend/server.js:52-55): no other key, none missing. */
  lemma {:induction false} SectorKeysExact(ss: seq<Stock>, sector: string)
    ensures sector in Sectors(ss) <==> exists k :: 0 <= k < |ss| && ss[k].sector == sector
  {
    LabelsExact(ss, sector);
  }

  /** A label is listed exactly when some stock carries it. */
  lemma {:induction false} LabelsExact(ss: seq<Stock>, sector: string)
    ensures sector in SectorLabels(ss) <==> exists k :: 0 <= k < |ss| && ss[k].sector == sector
  {
    SectorLabelsCoverOnce(ss);
    if sector in SectorLabels(ss) && ss != [] {
      var init := ss[..|ss| - 1];
      if sector != ss[|ss| - 1].sector {
        LabelsExact(init, sector);
        var k :| 0 <= k < |init| && init[k].sector == sector;
        assert ss[k].sector == sector;
      }
    }
  }

  /** The stocks carrying `sector`, in processing order. They exist exactly when
      that label is one of the sector labels. */
  function Members(ss: seq<Stock>, sector: string): seq<Stock>
  {
    if ss == [] then []
    else Members(ss[..|ss| - 1], sector) + (if ss[|ss| - 1].sector == sector then [ss[|ss| - 1]] else [])
  }

  lemma {:induction false} MembersExist(ss: seq<Stock>, sector: string)
    ensures Members(ss, sector) == [] <==> sector !in SectorLabels(ss)
  {
    if ss != [] {
      MembersExist(ss[..|ss| - 1], sector);
    }
  }

  function Names(ss: seq<Stock>): seq<string>
  {
    if ss == [] then [] else Names(ss[..|ss| - 1]) + [ss[|ss| - 1].name]
  }

  /** The entry a new sector starts from (backend/server.js:54); the source
      adds `gain_loss` only in the last pass, the model holds 0 until then. */
  const EmptySector := SectorData([], 0.0, 0.0, 0.0)

  /** One stock's contribution to its sector (backend/server.js:56-58). */
  function AddStock(d: SectorData, s: Stock): SectorData
  {
    SectorData(d.stocks + [s.name], d.investment + s.investment,
               d.present_value + s.present_value, d.gain_loss)
  }

  /** A sector's entry once every stock has been added, before its gain/loss. */
  function Pending(ss: seq<Stock>, sector: string): SectorData
  {
    var ms := Members(ss, sector);
    SectorData(Names(ms), Total(ms, Investment), Total(ms, PresentValue), 0.0)
  }

  /** The last pass over the dictionary (backend/server.js:64-66). */
  function Finalize(d: SectorData): SectorData
  {
    d.(gain_loss := d.present_value - d.investment)
  }

  /** The dictionary as the first pass leaves it. */
  function Accumulated(ss: seq<Stock>): map<string, SectorData>
  {
    map l | l in SectorLabels(ss) :: Pending(ss, l)
  }

  /** The dictionary a cycle stores as `portfolio.sectors`. */
  function Sectors(ss: seq<Stock>): map<string, SectorData>
  {
    map l | l in SectorLabels(ss) :: Finalize(Pending(ss, l))
  }

  /** The sums over a list extended by one stock. */
  lemma SnocSums(ms: seq<Stock>, x: Stock)
    ensures Names(ms + [x]) == Names(ms) + [x.name]
    ensures Total(ms + [x], Investment) == Total(ms, Investment) + x.investment
    ensures Total(ms + [x], PresentValue) == Total(ms, PresentValue) + x.present_value
  {
    var t := ms + [x];
    assert t[..|ms|] == ms;
  }

  lemma MembersSnoc(ss: seq<Stock>, x: Stock, sector: string)
    ensures Members(ss + [x], sector) ==
      if x.sector == sector then Members(ss, sector) + [x] else Members(ss, sector)
  {
    var t := ss + [x];
    assert t[..|ss|] == ss;
  }

  /** The entry of a sector no stock carries yet is the empty one. */
  lemma PendingBefore(ss: seq<Stock>, sector: string)
    ensures (if sector in SectorLabels(ss) then Pending(ss, sector) else EmptySector) == Pending(ss, sector)
  {
    MembersExist(ss, sector);
  }

  /** A stock's own sector's entry is created on first sight, then the stock
      is added to it. */
  lemma PendingSnocOwn(ss: seq<Stock>, x: Stock)
    ensures Pending(ss + [x], x.sector) == AddStock(Pending(ss, x.sector), x)
  {
    MembersSnoc(ss, x, x.sector);
    SnocSums(Members(ss, x.sector), x);
  }

  /** One more stock changes only its own sector's entry: the entry is
      created on first sight, then the stock is added to it. */
  lemma PendingSnoc(ss: seq<Stock>, x: Stock, sector: string)
    ensures Pending(ss + [x], sector) ==
      if sector != x.sector then Pending(ss, sector)
      else AddStock(if sector in SectorLabels(ss) then Pending(ss, sector) else EmptySector, x)
  {
    if sector == x.sector {
      PendingSnocOwn(ss, x);
      PendingBefore(ss, sector);
    } else {
      MembersSnoc(ss, x, sector);
    }
  }

  /** A label is appended to the key order when it is first met. */
  lemma SectorLabelsSnoc(ss: seq<Stock>, x: Stock)
    ensures SectorLabels(ss + [x]) ==
      if x.sector in SectorLabels(ss) then SectorLabels(ss) else SectorLabels(ss) + [x.sector]
  {
    var t := ss + [x];
    assert t[..|t| - 1] == ss;
  }

  /** Two dictionaries with the same keys and the same entries are equal. */
  lemma SameEntries(lhs: map<string, SectorData>, rhs: map<string, SectorData>)
    requires forall l :: l in lhs <==> l in rhs
    requires forall l :: l in lhs ==> lhs[l] == rhs[l]
    ensures lhs == rhs
  {
  }

  /** One more stock adds at most its own label to the dictionary's keys. */
  lemma AccumulatedSnocKeys(ss: seq<Stock>, x: Stock)
    ensures forall l :: l in Accumulated(ss + [x]) <==> l == x.sector || l in Accumulated(ss)
  {
    SectorLabelsSnoc(ss, x);
  }

  /** The stored dictionary is the accumulated one with every entry's
      gain/loss filled in. */
  lemma SectorsFinalizeAccumulated(ss: seq<Stock>)
    ensures Sectors(ss) == map l | l in Accumulated(ss) :: Finalize(Accumulated(ss)[l])
  {
    var pending := Accumulated(ss);
    SameEntries(Sectors(ss), map l | l in pending :: Finalize(pending[l]));
  }

  /** The entry of any sector once one more stock has been added. */
  lemma AccumulatedSnocAt(ss: seq<Stock>, x: Stock, sector: string)
    requires sector in Accumulated(ss + [x])
    ensures var m := Accumulated(ss);
      Accumulated(ss + [x])[sector] ==
        m[x.sector := AddStock(if x.sector in m then m[x.sector] else EmptySector, x)][sector]
  {
    PendingSnoc(ss, x, sector);
    SectorLabelsSnoc(ss, x);
  }

  /** Adding one more stock to the dictionary (backend/server.js:52-58). */
  lemma AccumulatedSnoc(ss: seq<Stock>, x: Stock)
    ensures var m := Accumulated(ss);
      Accumulated(ss + [x]) ==
        m[x.sector := AddStock(if x.sector in m then m[x.sector] else EmptySector, x)]
  {
    var m := Accumulated(ss);
    var lhs := Accumulated(ss + [x]);
    var rhs := m[x.sector := AddStock(if x.sector in m then m[x.sector] else EmptySector, x)];
    forall l | l in lhs
      ensures lhs[l] == rhs[l]
    {
      AccumulatedSnocAt(ss, x, l);
    }
    AccumulatedSnocKeys(ss, x);
    SameEntries(lhs, rhs);
  }

  lemma {:induction false} NamesIgnorePercentage(ss: seq<Stock>, tt: seq<Stock>)
    requires SameButPercentage(ss, tt)
    ensures Names(ss) == Names(tt)
  {
    if ss != [] {
      var n := |ss| - 1;
      assert SameButPercentage(ss[..n], tt[..n]);
      NamesIgnorePercentage(ss[..n], tt[..n]);
    }
  }

  lemma {:induction false} MembersIgnorePercentage(ss: seq<Stock>, tt: seq<Stock>, sector: string)
    requires SameButPercentage(ss, tt)
    ensures SectorLabels(ss) == SectorLabels(tt)
    ensures SameButPercentage(Members(ss, sector), Members(tt, sector))
  {
    if ss != [] {
      var n := |ss| - 1;
      assert SameButPercentage(ss[..n], tt[..n]);
      MembersIgnorePercentage(ss[..n], tt[..n], sector);
      var a, b := Members(ss[..n], sector), Members(tt[..n], sector);
      if ss[n].sector == sector {
        assert SameButPercentage(a + [ss[n]], b + [tt[n]]) by {
          assert forall k :: 0 <= k < |a| ==> (a + [ss[n]])[k] == a[k] && (b + [tt[n]])[k] == b[k];
        }
      }
    }
  }

  /** A name is among a label's members' names exactly when some stock with
      that label has that name. */
  lemma {:induction false} MemberNames(ss: seq<Stock>, sector: string, name: string)
    ensures name in Names(Members(ss, sector)) <==>
      exists k :: 0 <= k < |ss| && ss[k].sector == sector && ss[k].name == name
  {
    if ss != [] {
      var init, x := ss[..|ss| - 1], ss[|ss| - 1];
      MemberNames(init, sector, name);
      MembersSnoc(init, x, sector);
      assert ss == init + [x];
      SnocSums(Members(init, sector), x);
      if exists k :: 0 <= k < |ss| && ss[k].sector == sector && ss[k].name == name {
        var k :| 0 <= k < |ss| && ss[k].sector == sector && ss[k].name == name;
        assert k < |init| ==> init[k] == ss[k];
      }
      if exists k :: 0 <= k < |init| && init[k].sector == sector && init[k].name == name {
        var k :| 0 <= k < |init| && init[k].sector == sector && init[k].name == name;
        assert ss[k] == init[k];
      }
    }
  }

  /**
   * A ticker is listed under a sector exactly when some stock carrying that
   * label has that name, whatever its quantity (backend/server.js:53-58).
   */
  lemma SectorListsMembers(ss: seq<Stock>, sector: string, name: string)
    requires sector in Sectors(ss)
    ensures name in Sectors(ss)[sector].stocks <==>
      exists k :: 0 <= k < |ss| && ss[k].sector == sector && ss[k].name == name
  {
    MemberNames(ss, sector, name);
  }

  /** The dictionary does not look at the portfolio percentages, so the pass
      that sets them leaves it as the first pass built it. */
  lemma SectorsIgnorePercentage(ss: seq<Stock>, tt: seq<Stock>)
    requires SameButPercentage(ss, tt)
    ensures SectorLabels(ss) == SectorLabels(tt)
    ensures Sectors(ss) == Sectors(tt)
  {
    MembersIgnorePercentage(ss, tt, "");
    forall l | l in SectorLabels(ss)
      ensures Pending(ss, l) == Pending(tt, l)
    {
      var a, b := Members(ss, l), Members(tt, l);
      MembersIgnorePercentage(ss, tt, l);
      NamesIgnorePercentage(a, b);
      TotalIgnoresPercentage(a, b, Investment);
      TotalIgnoresPercentage(a, b, PresentValue);
    }
  }

  /** The sum of an amount over the dictionary's entries, in key order. */
  function SectorTotal(sectors: map<string, SectorData>, order: seq<string>, a: Amount): real
  {
    if order == [] then 0.0
    else
      var l := order[|order| - 1];
      SectorTotal(sectors, order[..|order| - 1], a) +
        (if l !in sectors then 0.0
         else match a
           case Investment => sectors[l].investment
           case PresentValue => sectors[l].present_value
           case GainLoss => sectors[l].gain_loss)
  }

  /** The sum of an amount over the members of each of the given sectors. */
  ghost function MemberTotal(ss: seq<Stock>, labels: seq<string>, a: Amount): real
  {
    if labels == [] then 0.0
    else MemberTotal(ss, labels[..|labels| - 1], a) + Total(Members(ss, labels[|labels| - 1]), a)
  }

  lemma {:induction false} MemberTotalNil(labels: seq<string>, a: Amount)
    ensures MemberTotal([], labels, a) == 0.0
  {
    if labels != [] {
      MemberTotalNil(labels[..|labels| - 1], a);
    }
  }

  /** A new stock adds its amount to exactly the one sector that carries its
      label, if that sector is among distinct `labels`. */
  lemma {:induction false} MemberTotalSnoc(ss: seq<Stock>, x: Stock, labels: seq<string>, a: Amount)
    requires Distinct(labels)
    ensures MemberTotal(ss + [x], labels, a) ==
      MemberTotal(ss, labels, a) + (if x.sector in labels then Get(x, a) else 0.0)
  {
    if labels != [] {
      var init, l := labels[..|labels| - 1], labels[|labels| - 1];
      assert Distinct(init);
      MemberTotalSnoc(ss, x, init, a);
      var t := ss + [x];
      assert t[..|t| - 1] == ss;
      var ms := Members(ss, l);
      if x.sector == l {
        assert Members(t, l) == ms + [x];
        assert (ms + [x])[..|ms|] == ms;
        assert x.sector !in init;
      } else {
        assert Members(t, l) == ms;
        assert x.sector in labels <==> x.sector in init;
      }
    }
  }

  /** Distinct labels covering every stock partition the stocks. */
  lemma {:induction false} MemberTotalCovers(ss: seq<Stock>, labels: seq<string>, a: Amount)
    requires Distinct(labels)
    requires forall k :: 0 <= k < |ss| ==> ss[k].sector in labels
    ensures MemberTotal(ss, labels, a) == Total(ss, a)
  {
    if ss == [] {
      MemberTotalNil(labels, a);
    } else {
      var init, x := ss[..|ss| - 1], ss[|ss| - 1];
      assert ss == init + [x];
      MemberTotalCovers(init, labels, a);
      MemberTotalSnoc(init, x, labels, a);
    }
  }

  /** Over any prefix of the key order, the dictionary's investments and
      present values are its members' sums, and each gain/loss is the
      difference. */
  lemma {:induction false} SectorTotalOfPrefix(ss: seq<Stock>, labels: seq<string>)
    requires forall l :: l in labels ==> l in SectorLabels(ss)
    ensures SectorTotal(Sectors(ss), labels, Investment) == MemberTotal(ss, labels, Investment)
    ensures SectorTotal(Sectors(ss), labels, PresentValue) == MemberTotal(ss, labels, PresentValue)
    ensures SectorTotal(Sectors(ss), labels, GainLoss) ==
      MemberTotal(ss, labels, PresentValue) - MemberTotal(ss, labels, Investment)
  {
    if labels != [] {
      SectorTotalOfPrefix(ss, labels[..|labels| - 1]);
    }
  }

  /**
   * Every stock is counted in exactly one sector: the sectors' investments,
   * present values and gains/losses add up to those of the whole portfolio
   * (backend/server.js:50,56-57,65).
   */
  lemma SectorsPartitionPortfolio(ss: seq<Stock>)
    ensures SectorTotal(Sectors(ss), SectorLabels(ss), Investment) == Total(ss, Investment)
    ensures SectorTotal(Sectors(ss), SectorLabels(ss), PresentValue) == Total(ss, PresentValue)
    ensures SectorTotal(Sectors(ss), SectorLabels(ss), GainLoss) ==
      Total(ss, PresentValue) - Total(ss, Investment)
  {
    var labels := SectorLabels(ss);
    SectorLabelsCoverOnce(ss);
    SectorTotalOfPrefix(ss, labels);
    MemberTotalCovers(ss, labels, Investment);
    MemberTotalCovers(ss, labels, PresentValue);
  }
}
