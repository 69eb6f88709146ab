/**
 * The sector dictionary of backend/server.js:37 is a plain object literal, so
 * looking up a label that names a member inherited from `Object.prototype`
 * (line 53) finds that inherited member instead of nothing. The entry is then
 * not created, and `sectors[sector].stocks.push` (line 58) throws because the
 * inherited member has no `stocks` list: the cycle is abandoned by the
 * `catch` of line 71 and nothing is written. The rest of the model uses the
 * evidently intended dictionary, `SectorAggregation.Accumulated`, in which
 * every label is a fresh key.
 */
module PrototypeKeys {
  import opened Wrappers
  import opened Types
  import opened SectorAggregation

  /** The names a lookup on `{}` resolves through `Object.prototype`. */
  const InheritedNames: set<string> := {
    "constructor", "__proto__", "toString", "toLocaleString", "valueOf",
    "hasOwnProperty", "isPrototypeOf", "propertyIsEnumerable",
    "__defineGetter__", "__defineSetter__", "__lookupGetter__", "__lookupSetter__"
  }

  /** Lines 52-58 as written, over the whole list: `None` when line 58 throws. */
  function AccumulateAsWritten(ss: seq<Stock>): Option<map<string, SectorData>>
  {
    if ss == [] then Some(map[])
    else
      match AccumulateAsWritten(ss[..|ss| - 1])
      case None => None
      case Some(m) =>
        var x := ss[|ss| - 1];
        if x.sector in m then Some(m[x.sector := AddStock(m[x.sector], x)])
        else if x.sector in InheritedNames then None
        else Some(m[x.sector := AddStock(EmptySector, x)])
  }

  ghost predicate CarriesInheritedName(ss: seq<Stock>)
  {
    exists k :: 0 <= k < |ss| && ss[k].sector in InheritedNames
  }

  /**
   * The code as written fails exactly when some stock's sector label names an
   * inherited member; on every other portfolio it builds the intended
   * dictionary.
   */
  lemma {:induction false} AsWrittenAborts(ss: seq<Stock>)
    ensures AccumulateAsWritten(ss) ==
      if CarriesInheritedName(ss) then None else Some(Accumulated(ss))
  {
    if ss == [] {
      assert Accumulated(ss) == map[];
    } else {
      var init, x := ss[..|ss| - 1], ss[|ss| - 1];
      assert ss == init + [x];
      AsWrittenAborts(init);
      InheritedNameSnoc(init, x);
      LabelsExact(init, x.sector);
      if !CarriesInheritedName(ss) {
        AccumulatedSnoc(init, x);
      }
    }
  }

  lemma InheritedNameSnoc(ss: seq<Stock>, x: Stock)
    ensures CarriesInheritedName(ss + [x]) <==> CarriesInheritedName(ss) || x.sector in InheritedNames
  {
    var t := ss + [x];
    if CarriesInheritedName(t) && !CarriesInheritedName(ss) {
      var k :| 0 <= k < |t| && t[k].sector in InheritedNames;
      assert k == |ss|;
    }
    if CarriesInheritedName(ss) {
      var k :| 0 <= k < |ss| && ss[k].sector in InheritedNames;
      assert t[k] == ss[k];
    }
    if x.sector in InheritedNames {
      assert t[|ss|] == x;
    }
  }

  /** One holding in a sector labelled "constructor" is enough: the code as
      written abandons the cycle, the intended dictionary has that key. */
  lemma ConstructorSectorAborts()
    ensures var s := Stock("XOM", "constructor", 10.0, 100.0, 0.0, 0.0, 0.0, 1000.0, 0.0, -1000.0, 0.0);
      AccumulateAsWritten([s]) == None && "constructor" in Accumulated([s])
  {
    var s := Stock("XOM", "constructor", 10.0, 100.0, 0.0, 0.0, 0.0, 1000.0, 0.0, -1000.0, 0.0);
    assert [s][..0] == [];
  }
}
