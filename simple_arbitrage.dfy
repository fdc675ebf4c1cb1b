/** The arbitrage scan shared by the demo tool and the WNBA analyzer: the same best-price
    table as the arbitrage finder, then every market with at least two outcomes and an index
    below 1.0 is reported, with no margin threshold and no stakes. A zero best price in such
    a market makes the reciprocal sum raise a division error, which ends the whole scan. */
module SimpleArbitrage {
  import opened Numeric
  import opened Odds
  import opened BestPrice
  import opened ArbitrageCalculator
  import ArbitrageFinder

  /** The `{'best_odds', 'bookmaker'}` record reported per outcome. */
  datatype PriceEntry = PriceEntry(name: string, bestOdds: real, bookmaker: string)

  datatype SimpleOpportunity = SimpleOpportunity(
    event: string,
    market: string,
    arbitragePercentage: real,
    profitMargin: real,
    outcomes: seq<PriceEntry>)

  /** The `"{home} vs {away}"` label. */
  function EventLabel(e: Event): string
  {
    e.homeTeam + " vs " + e.awayTeam
  }

  function Entries(os: seq<OutcomeBest>): (es: seq<PriceEntry>)
    ensures |es| == |os|
    ensures forall i :: 0 <= i < |os| ==> es[i] == PriceEntry(os[i].name, os[i].best.price, os[i].best.bookmaker)
  {
    seq(|os|, i requires 0 <= i < |os| => PriceEntry(os[i].name, os[i].best.price, os[i].best.bookmaker))
  }

  /** One market: `None` when its reciprocal sum divides by zero, otherwise nothing or one
      report. */
  function MarketScan(e: Event, entry: MarketBest): Option<seq<SimpleOpportunity>>
  {
    var odds := ArbitrageFinder.Prices(entry.outcomes);
    if |odds| < 2 then Some([])
    else if !NonZero(odds) then None
    else
      var index := ArbitrageIndex(odds);
      if index < 1.0 then
        Some([SimpleOpportunity(EventLabel(e), entry.key, index, (1.0 - index) * 100.0, Entries(entry.outcomes))])
      else Some([])
  }

  function TableScan(e: Event, t: Table): Option<seq<SimpleOpportunity>>
  {
    if t == [] then Some([])
    else
      var before := TableScan(e, t[..|t| - 1]);
      var here := MarketScan(e, t[|t| - 1]);
      if before.None? || here.None? then None else Some(before.value + here.value)
  }

  /** An event without bookmakers is skipped. */
  function EventScan(e: Event): Option<seq<SimpleOpportunity>>
  {
    if e.bookmakers == [] then Some([]) else TableScan(e, Aggregate(e.bookmakers))
  }

  function ScanAll(events: seq<Event>): Option<seq<SimpleOpportunity>>
  {
    if events == [] then Some([])
    else
      var before := ScanAll(events[..|events| - 1]);
      var here := EventScan(events[|events| - 1]);
      if before.None? || here.None? then None else Some(before.value + here.value)
  }

  // ---------------------------------------------------------------------------
  // The source's loops.

  /** The loop over the fetched events; `None` when a division by zero escapes. */
  method ScanEvents(events: seq<Event>) returns (r: Option<seq<SimpleOpportunity>>)
    ensures r == ScanAll(events)
  {
    var found: seq<SimpleOpportunity> := [];
    var i := 0;
    while i < |events|
      invariant 0 <= i <= |events|
      invariant ScanAll(events[..i]) == Some(found)
    {
      assert events[..i + 1][..i] == events[..i];
      var e := events[i];
      if e.bookmakers != [] {
        var table := BuildTable(e.bookmakers);
        var here := ScanTable(e, table);
        if here.None? {
          ScanAllNoneSticks(events, i + 1);
          return None;
        }
        found := found + here.value;
      } else {
        assert EventScan(e) == Some([]);
        assert found + [] == found;
      }
      i := i + 1;
    }
    assert events[..i] == events;
    r := Some(found);
  }

  method ScanTable(e: Event, table: Table) returns (r: Option<seq<SimpleOpportunity>>)
    ensures r == TableScan(e, table)
  {
    var found: seq<SimpleOpportunity> := [];
    var j := 0;
    while j < |table|
      invariant 0 <= j <= |table|
      invariant TableScan(e, table[..j]) == Some(found)
    {
      assert table[..j + 1][..j] == table[..j];
      var entry := table[j];
      if |entry.outcomes| >= 2 {
        var odds := ArbitrageFinder.Prices(entry.outcomes);
        if !NonZero(odds) {
          TableScanNoneSticks(e, table, j + 1);
          return None;
        }
        var index := ArbitrageIndex(odds);
        if index < 1.0 {
          found := found + [SimpleOpportunity(EventLabel(e), entry.key, index, (1.0 - index) * 100.0,
                                              Entries(entry.outcomes))];
        } else {
          assert found + [] == found;
        }
      } else {
        assert found + [] == found;
      }
      j := j + 1;
    }
    assert table[..j] == table;
    r := Some(found);
  }

  /** Once the scan of a prefix has failed, the scan of the whole table fails. */
  lemma {:induction false} TableScanNoneSticks(e: Event, t: Table, n: nat)
    requires n <= |t| && TableScan(e, t[..n]).None?
    ensures TableScan(e, t).None?
    decreases |t| - n
  {
    if n < |t| {
      assert t[..n + 1][..n] == t[..n];
      TableScanNoneSticks(e, t, n + 1);
    } else {
      assert t[..n] == t;
    }
  }

  lemma {:induction false} ScanAllNoneSticks(events: seq<Event>, n: nat)
    requires n <= |events| && ScanAll(events[..n]).None?
    ensures ScanAll(events).None?
    decreases |events| - n
  {
    if n < |events| {
      assert events[..n + 1][..n] == events[..n];
      ScanAllNoneSticks(events, n + 1);
    } else {
      assert events[..n] == events;
    }
  }

  // ---------------------------------------------------------------------------
  // What a report means.

  /** A market is reported exactly when it has at least two outcomes, no zero best price and
      an index below 1.0; the report lists every outcome's best price and bookmaker in
      first-seen order, and its margin is positive. */
  lemma MarketScanIff(e: Event, entry: MarketBest)
    ensures var r := MarketScan(e, entry);
      var odds := ArbitrageFinder.Prices(entry.outcomes);
      && (r.None? <==> |odds| >= 2 && !NonZero(odds))
      && (r.Some? ==> |r.value| <= 1)
      && (r.Some? && |r.value| == 1 <==> |odds| >= 2 && NonZero(odds) && ArbitrageIndex(odds) < 1.0)
      && (r.Some? && |r.value| == 1 ==>
            && r.value[0].market == entry.key
            && r.value[0].profitMargin > 0.0
            && |r.value[0].outcomes| == |entry.outcomes|
            && forall i :: 0 <= i < |entry.outcomes| ==>
                 r.value[0].outcomes[i].name == entry.outcomes[i].name
                 && r.value[0].outcomes[i].bestOdds == entry.outcomes[i].best.price)
  {
  }

  /** With positive prices nothing fails, and a market is reported here exactly when the
      arbitrage finder with a zero minimum margin reports it. */
  lemma AgreesWithFinder(e: Event, entry: MarketBest, betSize: real)
    requires ArbitrageFinder.PositiveEntry(entry)
    ensures MarketScan(e, entry).Some?
    ensures |MarketScan(e, entry).value| == |ArbitrageFinder.MarketResult(e, entry, betSize, 0.0)|
  {
  }

  lemma {:induction false} TableScanSucceeds(e: Event, t: Table)
    requires PositiveTable(t)
    ensures TableScan(e, t).Some?
  {
    if t != [] {
      TableScanSucceeds(e, t[..|t| - 1]);
      assert ArbitrageFinder.PositiveEntry(t[|t| - 1]);
      AgreesWithFinder(e, t[|t| - 1], 0.0);
    }
  }

  /** When every quoted price is positive the scan never raises. */
  lemma {:induction false} ScanAllSucceeds(events: seq<Event>)
    requires forall e :: e in events ==> PositivePrices(e)
    ensures ScanAll(events).Some?
  {
    if events != [] {
      var last := events[|events| - 1];
      ScanAllSucceeds(events[..|events| - 1]);
      if last.bookmakers != [] {
        AggregateShape(last);
        TableScanSucceeds(last, Aggregate(last.bookmakers));
      }
    }
  }
}
