/** `ArbitrageFinder`: per event, the best-price table is built and every market with at
    least two outcomes, an index below 1.0 and a margin of at least the configured minimum
    becomes one opportunity; the per-event results are concatenated in event order. */
module ArbitrageFinder {
  import opened Numeric
  import opened Odds
  import opened BestPrice
  import opened ArbitrageCalculator

  /** `MIN_PROFIT_MARGIN` in config.py, in percent. */
  const MinProfitMargin: real := 0.5

  /** `BET_SIZE` in config.py. */
  const BetSize: real := 100.0

  /** One outcome of an opportunity, in the order the outcome was first quoted. */
  datatype Leg = Leg(name: string, odds: real, bookmaker: string, bookmakerKey: string, stake: real)

  /** `ArbitrageOpportunity`; it does not record which market it came from. */
  datatype Opportunity = Opportunity(
    eventId: string,
    sport: string,
    homeTeam: string,
    awayTeam: string,
    commenceTime: string,
    outcomes: seq<Leg>,
    arbitragePercentage: real,
    profitMargin: real,
    guaranteedProfit: real,
    totalStake: real)

  /** The best prices of a market entry, in outcome order. */
  function Prices(os: seq<OutcomeBest>): (ps: seq<real>)
    ensures |ps| == |os| && forall i :: 0 <= i < |os| ==> ps[i] == os[i].best.price
  {
    seq(|os|, i requires 0 <= i < |os| => os[i].best.price)
  }

  ghost predicate PositiveEntry(entry: MarketBest)
  {
    AllPositive(Prices(entry.outcomes))
  }

  function Legs(os: seq<OutcomeBest>, stakes: seq<real>): (legs: seq<Leg>)
    requires |stakes| == |os|
    ensures |legs| == |os|
    ensures forall i :: 0 <= i < |os| ==>
      legs[i] == Leg(os[i].name, os[i].best.price, os[i].best.bookmaker, os[i].best.bookmakerKey, stakes[i])
  {
    seq(|os|, i requires 0 <= i < |os| =>
      Leg(os[i].name, os[i].best.price, os[i].best.bookmaker, os[i].best.bookmakerKey, stakes[i]))
  }

  /** What one market entry contributes: nothing, or exactly one opportunity. */
  function MarketResult(e: Event, entry: MarketBest, betSize: real, minMargin: real): seq<Opportunity>
    requires PositiveEntry(entry)
  {
    var odds := Prices(entry.outcomes);
    if |odds| < 2 then []
    else
      var index := ArbitrageIndex(odds);
      if index >= 1.0 then []
      else
        var margin := (1.0 - index) * 100.0;
        if margin < minMargin then []
        else
          [Opportunity(e.id, e.sportKey, e.homeTeam, e.awayTeam, e.commenceTime,
                       Legs(entry.outcomes, Stakes(odds, betSize)),
                       index, margin, GuaranteedProfit(odds, betSize), betSize)]
  }

  /** The evaluation pass over the table's markets, in insertion order. */
  function Evaluate(e: Event, t: Table, betSize: real, minMargin: real): seq<Opportunity>
    requires PositiveTable(t)
  {
    if t == [] then []
    else
      assert PositiveEntry(t[|t| - 1]);
      Evaluate(e, t[..|t| - 1], betSize, minMargin) + MarketResult(e, t[|t| - 1], betSize, minMargin)
  }

  /** `_analyze_event`, as a specification. */
  ghost function EventOpportunities(e: Event, betSize: real, minMargin: real): seq<Opportunity>
    requires PositivePrices(e)
  {
    if e.bookmakers == [] then []
    else
      AggregateShape(e);
      Evaluate(e, Aggregate(e.bookmakers), betSize, minMargin)
  }

  /** `find_arbitrage_opportunities` given the fetch result: a failed or empty fetch gives
      nothing, otherwise the events' opportunities concatenated in event order. */
  ghost function AllOpportunities(events: seq<Event>, betSize: real, minMargin: real): seq<Opportunity>
    requires forall e :: e in events ==> PositivePrices(e)
  {
    if events == [] then []
    else
      AllOpportunities(events[..|events| - 1], betSize, minMargin)
        + EventOpportunities(events[|events| - 1], betSize, minMargin)
  }

  // ---------------------------------------------------------------------------
  // The source's loops.

  method AnalyzeEvent(e: Event, betSize: real, minMargin: real) returns (ops: seq<Opportunity>)
    requires PositivePrices(e)
    ensures ops == EventOpportunities(e, betSize, minMargin)
  {
    if e.bookmakers == [] {
      return [];
    }
    var table := BuildTable(e.bookmakers);
    AggregateShape(e);
    ops := [];
    var i := 0;
    while i < |table|
      invariant 0 <= i <= |table|
      invariant PositiveTable(table[..i])
      invariant ops == Evaluate(e, table[..i], betSize, minMargin)
    {
      var found := EvaluateMarket(e, table[i], betSize, minMargin);
      assert table[..i + 1][..i] == table[..i];
      ops := ops + found;
      i := i + 1;
    }
    assert table[..i] == table;
  }

  /** One market of the evaluation loop. */
  method EvaluateMarket(e: Event, entry: MarketBest, betSize: real, minMargin: real)
    returns (found: seq<Opportunity>)
    requires PositiveEntry(entry)
    ensures found == MarketResult(e, entry, betSize, minMargin)
  {
    if |entry.outcomes| < 2 {
      return [];
    }
    var odds := Prices(entry.outcomes);
    var index := ArbitrageIndex(odds);
    if index >= 1.0 {
      return [];
    }
    var margin := (1.0 - index) * 100.0;
    if margin < minMargin {
      return [];
    }
    var profit := GuaranteedProfit(odds, betSize);
    var stakes := CalculateStakes(odds, betSize);
    var legs: seq<Leg> := [];
    var k := 0;
    while k < |entry.outcomes|
      invariant 0 <= k <= |entry.outcomes|
      invariant legs == Legs(entry.outcomes, stakes)[..k]
    {
      var o := entry.outcomes[k];
      legs := legs + [Leg(o.name, odds[k], o.best.bookmaker, o.best.bookmakerKey, stakes[k])];
      k := k + 1;
    }
    assert legs == Legs(entry.outcomes, stakes);
    found := [Opportunity(e.id, e.sportKey, e.homeTeam, e.awayTeam, e.commenceTime,
                          legs, index, margin, profit, betSize)];
  }

  /** The fetch result is `None` when the request failed. */
  method FindOpportunities(events: Option<seq<Event>>, betSize: real, minMargin: real)
    returns (ops: seq<Opportunity>)
    requires events.Some? ==> forall e :: e in events.value ==> PositivePrices(e)
    ensures events.None? ==> ops == []
    ensures events.Some? ==> ops == AllOpportunities(events.value, betSize, minMargin)
  {
    if events.None? || events.value == [] {
      return [];
    }
    var es := events.value;
    ops := [];
    var i := 0;
    while i < |es|
      invariant 0 <= i <= |es|
      invariant ops == AllOpportunities(es[..i], betSize, minMargin)
    {
      var found := AnalyzeEvent(es[i], betSize, minMargin);
      assert es[..i + 1][..i] == es[..i];
      ops := ops + found;
      i := i + 1;
    }
    assert es[..i] == es;
  }

  // ---------------------------------------------------------------------------
  // What a report means.

  /** A market yields at most one opportunity, and yields one exactly when it has at least
      two outcomes, an index below 1.0 and a margin (1 - I)·100 of at least the minimum. */
  lemma MarketResultIff(e: Event, entry: MarketBest, betSize: real, minMargin: real)
    requires PositiveEntry(entry)
    ensures |MarketResult(e, entry, betSize, minMargin)| <= 1
    ensures |MarketResult(e, entry, betSize, minMargin)| == 1 <==>
      |entry.outcomes| >= 2
      && ArbitrageIndex(Prices(entry.outcomes)) < 1.0
      && (1.0 - ArbitrageIndex(Prices(entry.outcomes))) * 100.0 >= minMargin
  {
  }

  /** A reported opportunity carries the event's fields, one leg per outcome in first-seen
      order with that outcome's best price and bookmaker, a stake within half a cent of the
      exact split, the bet size as its total stake, an index in (0, 1) whose margin meets
      the minimum, and the rounded first-leg profit; with a positive bet the exact profit is
      positive. */
  lemma ReportedOpportunity(e: Event, entry: MarketBest, betSize: real, minMargin: real)
    requires PositiveEntry(entry)
    requires |MarketResult(e, entry, betSize, minMargin)| == 1
    ensures var op := MarketResult(e, entry, betSize, minMargin)[0];
      var odds := Prices(entry.outcomes);
      && op.eventId == e.id && op.sport == e.sportKey && op.homeTeam == e.homeTeam
      && op.awayTeam == e.awayTeam && op.commenceTime == e.commenceTime
      && op.totalStake == betSize
      && |op.outcomes| == |entry.outcomes| >= 2
      && (forall i :: 0 <= i < |op.outcomes| ==>
            && op.outcomes[i].name == entry.outcomes[i].name
            && op.outcomes[i].odds == entry.outcomes[i].best.price
            && op.outcomes[i].bookmaker == entry.outcomes[i].best.bookmaker
            && op.outcomes[i].bookmakerKey == entry.outcomes[i].best.bookmakerKey
            && -0.005 < op.outcomes[i].stake - ExactStake(op.arbitragePercentage, betSize, odds[i]) <= 0.005)
      && 0.0 < op.arbitragePercentage < 1.0
      && op.arbitragePercentage == ArbitrageIndex(odds)
      && minMargin <= op.profitMargin == (1.0 - op.arbitragePercentage) * 100.0
      && op.guaranteedProfit == GuaranteedProfit(odds, betSize)
      && (betSize > 0.0 ==> betSize / op.arbitragePercentage - betSize > 0.0)
  {
    var odds := Prices(entry.outcomes);
    if betSize > 0.0 {
      ExactProfitPositiveIff(odds, betSize);
    }
  }

  /** With the configured minimum of 0.5%, a reported market's index is at most 0.995. */
  lemma DefaultMarginBound(e: Event, entry: MarketBest)
    requires PositiveEntry(entry)
    requires |MarketResult(e, entry, BetSize, MinProfitMargin)| == 1
    ensures MarketResult(e, entry, BetSize, MinProfitMargin)[0].arbitragePercentage <= 0.995
  {
    ReportedOpportunity(e, entry, BetSize, MinProfitMargin);
  }

  /** Every opportunity of the evaluation pass comes from one market entry of the table. */
  lemma {:induction false} EvaluateOrigin(e: Event, t: Table, betSize: real, minMargin: real, k: int)
    returns (i: int)
    requires PositiveTable(t) && 0 <= k < |Evaluate(e, t, betSize, minMargin)|
    ensures 0 <= i < |t| && PositiveEntry(t[i])
    ensures |MarketResult(e, t[i], betSize, minMargin)| == 1
    ensures Evaluate(e, t, betSize, minMargin)[k] == MarketResult(e, t[i], betSize, minMargin)[0]
  {
    var p := t[..|t| - 1];
    assert PositiveEntry(t[|t| - 1]);
    var before := Evaluate(e, p, betSize, minMargin);
    MarketResultIff(e, t[|t| - 1], betSize, minMargin);
    if k < |before| {
      i := EvaluateOrigin(e, p, betSize, minMargin, k);
      assert t[i] == p[i];
    } else {
      i := |t| - 1;
    }
  }

  /** The evaluation pass reports at most one opportunity per market of the table. */
  lemma {:induction false} EvaluateAtMostOnePerMarket(e: Event, t: Table, betSize: real, minMargin: real)
    requires PositiveTable(t)
    ensures |Evaluate(e, t, betSize, minMargin)| <= |t|
  {
    if t != [] {
      assert PositiveEntry(t[|t| - 1]);
      EvaluateAtMostOnePerMarket(e, t[..|t| - 1], betSize, minMargin);
      MarketResultIff(e, t[|t| - 1], betSize, minMargin);
    }
  }

  /** End to end: each leg of each opportunity of an event names an outcome at the highest
      price any bookmaker quoted for it in some market, with the first bookmaker to quote
      that price. */
  lemma OpportunityLegsAreBest(e: Event, betSize: real, minMargin: real, k: int, l: int)
    requires PositivePrices(e)
    requires 0 <= k < |EventOpportunities(e, betSize, minMargin)|
    requires 0 <= l < |EventOpportunities(e, betSize, minMargin)[k].outcomes|
    ensures var leg := EventOpportunities(e, betSize, minMargin)[k].outcomes[l];
      exists m, w :: BestAt(EventSteps(e.bookmakers), m, leg.name, Best(leg.odds, leg.bookmaker, leg.bookmakerKey), w)
  {
    AggregateShape(e);
    var t := Aggregate(e.bookmakers);
    var i := EvaluateOrigin(e, t, betSize, minMargin, k);
    ReportedOpportunity(e, t[i], betSize, minMargin);
    AggregateEntryIsBest(e.bookmakers, i, l);
    var leg := EventOpportunities(e, betSize, minMargin)[k].outcomes[l];
    assert Best(leg.odds, leg.bookmaker, leg.bookmakerKey) == t[i].outcomes[l].best;
  }

  /** An event with no bookmakers yields nothing. */
  lemma NoBookmakersNoOpportunities(e: Event, betSize: real, minMargin: real)
    requires PositivePrices(e) && e.bookmakers == []
    ensures EventOpportunities(e, betSize, minMargin) == []
  {
  }

  /** Every opportunity found belongs to one of the fetched events. */
  lemma {:induction false} AllOpportunitiesOrigin(events: seq<Event>, betSize: real, minMargin: real, k: int)
    returns (j: int)
    requires forall e :: e in events ==> PositivePrices(e)
    requires 0 <= k < |AllOpportunities(events, betSize, minMargin)|
    ensures 0 <= j < |events|
    ensures AllOpportunities(events, betSize, minMargin)[k] in EventOpportunities(events[j], betSize, minMargin)
  {
    assert events != [];
    var p := events[..|events| - 1];
    var last := events[|events| - 1];
    assert forall e :: e in p ==> e in events;
    var before := AllOpportunities(p, betSize, minMargin);
    var here := EventOpportunities(last, betSize, minMargin);
    assert AllOpportunities(events, betSize, minMargin) == before + here;
    if k < |before| {
      j := AllOpportunitiesOrigin(p, betSize, minMargin, k);
      assert events[j] == p[j];
    } else {
      j := |events| - 1;
      assert (before + here)[k] == here[k - |before|];
    }
  }

  /** Each event's opportunities carry that event's id. */
  lemma {:induction false} EventOpportunitiesCarryId(e: Event, betSize: real, minMargin: real, k: int)
    requires PositivePrices(e) && 0 <= k < |EventOpportunities(e, betSize, minMargin)|
    ensures EventOpportunities(e, betSize, minMargin)[k].eventId == e.id
  {
    AggregateShape(e);
    var t := Aggregate(e.bookmakers);
    var i := EvaluateOrigin(e, t, betSize, minMargin, k);
    ReportedOpportunity(e, t[i], betSize, minMargin);
  }
}
