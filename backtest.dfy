/** Historical backtesting: the arbitrage finder is run on the odds snapshot of each
    instant from a start to an end, a fixed number of hours apart, and the per-date results
    are folded into a summary. Instants are whole hours since an arbitrary epoch (the ISO
    date parsing and formatting are not modelled), and the decoded snapshot of each instant
    is a parameter `fetch`. */
module Backtest {
  import opened Numeric
  import opened Odds
  import opened Seqs
  import opened ArbitrageFinder

  /** What processing one instant reaches: an exception raised while fetching or analysing
      its snapshot (caught by the loop), or the decoded fetch result, `None` when the
      request failed. */
  datatype DayFetch = Raised | Fetched(events: Option<seq<Event>>)

  /** The snapshot of an instant can be analysed: every fetched price is positive. */
  ghost predicate Analysable(f: DayFetch)
  {
    f.Fetched? && f.events.Some? ==> forall e :: e in f.events.value ==> PositivePrices(e)
  }

  // ---------------------------------------------------------------------------
  // One date.

  /** `find_historical_opportunities` given the decoded fetch: a failed or empty fetch
      gives nothing, otherwise the events' opportunities concatenated in event order, at the
      configured minimum margin. */
  ghost function HistoricalOpportunities(events: Option<seq<Event>>, betSize: real): (ops: seq<Opportunity>)
    requires events.Some? ==> forall e :: e in events.value ==> PositivePrices(e)
    ensures events.None? || events.value == [] ==> ops == []
  {
    if events.None? then [] else AllOpportunities(events.value, betSize, MinProfitMargin)
  }

  method FindHistoricalOpportunities(events: Option<seq<Event>>, betSize: real) returns (ops: seq<Opportunity>)
    requires events.Some? ==> forall e :: e in events.value ==> PositivePrices(e)
    ensures ops == HistoricalOpportunities(events, betSize)
  {
    if events.None? || events.value == [] {
      return [];
    }
    var es := events.value;
    ops := [];
    var i := 0;
    while i < |es|
      invariant 0 <= i <= |es|
      invariant ops == AllOpportunities(es[..i], betSize, MinProfitMargin)
    {
      var found := AnalyzeEvent(es[i], betSize, MinProfitMargin);
      assert es[..i + 1][..i] == es[..i];
      ops := ops + found;
      i := i + 1;
    }
    assert es[..i] == es;
  }

  /** Every opportunity of a date belongs to one of that date's fetched events. */
  lemma HistoricalOrigin(events: Option<seq<Event>>, betSize: real, k: int) returns (j: int)
    requires events.Some? ==> forall e :: e in events.value ==> PositivePrices(e)
    requires 0 <= k < |HistoricalOpportunities(events, betSize)|
    ensures events.Some? && 0 <= j < |events.value|
    ensures HistoricalOpportunities(events, betSize)[k].eventId == events.value[j].id
  {
    j := AllOpportunitiesOrigin(events.value, betSize, MinProfitMargin, k);
    var ops := EventOpportunities(events.value[j], betSize, MinProfitMargin);
    var o := HistoricalOpportunities(events, betSize)[k];
    var m :| 0 <= m < |ops| && ops[m] == o;
    EventOpportunitiesCarryId(events.value[j], betSize, MinProfitMargin, m);
  }

  /** The opportunities of a processed date, or `None` when processing it raised. */
  ghost function DayOutcome(f: DayFetch, betSize: real): (r: Option<seq<Opportunity>>)
    requires Analysable(f)
    ensures f.Raised? <==> r.None?
  {
    if f.Raised? then None else Some(HistoricalOpportunities(f.events, betSize))
  }

  // ---------------------------------------------------------------------------
  // The instants visited.

  /** `start`, `start + interval`, … while at most `end`. */
  function Instants(start: int, end: int, interval: int): (ts: seq<int>)
    requires interval > 0
    decreases end - start
  {
    if start > end then [] else [start] + Instants(start + interval, end, interval)
  }

  /** The instants run from `start` upwards in steps of `interval`, all at most `end`, and
      the first one past the list would be past `end`. */
  lemma {:induction false} InstantsChronological(start: int, end: int, interval: int)
    requires interval > 0
    ensures var ts := Instants(start, end, interval);
      && (start <= end <==> ts != [])
      && (forall i :: 0 <= i < |ts| ==> ts[i] == start + i * interval && ts[i] <= end)
      && start + |ts| * interval > end
    decreases end - start
  {
    var ts := Instants(start, end, interval);
    if start <= end {
      var rest := Instants(start + interval, end, interval);
      InstantsChronological(start + interval, end, interval);
      assert ts == [start] + rest;
      forall i | 0 <= i < |ts|
        ensures ts[i] == start + i * interval && ts[i] <= end
      {
        if i > 0 {
          assert ts[i] == rest[i - 1];
          assert ts[i] == start + interval + (i - 1) * interval;
        }
      }
      assert start + |ts| * interval == start + interval + |rest| * interval;
    }
  }

  // ---------------------------------------------------------------------------
  // The summary.

  /** One entry of `daily_results`. */
  datatype DailyResult = DailyResult(date: int, count: nat, profit: real, opportunities: seq<Opportunity>)

  /** The `results` dict. */
  datatype Results = Results(
    totalOpportunities: nat,
    totalProfit: real,
    datesChecked: nat,
    datesWithOpportunities: nat,
    best: Option<Opportunity>,
    dailyResults: seq<DailyResult>)

  const Initial: Results := Results(0, 0.0, 0, 0, None, [])

  /** `sum(opp.guaranteed_profit for opp in opportunities)`. */
  function Profits(ops: seq<Opportunity>): real
  {
    if ops == [] then 0.0 else Profits(ops[..|ops| - 1]) + ops[|ops| - 1].guaranteedProfit
  }

  function Margin(o: Opportunity): real
  {
    o.profitMargin
  }

  /** The best record after a date with opportunities `ops`: the date's first
      maximum-margin opportunity replaces the record when there is none yet or its margin is
      strictly larger. */
  function Better(best: Option<Opportunity>, ops: seq<Opportunity>): (b: Option<Opportunity>)
    ensures ops == [] ==> b == best
    ensures b == best || (ops != [] && b == Some(ops[FirstMax(ops, Margin)]))
  {
    if ops == [] then best
    else
      var daily := ops[FirstMax(ops, Margin)];
      if best.None? || daily.profitMargin > best.value.profitMargin then Some(daily) else best
  }

  /** The counters after one processed date. */
  function Record(r: Results, date: int, ops: seq<Opportunity>): Results
  {
    Results(r.totalOpportunities + |ops|, r.totalProfit + Profits(ops), r.datesChecked + 1,
            r.datesWithOpportunities + (if ops != [] then 1 else 0), Better(r.best, ops),
            r.dailyResults + [DailyResult(date, |ops|, Profits(ops), ops)])
  }

  /** The summary after visiting `ts`: a date that raised leaves every counter as it was. */
  ghost function Summary(fetch: int -> DayFetch, betSize: real, ts: seq<int>): Results
    requires forall t :: t in ts ==> Analysable(fetch(t))
  {
    if ts == [] then Initial
    else
      var t := ts[|ts| - 1];
      Visit(Summary(fetch, betSize, ts[..|ts| - 1]), fetch(t), betSize, t)
  }

  /** The counters after visiting instant `t` whose processing reached `f`. */
  ghost function Visit(r: Results, f: DayFetch, betSize: real, t: int): Results
    requires Analysable(f)
  {
    match DayOutcome(f, betSize)
    case None => r
    case Some(ops) => Record(r, t, ops)
  }

  /** `backtest_date_range`, as a specification. */
  ghost function BacktestSpec(fetch: int -> DayFetch, betSize: real, start: int, end: int, interval: int): Results
    requires interval > 0
    requires forall t :: start <= t <= end ==> Analysable(fetch(t))
  {
    InstantsChronological(start, end, interval);
    Summary(fetch, betSize, Instants(start, end, interval))
  }

  // ---------------------------------------------------------------------------
  // The source's loop.

  method DailyProfit(ops: seq<Opportunity>) returns (p: real)
    ensures p == Profits(ops)
  {
    p := 0.0;
    var i := 0;
    while i < |ops|
      invariant 0 <= i <= |ops|
      invariant p == Profits(ops[..i])
    {
      assert ops[..i + 1][..i] == ops[..i];
      p := p + ops[i].guaranteedProfit;
      i := i + 1;
    }
    assert ops[..i] == ops;
  }

  method BacktestDateRange(fetch: int -> DayFetch, betSize: real, start: int, end: int, interval: int)
    returns (results: Results)
    requires interval > 0
    requires forall t :: start <= t <= end ==> Analysable(fetch(t))
    ensures results == BacktestSpec(fetch, betSize, start, end, interval)
  {
    InstantsChronological(start, end, interval);
    results := Initial;
    var current := start;
    ghost var visited: seq<int> := [];
    while current <= end
      invariant Instants(start, end, interval) == visited + Instants(current, end, interval)
      invariant forall t :: t in visited ==> start <= t <= end
      invariant start <= current
      invariant results == Summary(fetch, betSize, visited)
      decreases end - current
    {
      assert Instants(current, end, interval) == [current] + Instants(current + interval, end, interval);
      assert (visited + [current])[..|visited|] == visited;
      results := VisitInstant(fetch(current), betSize, results, current);
      visited := visited + [current];
      current := current + interval;
    }
    assert visited == Instants(start, end, interval);
  }

  /** The body of the loop over instants: a date whose processing raised leaves the
      counters unchanged, any other one is recorded with its opportunities. */
  method VisitInstant(f: DayFetch, betSize: real, results: Results, current: int) returns (r: Results)
    requires Analysable(f)
    ensures r == Visit(results, f, betSize, current)
  {
    r := results;
    if f.Fetched? {
      var ops := FindHistoricalOpportunities(f.events, betSize);
      var dailyProfit := DailyProfit(ops);
      var best := results.best;
      if ops != [] {
        var bestDaily := ops[FirstMax(ops, Margin)];
        if best.None? || bestDaily.profitMargin > best.value.profitMargin {
          best := Some(bestDaily);
        }
      }
      r := Results(results.totalOpportunities + |ops|, results.totalProfit + dailyProfit,
                   results.datesChecked + 1,
                   results.datesWithOpportunities + (if ops != [] then 1 else 0), best,
                   results.dailyResults + [DailyResult(current, |ops|, dailyProfit, ops)]);
    }
  }

  // ---------------------------------------------------------------------------
  // What the summary means.

  function CountSum(daily: seq<DailyResult>): int
  {
    if daily == [] then 0 else CountSum(daily[..|daily| - 1]) + daily[|daily| - 1].count
  }

  function ProfitSum(daily: seq<DailyResult>): real
  {
    if daily == [] then 0.0 else ProfitSum(daily[..|daily| - 1]) + daily[|daily| - 1].profit
  }

  function NonEmptyDays(daily: seq<DailyResult>): int
  {
    if daily == [] then 0
    else NonEmptyDays(daily[..|daily| - 1]) + (if daily[|daily| - 1].count > 0 then 1 else 0)
  }

  /** The instants of `ts` whose processing did not raise, in order. */
  function Processed(fetch: int -> DayFetch, ts: seq<int>): (ps: seq<int>)
    ensures |ps| <= |ts|
    ensures forall t :: t in ps ==> t in ts && !fetch(t).Raised?
  {
    if ts == [] then []
    else
      var t := ts[|ts| - 1];
      Processed(fetch, ts[..|ts| - 1]) + (if fetch(t).Raised? then [] else [t])
  }

  /** The counters agree with the daily entries: one entry per date checked, each holding
      the number and the total guaranteed profit of its opportunities; the totals are the
      sums over the entries and the dates with opportunities are the entries with a positive
      count, so there are never more of them than dates checked. */
  ghost predicate Tallied(r: Results)
  {
    && r.datesChecked == |r.dailyResults|
    && (forall i :: 0 <= i < |r.dailyResults| ==>
          r.dailyResults[i].count == |r.dailyResults[i].opportunities|
          && r.dailyResults[i].profit == Profits(r.dailyResults[i].opportunities))
    && r.totalOpportunities == CountSum(r.dailyResults)
    && r.totalProfit == ProfitSum(r.dailyResults)
    && r.datesWithOpportunities == NonEmptyDays(r.dailyResults)
    && r.datesWithOpportunities <= r.datesChecked
  }

  lemma RecordTallied(r: Results, date: int, ops: seq<Opportunity>)
    requires Tallied(r)
    ensures Tallied(Record(r, date, ops))
  {
    var r' := Record(r, date, ops);
    assert r'.dailyResults[..|r'.dailyResults| - 1] == r.dailyResults;
  }

  /** Every summary is tallied. */
  lemma {:induction false} SummaryTallied(fetch: int -> DayFetch, betSize: real, ts: seq<int>)
    requires forall t :: t in ts ==> Analysable(fetch(t))
    ensures Tallied(Summary(fetch, betSize, ts))
  {
    if ts != [] {
      var p := ts[..|ts| - 1];
      var t := ts[|ts| - 1];
      assert forall u :: u in p ==> u in ts;
      SummaryTallied(fetch, betSize, p);
      if !fetch(t).Raised? {
        RecordTallied(Summary(fetch, betSize, p), t, HistoricalOpportunities(fetch(t).events, betSize));
      }
    }
  }

  /** The daily entries are the dates that did not raise, in visiting order, each with the
      opportunities found on its snapshot. */
  lemma {:induction false} SummaryDates(fetch: int -> DayFetch, betSize: real, ts: seq<int>)
    requires forall t :: t in ts ==> Analysable(fetch(t))
    ensures var r := Summary(fetch, betSize, ts);
      && |r.dailyResults| == |Processed(fetch, ts)|
      && (forall i :: 0 <= i < |r.dailyResults| ==>
            r.dailyResults[i].date == Processed(fetch, ts)[i]
            && r.dailyResults[i].opportunities
               == HistoricalOpportunities(fetch(r.dailyResults[i].date).events, betSize))
  {
    if ts != [] {
      var p := ts[..|ts| - 1];
      var t := ts[|ts| - 1];
      assert forall u :: u in p ==> u in ts;
      SummaryDates(fetch, betSize, p);
      if !fetch(t).Raised? {
        assert Processed(fetch, ts) == Processed(fetch, p) + [t];
      }
    }
  }

  /** A range in which every date raised leaves the summary as initialised. */
  lemma {:induction false} AllRaisedNothingCounted(fetch: int -> DayFetch, betSize: real, ts: seq<int>)
    requires forall t :: t in ts ==> Analysable(fetch(t)) && fetch(t).Raised?
    ensures Summary(fetch, betSize, ts) == Initial
  {
    if ts != [] {
      var p := ts[..|ts| - 1];
      assert forall u :: u in p ==> u in ts;
      AllRaisedNothingCounted(fetch, betSize, p);
    }
  }

  /** The best opportunity sits at entry `i`, position `k` of the daily results, has the
      largest margin of all of them, and every opportunity before it has a strictly smaller
      margin. */
  ghost predicate BestAt(daily: seq<DailyResult>, b: Opportunity, i: int, k: int)
  {
    && 0 <= i < |daily| && 0 <= k < |daily[i].opportunities|
    && daily[i].opportunities[k] == b
    && (forall j, l :: 0 <= j < |daily| && 0 <= l < |daily[j].opportunities| ==>
          daily[j].opportunities[l].profitMargin <= b.profitMargin)
    && (forall j, l :: 0 <= j < i && 0 <= l < |daily[j].opportunities| ==>
          daily[j].opportunities[l].profitMargin < b.profitMargin)
    && (forall l :: 0 <= l < k ==> daily[i].opportunities[l].profitMargin < b.profitMargin)
  }

  /** What the best record means for the daily entries so far. */
  ghost predicate BestRecord(daily: seq<DailyResult>, best: Option<Opportunity>, i: int, k: int)
  {
    && (best.None? <==> forall j :: 0 <= j < |daily| ==> daily[j].opportunities == [])
    && (best.Some? ==> BestAt(daily, best.value, i, k))
  }

  lemma RecordBest(r: Results, date: int, ops: seq<Opportunity>, i: int, k: int) returns (i': int, k': int)
    requires BestRecord(r.dailyResults, r.best, i, k)
    ensures var r' := Record(r, date, ops); BestRecord(r'.dailyResults, r'.best, i', k')
  {
    var r' := Record(r, date, ops);
    var n := |r.dailyResults|;
    assert forall j :: 0 <= j < n ==> r'.dailyResults[j] == r.dailyResults[j];
    assert r'.dailyResults[n].opportunities == ops;
    i', k' := i, k;
    if ops != [] {
      var m := FirstMax(ops, Margin);
      if r.best.None? || ops[m].profitMargin > r.best.value.profitMargin {
        i', k' := n, m;
      }
    }
  }

  /** `best_opportunity` is `None` exactly when no date had an opportunity; otherwise it is
      the first opportunity, in visiting order, with the largest profit margin. */
  lemma {:induction false} BestIsFirstMaximum(fetch: int -> DayFetch, betSize: real, ts: seq<int>)
    returns (i: int, k: int)
    requires forall t :: t in ts ==> Analysable(fetch(t))
    ensures var r := Summary(fetch, betSize, ts); BestRecord(r.dailyResults, r.best, i, k)
  {
    i, k := 0, 0;
    if ts != [] {
      var p := ts[..|ts| - 1];
      var t := ts[|ts| - 1];
      assert forall u :: u in p ==> u in ts;
      i, k := BestIsFirstMaximum(fetch, betSize, p);
      if !fetch(t).Raised? {
        i, k := RecordBest(Summary(fetch, betSize, p), t, HistoricalOpportunities(fetch(t).events, betSize), i, k);
      }
    }
  }
}
