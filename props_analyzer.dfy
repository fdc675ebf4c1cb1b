/** `DFSPlayerPropsAnalyzer`: player props read out of the odds feed, per-player DFS value
    (simulated salary, projected points, value per thousand of salary, confidence and
    recommended exposure) and two-sided over/under arbitrage between bookmakers.
    Python's `hash()` of a player name is per-process randomised; it is a parameter. */
module PropsAnalyzer {
  import opened Numeric
  import opened Seqs
  import opened Text
  import opened Odds
  import opened Grouping
  import opened Sorting

  datatype PlayerProp = PlayerProp(
    playerName: string,
    team: string,
    opponent: string,
    sport: string,
    market: string,
    line: real,
    overOdds: real,
    underOdds: real,
    bookmaker: string,
    gameTime: string)

  // ---------------------------------------------------------------------------
  // Reading props out of the feed.

  /** `_extract_player_name`: the first two whitespace-separated words joined by one space,
      or the whole string when it has fewer than two words. */
  function ExtractPlayerName(s: string): (r: string)
    ensures |Tokens(s)| < 2 ==> r == s
    ensures |Tokens(s)| >= 2 ==> Tokens(r) == Tokens(s)[..2]
  {
    var ts := Tokens(s);
    if |ts| < 2 then s
    else
      FirstTwoTokens(ts);
      ts[0] + " " + ts[1]
  }

  /** Joining the first two tokens with a space splits back into those two tokens. */
  lemma FirstTwoTokens(ts: seq<string>)
    requires |ts| >= 2 && ts[0] != [] && ts[1] != [] && NoSpace(ts[0]) && NoSpace(ts[1])
    ensures Tokens(ts[0] + " " + ts[1]) == ts[..2]
  {
    TokensOfPair(ts[0], ts[1]);
    TakeTwo(ts);
  }

  /** Extracting twice changes nothing. */
  lemma ExtractIdempotent(s: string)
    ensures ExtractPlayerName(ExtractPlayerName(s)) == ExtractPlayerName(s)
  {
    var ts := Tokens(s);
    if |ts| >= 2 {
      var r := ExtractPlayerName(s);
      assert Tokens(r) == [ts[0], ts[1]];
    }
  }

  /** Python's `x or 2.0` on a price: a zero price counts as missing. */
  function OrTwo(x: real): (r: real)
    ensures r != 0.0
    ensures x != 0.0 ==> r == x
  {
    if x == 0.0 then 2.0 else x
  }

  /** The prop built from one outcome of a `player_` market, or `None` when the outcome's
      lower-cased name does not contain "point". An outcome whose lower-cased name starts
      with "over" prices the over side; any other prices the under side; the side without a
      price gets 2.0. The team is the home team whenever the extracted name is non-empty. */
  function PropOf(e: Event, b: Bookmaker, marketKey: string, o: Outcome, sport: string): (r: Option<PlayerProp>)
    ensures r.Some? <==> Contains(LowerStr(o.name), "point")
    ensures r.Some? ==> && r.value.playerName == ExtractPlayerName(o.name)
                        && r.value.market == marketKey && r.value.sport == sport
                        && r.value.bookmaker == b.title && r.value.gameTime == e.commenceTime
                        && {r.value.team, r.value.opponent} == {e.homeTeam, e.awayTeam}
    ensures r.Some? && StartsWith(LowerStr(o.name), "over") ==> r.value.overOdds == OrTwo(o.price) && r.value.underOdds == 2.0
    ensures r.Some? && !StartsWith(LowerStr(o.name), "over") ==> r.value.underOdds == OrTwo(o.price) && r.value.overOdds == 2.0
  {
    var lowered := LowerStr(o.name);
    if !Contains(lowered, "point") then None
    else
      var name := ExtractPlayerName(o.name);
      var team := if |name| > 0 then e.homeTeam else e.awayTeam;
      var opponent := if team == e.homeTeam then e.awayTeam else e.homeTeam;
      var line := if o.point.Some? then o.point.value else 0.0;
      var isOver := StartsWith(lowered, "over");
      Some(PlayerProp(name, team, opponent, sport, marketKey, line,
                      if isOver then OrTwo(o.price) else 2.0,
                      if isOver then 2.0 else OrTwo(o.price),
                      b.title, e.commenceTime))
  }

  function OutcomeProps(e: Event, b: Bookmaker, marketKey: string, os: seq<Outcome>, sport: string): seq<PlayerProp>
  {
    if os == [] then []
    else
      var p := PropOf(e, b, marketKey, os[|os| - 1], sport);
      OutcomeProps(e, b, marketKey, os[..|os| - 1], sport) + (if p.Some? then [p.value] else [])
  }

  /** Markets whose key does not start with `player_` are skipped. */
  function MarketProps(e: Event, b: Bookmaker, ms: seq<Market>, sport: string): seq<PlayerProp>
  {
    if ms == [] then []
    else
      var m := ms[|ms| - 1];
      MarketProps(e, b, ms[..|ms| - 1], sport)
        + (if StartsWith(m.key, "player_") then OutcomeProps(e, b, m.key, m.outcomes, sport) else [])
  }

  function BookmakerProps(e: Event, bs: seq<Bookmaker>, sport: string): seq<PlayerProp>
  {
    if bs == [] then []
    else BookmakerProps(e, bs[..|bs| - 1], sport) + MarketProps(e, bs[|bs| - 1], bs[|bs| - 1].markets, sport)
  }

  /** Events without bookmakers are skipped. */
  function EventProps(events: seq<Event>, sport: string): seq<PlayerProp>
  {
    if events == [] then []
    else
      var e := events[|events| - 1];
      EventProps(events[..|events| - 1], sport)
        + (if e.bookmakers == [] then [] else BookmakerProps(e, e.bookmakers, sport))
  }

  /** `get_player_props` given the fetch result; a failed fetch gives no props. */
  function AllProps(events: Option<seq<Event>>, sport: string): seq<PlayerProp>
  {
    if events.None? then [] else EventProps(events.value, sport)
  }

  method GetPlayerProps(events: Option<seq<Event>>, sport: string) returns (props: seq<PlayerProp>)
    ensures props == AllProps(events, sport)
  {
    if events.None? || events.value == [] {
      return [];
    }
    var es := events.value;
    props := [];
    var i := 0;
    while i < |es|
      invariant 0 <= i <= |es|
      invariant props == EventProps(es[..i], sport)
    {
      assert es[..i + 1][..i] == es[..i];
      var e := es[i];
      if e.bookmakers != [] {
        var found := PropsOfEvent(e, sport);
        props := props + found;
      } else {
        assert props + [] == props;
      }
      i := i + 1;
    }
    assert es[..i] == es;
  }

  method PropsOfEvent(e: Event, sport: string) returns (props: seq<PlayerProp>)
    ensures props == BookmakerProps(e, e.bookmakers, sport)
  {
    props := [];
    var j := 0;
    while j < |e.bookmakers|
      invariant 0 <= j <= |e.bookmakers|
      invariant props == BookmakerProps(e, e.bookmakers[..j], sport)
    {
      assert e.bookmakers[..j + 1][..j] == e.bookmakers[..j];
      var b := e.bookmakers[j];
      var k := 0;
      var fromBookmaker: seq<PlayerProp> := [];
      while k < |b.markets|
        invariant 0 <= k <= |b.markets|
        invariant fromBookmaker == MarketProps(e, b, b.markets[..k], sport)
      {
        assert b.markets[..k + 1][..k] == b.markets[..k];
        var m := b.markets[k];
        if StartsWith(m.key, "player_") {
          var found := PropsOfMarket(e, b, m, sport);
          fromBookmaker := fromBookmaker + found;
        } else {
          assert fromBookmaker + [] == fromBookmaker;
        }
        k := k + 1;
      }
      assert b.markets[..k] == b.markets;
      props := props + fromBookmaker;
      j := j + 1;
    }
    assert e.bookmakers[..j] == e.bookmakers;
  }

  method PropsOfMarket(e: Event, b: Bookmaker, m: Market, sport: string) returns (props: seq<PlayerProp>)
    ensures props == OutcomeProps(e, b, m.key, m.outcomes, sport)
  {
    props := [];
    var k := 0;
    while k < |m.outcomes|
      invariant 0 <= k <= |m.outcomes|
      invariant props == OutcomeProps(e, b, m.key, m.outcomes[..k], sport)
    {
      assert m.outcomes[..k + 1][..k] == m.outcomes[..k];
      var p := PropOf(e, b, m.key, m.outcomes[k], sport);
      if p.Some? {
        props := props + [p.value];
      } else {
        assert props + [] == props;
      }
      k := k + 1;
    }
    assert m.outcomes[..k] == m.outcomes;
  }

  /** What every prop read from the feed looks like. */
  ghost predicate WellFormedProp(p: PlayerProp)
  {
    && StartsWith(p.market, "player_")
    && p.overOdds != 0.0 && p.underOdds != 0.0
    && (p.overOdds == 2.0 || p.underOdds == 2.0)
  }

  ghost predicate AllWellFormed(ps: seq<PlayerProp>)
  {
    forall i :: 0 <= i < |ps| ==> WellFormedProp(ps[i])
  }

  lemma AllWellFormedAppend(a: seq<PlayerProp>, b: seq<PlayerProp>)
    requires AllWellFormed(a) && AllWellFormed(b)
    ensures AllWellFormed(a + b)
  {
    assert forall i :: 0 <= i < |a + b| ==> (a + b)[i] == if i < |a| then a[i] else b[i - |a|];
  }

  lemma {:induction false} OutcomePropsWellFormed(e: Event, b: Bookmaker, key: string, os: seq<Outcome>, sport: string)
    requires StartsWith(key, "player_")
    ensures AllWellFormed(OutcomeProps(e, b, key, os, sport))
  {
    if os != [] {
      OutcomePropsWellFormed(e, b, key, os[..|os| - 1], sport);
      var p := PropOf(e, b, key, os[|os| - 1], sport);
      AllWellFormedAppend(OutcomeProps(e, b, key, os[..|os| - 1], sport), if p.Some? then [p.value] else []);
    }
  }

  lemma {:induction false} MarketPropsWellFormed(e: Event, b: Bookmaker, ms: seq<Market>, sport: string)
    ensures AllWellFormed(MarketProps(e, b, ms, sport))
  {
    if ms != [] {
      var m := ms[|ms| - 1];
      MarketPropsWellFormed(e, b, ms[..|ms| - 1], sport);
      if StartsWith(m.key, "player_") {
        OutcomePropsWellFormed(e, b, m.key, m.outcomes, sport);
        AllWellFormedAppend(MarketProps(e, b, ms[..|ms| - 1], sport), OutcomeProps(e, b, m.key, m.outcomes, sport));
      } else {
        assert MarketProps(e, b, ms, sport) == MarketProps(e, b, ms[..|ms| - 1], sport) + [];
      }
    }
  }

  lemma {:induction false} BookmakerPropsWellFormed(e: Event, bs: seq<Bookmaker>, sport: string)
    ensures AllWellFormed(BookmakerProps(e, bs, sport))
  {
    if bs != [] {
      var b := bs[|bs| - 1];
      BookmakerPropsWellFormed(e, bs[..|bs| - 1], sport);
      MarketPropsWellFormed(e, b, b.markets, sport);
      AllWellFormedAppend(BookmakerProps(e, bs[..|bs| - 1], sport), MarketProps(e, b, b.markets, sport));
    }
  }

  lemma {:induction false} EventPropsWellFormed(events: seq<Event>, sport: string)
    ensures AllWellFormed(EventProps(events, sport))
  {
    if events != [] {
      var e := events[|events| - 1];
      EventPropsWellFormed(events[..|events| - 1], sport);
      if e.bookmakers != [] {
        BookmakerPropsWellFormed(e, e.bookmakers, sport);
        AllWellFormedAppend(EventProps(events[..|events| - 1], sport), BookmakerProps(e, e.bookmakers, sport));
      } else {
        assert EventProps(events, sport) == EventProps(events[..|events| - 1], sport) + [];
      }
    }
  }

  /** Every prop comes from a `player_` market, neither of its prices is zero, and at most
      one side carries a quoted price: the other is the 2.0 default. */
  lemma PropsWellFormed(events: Option<seq<Event>>, sport: string)
    ensures AllWellFormed(AllProps(events, sport))
  {
    if events.Some? {
      EventPropsWellFormed(events.value, sport);
    }
  }

  /** `p` is built from one outcome of `os` whose lower-cased name contains "point". */
  ghost predicate FromOutcomes(p: PlayerProp, e: Event, b: Bookmaker, key: string, os: seq<Outcome>, sport: string)
  {
    exists o :: o in os && Contains(LowerStr(o.name), "point") && PropOf(e, b, key, o, sport) == Some(p)
  }

  /** `p` is built from an outcome of one `player_` market of `ms`. */
  ghost predicate FromMarkets(p: PlayerProp, e: Event, b: Bookmaker, ms: seq<Market>, sport: string)
  {
    exists m :: m in ms && StartsWith(m.key, "player_") && FromOutcomes(p, e, b, m.key, m.outcomes, sport)
  }

  /** `p` is built from a market of one bookmaker of `bs`. */
  ghost predicate FromBookmakers(p: PlayerProp, e: Event, bs: seq<Bookmaker>, sport: string)
  {
    exists b :: b in bs && FromMarkets(p, e, b, b.markets, sport)
  }

  /** `p` is built from a bookmaker of one event of `events` that has bookmakers. */
  ghost predicate FromEvents(p: PlayerProp, events: seq<Event>, sport: string)
  {
    exists e :: e in events && e.bookmakers != [] && FromBookmakers(p, e, e.bookmakers, sport)
  }

  lemma {:induction false} OutcomePropsFrom(e: Event, b: Bookmaker, key: string, os: seq<Outcome>, sport: string)
    ensures forall p :: p in OutcomeProps(e, b, key, os, sport) ==> FromOutcomes(p, e, b, key, os, sport)
  {
    if os != [] {
      var n := |os| - 1;
      OutcomePropsFrom(e, b, key, os[..n], sport);
      forall p | p in OutcomeProps(e, b, key, os, sport) ensures FromOutcomes(p, e, b, key, os, sport) {
        if p in OutcomeProps(e, b, key, os[..n], sport) {
          var o :| o in os[..n] && Contains(LowerStr(o.name), "point") && PropOf(e, b, key, o, sport) == Some(p);
          assert o in os;
        } else {
          assert PropOf(e, b, key, os[n], sport) == Some(p);
          assert os[n] in os;
        }
      }
    }
  }

  lemma {:induction false} MarketPropsFrom(e: Event, b: Bookmaker, ms: seq<Market>, sport: string)
    ensures forall p :: p in MarketProps(e, b, ms, sport) ==> FromMarkets(p, e, b, ms, sport)
  {
    if ms != [] {
      var n := |ms| - 1;
      var m := ms[n];
      MarketPropsFrom(e, b, ms[..n], sport);
      OutcomePropsFrom(e, b, m.key, m.outcomes, sport);
      forall p | p in MarketProps(e, b, ms, sport) ensures FromMarkets(p, e, b, ms, sport) {
        if p in MarketProps(e, b, ms[..n], sport) {
          var m' :| m' in ms[..n] && StartsWith(m'.key, "player_") && FromOutcomes(p, e, b, m'.key, m'.outcomes, sport);
          assert m' in ms;
        } else {
          assert m in ms;
        }
      }
    }
  }

  lemma {:induction false} BookmakerPropsFrom(e: Event, bs: seq<Bookmaker>, sport: string)
    ensures forall p :: p in BookmakerProps(e, bs, sport) ==> FromBookmakers(p, e, bs, sport)
  {
    if bs != [] {
      var n := |bs| - 1;
      var b := bs[n];
      BookmakerPropsFrom(e, bs[..n], sport);
      MarketPropsFrom(e, b, b.markets, sport);
      forall p | p in BookmakerProps(e, bs, sport) ensures FromBookmakers(p, e, bs, sport) {
        if p in BookmakerProps(e, bs[..n], sport) {
          var b' :| b' in bs[..n] && FromMarkets(p, e, b', b'.markets, sport);
          assert b' in bs;
        } else {
          assert b in bs;
        }
      }
    }
  }

  lemma {:induction false} EventPropsFrom(events: seq<Event>, sport: string)
    ensures forall p :: p in EventProps(events, sport) ==> FromEvents(p, events, sport)
  {
    if events != [] {
      var n := |events| - 1;
      var e := events[n];
      EventPropsFrom(events[..n], sport);
      BookmakerPropsFrom(e, e.bookmakers, sport);
      forall p | p in EventProps(events, sport) ensures FromEvents(p, events, sport) {
        if p in EventProps(events[..n], sport) {
          var e' :| e' in events[..n] && e'.bookmakers != [] && FromBookmakers(p, e', e'.bookmakers, sport);
          assert e' in events;
        } else {
          assert e in events;
        }
      }
    }
  }

  /** Every prop read from the feed is the prop of one outcome whose lower-cased name
      contains "point", in a `player_` market of a bookmaker of a fetched event. */
  lemma PropsFromFeed(events: Option<seq<Event>>, sport: string)
    ensures forall p :: p in AllProps(events, sport) ==> events.Some? && FromEvents(p, events.value, sport)
  {
    if events.Some? {
      EventPropsFrom(events.value, sport);
    }
  }

  // ---------------------------------------------------------------------------
  // Projected points.

  /** The `basketball_nba` scoring table. */
  const NbaScoring: map<string, real> := map[
    "points" := 1.0, "rebounds" := 1.2, "assists" := 1.5, "steals" := 3.0,
    "blocks" := 3.0, "turnovers" := -1.0, "three_pointers" := 0.5]

  /** The `americanfootball_nfl` scoring table. */
  const NflScoring: map<string, real> := map[
    "passing_yards" := 0.04, "passing_tds" := 4.0, "rushing_yards" := 0.1, "rushing_tds" := 6.0,
    "receiving_yards" := 0.1, "receiving_tds" := 6.0, "receptions" := 1.0,
    "interceptions" := -1.0, "fumbles" := -1.0]

  /** `self.dfs_scoring.get(sport, {})`. */
  function ScoringFor(sport: string): map<string, real>
  {
    if sport == "basketball_nba" then NbaScoring
    else if sport == "americanfootball_nfl" then NflScoring
    else map[]
  }

  /** `scoring.get(k, d)`. */
  function Get(scoring: map<string, real>, k: string, d: real): real
  {
    if k in scoring then scoring[k] else d
  }

  /** The multiplier for a prop market, or `None` for a market that does not count. */
  function Weight(market: string, scoring: map<string, real>): Option<real>
  {
    if market == "player_points" then Some(Get(scoring, "points", 1.0))
    else if market == "player_rebounds" then Some(Get(scoring, "rebounds", 1.2))
    else if market == "player_assists" then Some(Get(scoring, "assists", 1.5))
    else if market == "player_threes" then Some(Get(scoring, "three_pointers", 0.5))
    else None
  }

  function Contribution(p: PlayerProp, scoring: map<string, real>): real
  {
    var w := Weight(p.market, scoring);
    if w.Some? then p.line * w.value else 0.0
  }

  function Projected(props: seq<PlayerProp>, scoring: map<string, real>): real
  {
    if props == [] then 0.0
    else Projected(props[..|props| - 1], scoring) + Contribution(props[|props| - 1], scoring)
  }

  /** `_calculate_projected_points`: 0.0 for no props, otherwise the weighted sum of lines
      under the scoring table of the first prop's sport. */
  function ProjectedFor(props: seq<PlayerProp>): real
  {
    if props == [] then 0.0 else Projected(props, ScoringFor(props[0].sport))
  }

  method CalculateProjectedPoints(props: seq<PlayerProp>) returns (projected: real)
    ensures projected == ProjectedFor(props)
  {
    if props == [] {
      return 0.0;
    }
    projected := WeightedLines(props, ScoringFor(props[0].sport));
  }

  /** The loop of `_calculate_projected_points` over the props, under a scoring table. */
  method WeightedLines(props: seq<PlayerProp>, scoring: map<string, real>) returns (projected: real)
    ensures projected == Projected(props, scoring)
  {
    projected := 0.0;
    var i := 0;
    while i < |props|
      invariant 0 <= i <= |props|
      invariant projected == Projected(props[..i], scoring)
    {
      ProjectedStep(props, i, scoring);
      var p := props[i];
      var w := Weight(p.market, scoring);
      if w.Some? {
        projected := projected + p.line * w.value;
      }
      i := i + 1;
    }
    assert props[..i] == props;
  }

  /** Each prop adds its contribution to the running projection. */
  lemma ProjectedStep(props: seq<PlayerProp>, i: int, scoring: map<string, real>)
    requires 0 <= i < |props|
    ensures Projected(props[..i + 1], scoring) == Projected(props[..i], scoring) + Contribution(props[i], scoring)
  {
    assert props[..i + 1][..i] == props[..i];
  }

  /** Every scoring table gives the four prop markets the same multipliers as the defaults
      (the NBA table repeats them, the NFL table and the empty table lack them). */
  lemma WeightIndependentOfSport(market: string, sport: string)
    ensures Weight(market, ScoringFor(sport)) == Weight(market, map[])
  {
  }

  /** So the projection does not depend on the sport at all. */
  lemma ProjectedIndependentOfSport(props: seq<PlayerProp>, sport: string)
    ensures Projected(props, ScoringFor(sport)) == Projected(props, map[])
  {
    forall market: string
      ensures Weight(market, ScoringFor(sport)) == Weight(market, map[])
    {
      WeightIndependentOfSport(market, sport);
    }
    ProjectedSameWeights(props, ScoringFor(sport), map[]);
  }

  /** Two scoring tables that weigh every market alike give the same projection. */
  lemma {:induction false} ProjectedSameWeights(props: seq<PlayerProp>, s1: map<string, real>, s2: map<string, real>)
    requires forall market :: Weight(market, s1) == Weight(market, s2)
    ensures Projected(props, s1) == Projected(props, s2)
  {
    if props != [] {
      ProjectedSameWeights(props[..|props| - 1], s1, s2);
      assert Weight(props[|props| - 1].market, s1) == Weight(props[|props| - 1].market, s2);
    }
  }

  /** With non-negative lines the projection is non-negative, whatever the sport. */
  lemma ProjectedNonNegative(props: seq<PlayerProp>, sport: string)
    requires forall i :: 0 <= i < |props| ==> props[i].line >= 0.0
    ensures Projected(props, ScoringFor(sport)) >= 0.0
  {
    ProjectedIndependentOfSport(props, sport);
    DefaultProjectedNonNegative(props);
  }

  /** Under the default multipliers, which are all positive, non-negative lines give a
      non-negative projection. */
  lemma {:induction false} DefaultProjectedNonNegative(props: seq<PlayerProp>)
    requires forall i :: 0 <= i < |props| ==> props[i].line >= 0.0
    ensures Projected(props, map[]) >= 0.0
  {
    if props != [] {
      DefaultProjectedNonNegative(props[..|props| - 1]);
      var p := props[|props| - 1];
      var w := Weight(p.market, map[]);
      if w.Some? {
        assert w.value >= 0.0;
        assert p.line * w.value >= 0.0;
      }
    }
  }

  /** Props of markets other than points, rebounds, assists and threes add nothing. */
  lemma OtherMarketAddsNothing(props: seq<PlayerProp>, p: PlayerProp, scoring: map<string, real>)
    requires p.market !in {"player_points", "player_rebounds", "player_assists", "player_threes"}
    ensures Projected(props + [p], scoring) == Projected(props, scoring)
  {
    assert (props + [p])[..|props|] == props;
  }

  // ---------------------------------------------------------------------------
  // Per-player value.

  /** `_calculate_confidence_score`: 50 for fewer than two props, otherwise
      min(90, 30 + 15·n), which lies in [60, 90]. */
  function ConfidenceScore(n: nat): (r: real)
    ensures n < 2 ==> r == 50.0
    ensures n >= 2 ==> 60.0 <= r <= 90.0
    ensures n >= 4 ==> r == 90.0
  {
    if n < 2 then 50.0
    else if 30 + n * 15 < 90 then (30 + n * 15) as real else 90.0
  }

  /** The base salary by sport. */
  function BaseSalary(sport: string): int
  {
    if sport == "basketball_nba" then 8000 else if sport == "americanfootball_nfl" then 7000 else 6000
  }

  /** `_simulate_player_salary`, given `hash(player_name)`: Python's `%` by a positive
      number is never negative, so the salary lies in [base, base + 2999]. */
  function SimulatedSalary(sport: string, nameHash: int): (salary: int)
    ensures BaseSalary(sport) <= salary <= BaseSalary(sport) + 2999
    ensures salary >= 6000
  {
    BaseSalary(sport) + nameHash % 3000
  }

  function Positions(sport: string): (ps: seq<string>)
    ensures ps != []
  {
    if sport == "basketball_nba" then ["PG", "SG", "SF", "PF", "C"]
    else if sport == "americanfootball_nfl" then ["QB", "RB", "WR", "TE", "K", "DEF"]
    else ["FLEX"]
  }

  /** `_get_player_position`, given `hash(player_name)`: always one of the sport's positions. */
  function Position(sport: string, nameHash: int): (pos: string)
    ensures pos in Positions(sport)
  {
    Positions(sport)[nameHash % |Positions(sport)|]
  }

  /** `min(100, max(0, (value - 2.5) * 20))`. */
  function Exposure(value: real): (x: real)
    ensures 0.0 <= x <= 100.0
    ensures value <= 2.5 ==> x == 0.0
    ensures value >= 7.5 ==> x == 100.0
    ensures 2.5 <= value <= 7.5 ==> x == (value - 2.5) * 20.0
  {
    Clamp((value - 2.5) * 20.0, 0.0, 100.0)
  }

  /** `prop_analysis`: the last prop seen for each market. */
  function PropAnalysis(props: seq<PlayerProp>): map<string, PlayerProp>
  {
    if props == [] then map[]
    else PropAnalysis(props[..|props| - 1])[props[|props| - 1].market := props[|props| - 1]]
  }

  /** Every market of the props has an entry. */
  lemma {:induction false} PropAnalysisHas(props: seq<PlayerProp>, n: int)
    requires 0 <= n < |props|
    ensures props[n].market in PropAnalysis(props)
  {
    if n < |props| - 1 {
      PropAnalysisHas(props[..|props| - 1], n);
    }
  }

  /** Every entry is the market of some prop. */
  lemma {:induction false} PropAnalysisOnlyMarkets(props: seq<PlayerProp>, k: string) returns (n: int)
    requires k in PropAnalysis(props)
    ensures 0 <= n < |props| && props[n].market == k
  {
    if props[|props| - 1].market == k {
      n := |props| - 1;
    } else {
      n := PropAnalysisOnlyMarkets(props[..|props| - 1], k);
    }
  }

  /** A market's entry is the last prop of that market. */
  lemma {:induction false} PropAnalysisLast(props: seq<PlayerProp>, n: int)
    requires 0 <= n < |props|
    requires forall j :: n < j < |props| ==> props[j].market != props[n].market
    ensures props[n].market in PropAnalysis(props)
    ensures PropAnalysis(props)[props[n].market] == props[n]
  {
    if n < |props| - 1 {
      PropAnalysisLast(props[..|props| - 1], n);
    }
  }

  datatype DfsPlayerValue = DfsPlayerValue(
    playerName: string,
    team: string,
    opponent: string,
    sport: string,
    position: string,
    salary: int,
    projectedPoints: real,
    propAnalysis: map<string, PlayerProp>,
    valueScore: real,
    confidenceScore: real,
    recommendedExposure: real)

  /** The grouping key `f"{player_name}_{team}"`. */
  function PlayerKey(p: PlayerProp): string
  {
    p.playerName + "_" + p.team
  }

  function ValueKey(v: DfsPlayerValue): real
  {
    v.valueScore
  }

  /** The value record of one player's props; the name, team, opponent and sport are the
      first prop's. */
  function ValueOf(props: seq<PlayerProp>, hash: string -> int): DfsPlayerValue
    requires props != []
  {
    var first := props[0];
    var salary := SimulatedSalary(first.sport, hash(first.playerName));
    var projected := ProjectedFor(props);
    var value := ValueScore(projected, salary);
    DfsPlayerValue(first.playerName, first.team, first.opponent, first.sport,
                   Position(first.sport, hash(first.playerName)), salary, projected,
                   PropAnalysis(props), value, ConfidenceScore(|props|), Exposure(value))
  }

  function GroupValues(gs: seq<Group<PlayerProp>>, hash: string -> int): (vs: seq<DfsPlayerValue>)
    requires forall i :: 0 <= i < |gs| ==> gs[i].members != []
    ensures |vs| == |gs|
    ensures forall i :: 0 <= i < |gs| ==> vs[i] == ValueOf(gs[i].members, hash)
  {
    seq(|gs|, i requires 0 <= i < |gs| => ValueOf(gs[i].members, hash))
  }

  /** `analyze_dfs_value`, as a specification: one value per (name, team) key in order of
      first appearance, then sorted by value score, highest first. */
  ghost function DfsValues(props: seq<PlayerProp>, hash: string -> int): seq<DfsPlayerValue>
  {
    GroupsNonEmpty(props, PlayerKey);
    SortDesc(GroupValues(GroupBy(props, PlayerKey), hash), ValueKey)
  }

  method AnalyzeDfsValue(events: Option<seq<Event>>, sport: string, hash: string -> int)
    returns (values: seq<DfsPlayerValue>)
    ensures values == DfsValues(AllProps(events, sport), hash)
  {
    var props := GetPlayerProps(events, sport);
    if props == [] {
      return [];
    }
    var groups := GroupInOrder(props, PlayerKey);
    GroupsNonEmpty(props, PlayerKey);
    var unsorted := GroupedValues(groups, hash);
    values := SortDesc(unsorted, ValueKey);
  }

  /** The loop over player groups, in order of first appearance. */
  method GroupedValues(groups: seq<Group<PlayerProp>>, hash: string -> int) returns (unsorted: seq<DfsPlayerValue>)
    requires forall i :: 0 <= i < |groups| ==> groups[i].members != []
    ensures unsorted == GroupValues(groups, hash)
  {
    unsorted := [];
    var i := 0;
    while i < |groups|
      invariant 0 <= i <= |groups|
      invariant unsorted == GroupValues(groups, hash)[..i]
    {
      var v := PlayerValue(groups[i].members, hash);
      unsorted := unsorted + [v];
      i := i + 1;
    }
  }

  /** The body of the loop over player groups: one player's value record. */
  method PlayerValue(members: seq<PlayerProp>, hash: string -> int) returns (v: DfsPlayerValue)
    requires members != []
    ensures v == ValueOf(members, hash)
  {
    var first := members[0];
    var salary := SimulatedSalary(first.sport, hash(first.playerName));
    var projected := CalculateProjectedPoints(members);
    var value := ValueScore(projected, salary);
    v := DfsPlayerValue(first.playerName, first.team, first.opponent, first.sport,
                        Position(first.sport, hash(first.playerName)), salary, projected,
                        PropAnalysis(members), value, ConfidenceScore(|members|), Exposure(value));
  }

  /** A value record's salary lies in its sport's range, its confidence in [50, 90] and its
      exposure in [0, 100]. */
  ghost predicate WithinRanges(v: DfsPlayerValue)
  {
    && BaseSalary(v.sport) <= v.salary <= BaseSalary(v.sport) + 2999
    && 50.0 <= v.confidenceScore <= 90.0
    && 0.0 <= v.recommendedExposure <= 100.0
  }

  /** Every value record of a non-empty group is within its ranges. */
  lemma GroupValuesWithinRanges(gs: seq<Group<PlayerProp>>, hash: string -> int)
    requires forall i :: 0 <= i < |gs| ==> gs[i].members != []
    ensures forall i :: 0 <= i < |gs| ==> WithinRanges(GroupValues(gs, hash)[i])
  {
    forall i | 0 <= i < |gs|
      ensures WithinRanges(GroupValues(gs, hash)[i])
    {
      var members := gs[i].members;
      assert GroupValues(gs, hash)[i] == ValueOf(members, hash);
      assert ConfidenceScore(|members|) >= 50.0;
    }
  }

  /** The analysis lists one entry per (name, team) key, highest value first, each entry with
      a salary in its sport's range, a confidence in [50, 90] and an exposure in [0, 100]. */
  lemma DfsValuesProperties(props: seq<PlayerProp>, hash: string -> int)
    ensures var vs := DfsValues(props, hash);
      && SortedDesc(vs, ValueKey)
      && |vs| == |GroupBy(props, PlayerKey)|
      && (forall i :: 0 <= i < |vs| ==> WithinRanges(vs[i]))
  {
    GroupsNonEmpty(props, PlayerKey);
    var gv := GroupValues(GroupBy(props, PlayerKey), hash);
    SortDescCorrect(gv, ValueKey);
    GroupValuesWithinRanges(GroupBy(props, PlayerKey), hash);
    PermutationKeeps(DfsValues(props, hash), gv, WithinRanges);
  }

  // ---------------------------------------------------------------------------
  // Over/under arbitrage between bookmakers.

  datatype PropArbitrage = PropArbitrage(
    playerName: string,
    market: string,
    line: real,
    overOdds: real,
    overBookmaker: string,
    underOdds: real,
    underBookmaker: string,
    arbitragePercentage: real,
    profitMargin: real)

  /** The grouping key `f"{player_name}_{market}"`. */
  function ArbKey(p: PlayerProp): string
  {
    p.playerName + "_" + p.market
  }

  function OverOf(p: PlayerProp): real
  {
    p.overOdds
  }

  function UnderOf(p: PlayerProp): real
  {
    p.underOdds
  }

  predicate NonZeroOdds(props: seq<PlayerProp>)
  {
    forall p :: p in props ==> p.overOdds != 0.0 && p.underOdds != 0.0
  }

  predicate MembersNonZero(gs: seq<Group<PlayerProp>>)
  {
    forall i :: 0 <= i < |gs| ==> NonZeroOdds(gs[i].members)
  }

  /** One group: skipped below two props; otherwise the first best over and first best
      under are combined, and reported when their index is below 1.0. The reported player,
      market and line are the best over's. */
  function GroupArbitrage(props: seq<PlayerProp>): seq<PropArbitrage>
    requires NonZeroOdds(props)
  {
    if |props| < 2 then []
    else
      var o := props[FirstMax(props, OverOf)];
      var u := props[FirstMax(props, UnderOf)];
      var index := 1.0 / o.overOdds + 1.0 / u.underOdds;
      if index < 1.0 then
        [PropArbitrage(o.playerName, o.market, o.line, o.overOdds, o.bookmaker,
                       u.underOdds, u.bookmaker, index, (1.0 - index) * 100.0)]
      else []
  }

  function GroupsArbitrage(gs: seq<Group<PlayerProp>>): seq<PropArbitrage>
    requires MembersNonZero(gs)
  {
    if gs == [] then []
    else GroupsArbitrage(gs[..|gs| - 1]) + GroupArbitrage(gs[|gs| - 1].members)
  }

  /** `find_prop_arbitrage`, as a specification. */
  ghost function PropArbitrages(props: seq<PlayerProp>): seq<PropArbitrage>
    requires NonZeroOdds(props)
  {
    var gs := GroupBy(props, ArbKey);
    GroupMembersNonZero(props);
    GroupsArbitrage(gs)
  }

  lemma GroupMembersNonZero(props: seq<PlayerProp>)
    requires NonZeroOdds(props)
    ensures MembersNonZero(GroupBy(props, ArbKey))
  {
    var gs := GroupBy(props, ArbKey);
    GroupByFaithful(props, ArbKey);
    forall i | 0 <= i < |gs|
      ensures NonZeroOdds(gs[i].members)
    {
      SelectSubset(props, ArbKey, gs[i].key);
    }
  }

  lemma {:induction false} SelectSubset(props: seq<PlayerProp>, key: PlayerProp -> string, k: string)
    ensures forall p :: p in Select(props, key, k) ==> p in props
  {
    if props != [] {
      SelectSubset(props[..|props| - 1], key, k);
    }
  }

  method FindPropArbitrage(props: seq<PlayerProp>) returns (found: seq<PropArbitrage>)
    requires NonZeroOdds(props)
    ensures found == PropArbitrages(props)
  {
    var groups := GroupInOrder(props, ArbKey);
    GroupMembersNonZero(props);
    found := [];
    var i := 0;
    while i < |groups|
      invariant 0 <= i <= |groups|
      invariant found == GroupsArbitrage(groups[..i])
    {
      assert groups[..i + 1][..i] == groups[..i];
      var here := ArbitrageOfGroup(groups[i].members);
      found := found + here;
      i := i + 1;
    }
    assert groups[..i] == groups;
  }

  /** The body of the loop over groups. */
  method ArbitrageOfGroup(members: seq<PlayerProp>) returns (found: seq<PropArbitrage>)
    requires NonZeroOdds(members)
    ensures found == GroupArbitrage(members)
  {
    found := [];
    if |members| >= 2 {
      var o := members[FirstMax(members, OverOf)];
      var u := members[FirstMax(members, UnderOf)];
      var index := 1.0 / o.overOdds + 1.0 / u.underOdds;
      if index < 1.0 {
        found := [PropArbitrage(o.playerName, o.market, o.line, o.overOdds, o.bookmaker,
                                u.underOdds, u.bookmaker, index, (1.0 - index) * 100.0)];
      }
    }
  }

  /** A group is reported exactly when it has at least two props and the best over and best
      under prices together have an index below 1.0; the reported prices are the group's
      maxima and the margin is positive. */
  lemma GroupArbitrageIff(props: seq<PlayerProp>)
    requires NonZeroOdds(props)
    ensures |GroupArbitrage(props)| <= 1
    ensures |GroupArbitrage(props)| == 1 <==>
      |props| >= 2 && 1.0 / props[FirstMax(props, OverOf)].overOdds + 1.0 / props[FirstMax(props, UnderOf)].underOdds < 1.0
    ensures |GroupArbitrage(props)| == 1 ==>
      var r := GroupArbitrage(props)[0];
      && (forall i :: 0 <= i < |props| ==> props[i].overOdds <= r.overOdds && props[i].underOdds <= r.underOdds)
      && r.arbitragePercentage == 1.0 / r.overOdds + 1.0 / r.underOdds
      && 0.0 < r.profitMargin
  {
    if |props| >= 2 {
      var o := FirstMax(props, OverOf);
      var u := FirstMax(props, UnderOf);
      assert forall i :: 0 <= i < |props| ==> OverOf(props[i]) <= OverOf(props[o]);
      assert forall i :: 0 <= i < |props| ==> UnderOf(props[i]) <= UnderOf(props[u]);
    }
  }

  /** Props read from the feed never have a zero price, so the search never divides by zero. */
  lemma FeedPropsSafe(events: Option<seq<Event>>, sport: string)
    ensures NonZeroOdds(AllProps(events, sport))
  {
    var ps := AllProps(events, sport);
    PropsWellFormed(events, sport);
    forall p | p in ps
      ensures p.overOdds != 0.0 && p.underOdds != 0.0
    {
      var i :| 0 <= i < |ps| && ps[i] == p;
      assert WellFormedProp(ps[i]);
    }
  }
}
