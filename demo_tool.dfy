/** The NBA demo tool: the simulated slate's team pairing, salary and confidence rules, the
    real-market arbitrage scan, and the greedy eight-slot lineup. The random draws of the
    slate arrive as parameters. */
module DemoTool {
  import opened Numeric
  import opened Seqs
  import opened Odds
  import opened Sorting
  import opened Scoring
  import SimpleArbitrage
  import FlexLineup

  /** A player of the simulated slate. */
  datatype SimulatedPlayer = SimulatedPlayer(
    name: string,
    team: string,
    opponent: string,
    position: string,
    salary: int,
    projectedStats: seq<Stat>,
    projectedPoints: real,
    valueScore: real,
    confidence: real,
    gameTime: string)

  // ---------------------------------------------------------------------------
  // Pairing teams into games.

  /** The teams not yet used, in list order. */
  function Available(teams: seq<string>, used: set<string>): (r: seq<string>)
    ensures |r| <= |teams|
    ensures forall t {:trigger t in r} :: t in r <==> t in teams && t !in used
  {
    if teams == [] then []
    else
      var before := Available(teams[..|teams| - 1], used);
      var last := teams[|teams| - 1];
      assert forall t :: t in teams <==> t in teams[..|teams| - 1] || t == last;
      if last in used then before else before + [last]
  }

  lemma {:induction false} AvailableDistinct(teams: seq<string>, used: set<string>)
    requires Distinct(teams)
    ensures Distinct(Available(teams, used))
  {
    if teams != [] {
      var n := |teams| - 1;
      assert Distinct(teams[..n]);
      assert teams[n] !in teams[..n];
      assert teams[n] !in Available(teams[..n], used);
      AvailableDistinct(teams[..n], used);
    }
  }

  /** `random.sample(available, 2)`: the first team at draw `d.0`, the second at draw `d.1`
      among the rest. */
  function Pair(avail: seq<string>, d: (nat, nat)): (p: (string, string))
    requires |avail| >= 2
    ensures p.0 in avail && p.1 in avail
  {
    var i := d.0 % |avail|;
    var rest := avail[..i] + avail[i + 1..];
    assert forall t :: t in rest ==> t in avail;
    (avail[i], rest[d.1 % |rest|])
  }

  /** With distinct names the two sampled teams differ. */
  lemma PairDistinct(avail: seq<string>, d: (nat, nat))
    requires |avail| >= 2 && Distinct(avail)
    ensures Pair(avail, d).0 != Pair(avail, d).1
  {
    var i := d.0 % |avail|;
    var rest := avail[..i] + avail[i + 1..];
    forall k | 0 <= k < |rest|
      ensures rest[k] != avail[i]
    {
      if k < i { assert rest[k] == avail[k]; } else { assert rest[k] == avail[k + 1]; }
    }
    assert Pair(avail, d) == (avail[i], rest[d.1 % |rest|]);
  }

  /** The games from game `g` on, given the teams used so far; the loop stops early once fewer
      than two teams are left. */
  function Schedule(teams: seq<string>, numGames: nat, draw: nat -> (nat, nat), g: nat, used: set<string>)
    : seq<(string, string)>
    decreases numGames - g
  {
    if g >= numGames then []
    else
      var avail := Available(teams, used);
      if |avail| < 2 then []
      else
        var p := Pair(avail, draw(g));
        [p] + Schedule(teams, numGames, draw, g + 1, used + {p.0, p.1})
  }

  /** The teams of a list of games. */
  function TeamsOf(games: seq<(string, string)>): set<string>
  {
    if games == [] then {} else {games[0].0, games[0].1} + TeamsOf(games[1..])
  }

  /** The team loop of `generate_simulated_slate`, which grows `used_teams`. */
  method PairTeams(teams: seq<string>, numGames: nat, draw: nat -> (nat, nat)) returns (games: seq<(string, string)>)
    ensures games == Schedule(teams, numGames, draw, 0, {})
  {
    games := [];
    var used: set<string> := {};
    var g := 0;
    while g < numGames
      invariant 0 <= g <= numGames
      invariant Schedule(teams, numGames, draw, 0, {}) == games + Schedule(teams, numGames, draw, g, used)
    {
      var avail := Available(teams, used);
      if |avail| < 2 {
        assert games + [] == games;
        break;
      }
      var p := Pair(avail, draw(g));
      used := used + {p.0, p.1};
      assert games + ([p] + Schedule(teams, numGames, draw, g + 1, used))
          == (games + [p]) + Schedule(teams, numGames, draw, g + 1, used);
      games := games + [p];
      g := g + 1;
    }
    if g >= numGames {
      assert games + [] == games;
    }
  }

  /** One step of the pairing: the next game takes two different unused teams from the list,
      and the rest of the schedule continues with both marked as used. */
  lemma ScheduleCons(teams: seq<string>, numGames: nat, draw: nat -> (nat, nat), g: nat, used: set<string>)
    returns (p: (string, string), used': set<string>)
    requires Distinct(teams) && g < numGames && |Available(teams, used)| >= 2
    ensures p.0 != p.1 && p.0 in teams && p.1 in teams && p.0 !in used && p.1 !in used
    ensures used' == used + {p.0, p.1}
    ensures Schedule(teams, numGames, draw, g, used) == [p] + Schedule(teams, numGames, draw, g + 1, used')
  {
    var avail := Available(teams, used);
    AvailableDistinct(teams, used);
    PairDistinct(avail, draw(g));
    p := Pair(avail, draw(g));
    used' := used + {p.0, p.1};
  }

  /** One step of the pairing, for any team list: a game, then the rest with its teams used. */
  lemma ScheduleUnfold(teams: seq<string>, numGames: nat, draw: nat -> (nat, nat), g: nat, used: set<string>)
    requires g < numGames && |Available(teams, used)| >= 2
    ensures var p := Pair(Available(teams, used), draw(g));
      Schedule(teams, numGames, draw, g, used) == [p] + Schedule(teams, numGames, draw, g + 1, used + {p.0, p.1})
  {
  }

  /** With distinct team names: at most `numGames` games, two different teams per game, and
      every team unused before and drawn from the list. */
  lemma {:induction false} ScheduleFresh(teams: seq<string>, numGames: nat, draw: nat -> (nat, nat), g: nat,
                                         used: set<string>)
    requires Distinct(teams) && g <= numGames
    ensures var s := Schedule(teams, numGames, draw, g, used);
      && |s| <= numGames - g
      && (forall i :: 0 <= i < |s| ==>
            s[i].0 != s[i].1 && s[i].0 in teams && s[i].1 in teams && s[i].0 !in used && s[i].1 !in used)
    decreases numGames - g
  {
    var s := Schedule(teams, numGames, draw, g, used);
    if g < numGames && |Available(teams, used)| >= 2 {
      var p, used' := ScheduleCons(teams, numGames, draw, g, used);
      var rest := Schedule(teams, numGames, draw, g + 1, used');
      ScheduleFresh(teams, numGames, draw, g + 1, used');
      assert s[1..] == rest;
      forall i | 0 <= i < |s|
        ensures s[i].0 != s[i].1 && s[i].0 in teams && s[i].1 in teams && s[i].0 !in used && s[i].1 !in used
      {
        if i > 0 { assert s[i] == rest[i - 1]; }
      }
    }
  }

  /** The pairing from game `g` on stops short of `numGames` games only when fewer than two
      teams are left unused. */
  ghost predicate StopsWhenExhausted(teams: seq<string>, numGames: nat, draw: nat -> (nat, nat), g: nat,
                                     used: set<string>)
  {
    var s := Schedule(teams, numGames, draw, g, used);
    |s| < numGames - g ==> |Available(teams, used + TeamsOf(s))| < 2
  }

  /** The pairing stops short of `numGames` games only when fewer than two teams are left
      unused. */
  lemma {:induction false} ScheduleStops(teams: seq<string>, numGames: nat, draw: nat -> (nat, nat), g: nat,
                                         used: set<string>)
    requires g <= numGames
    ensures StopsWhenExhausted(teams, numGames, draw, g, used)
    decreases numGames - g, 1
  {
    if g < numGames && |Available(teams, used)| >= 2 {
      StopsAfterNext(teams, numGames, draw, g, used);
    } else {
      ScheduleEnds(teams, numGames, draw, g, used);
    }
  }

  /** Once no game can be formed, the pairing is empty and the unused teams stay as they are. */
  lemma ScheduleEnds(teams: seq<string>, numGames: nat, draw: nat -> (nat, nat), g: nat, used: set<string>)
    requires g <= numGames && (g == numGames || |Available(teams, used)| < 2)
    ensures StopsWhenExhausted(teams, numGames, draw, g, used)
  {
    assert Schedule(teams, numGames, draw, g, used) == [];
    assert used + TeamsOf([]) == used;
  }

  /** The inductive case of `ScheduleStops`: one game can be formed. */
  lemma {:induction false} StopsAfterNext(teams: seq<string>, numGames: nat, draw: nat -> (nat, nat), g: nat,
                                          used: set<string>)
    requires g < numGames && |Available(teams, used)| >= 2
    ensures StopsWhenExhausted(teams, numGames, draw, g, used)
    decreases numGames - g, 0
  {
    var p := Pair(Available(teams, used), draw(g));
    ScheduleStops(teams, numGames, draw, g + 1, used + {p.0, p.1});
    StopsStep(teams, numGames, draw, g, used, p);
  }

  /** The inductive step of `ScheduleStops`: the stopping condition for the games after the
      next one gives it for all games. */
  lemma StopsStep(teams: seq<string>, numGames: nat, draw: nat -> (nat, nat), g: nat, used: set<string>,
                  p: (string, string))
    requires g < numGames && |Available(teams, used)| >= 2 && p == Pair(Available(teams, used), draw(g))
    requires StopsWhenExhausted(teams, numGames, draw, g + 1, used + {p.0, p.1})
    ensures StopsWhenExhausted(teams, numGames, draw, g, used)
  {
    ScheduleUnfold(teams, numGames, draw, g, used);
    StopsAfterGame(teams, used, p, Schedule(teams, numGames, draw, g + 1, used + {p.0, p.1}), numGames - g);
  }

  /** The stopping condition carries over from the games after the first to all games. */
  lemma StopsAfterGame(teams: seq<string>, used: set<string>, p: (string, string), rest: seq<(string, string)>,
                       n: nat)
    requires |rest| < n - 1 ==> |Available(teams, (used + {p.0, p.1}) + TeamsOf(rest))| < 2
    ensures |[p] + rest| < n ==> |Available(teams, used + TeamsOf([p] + rest))| < 2
  {
    TeamsOfCons(used, p, rest);
  }

  /** The teams of a game list are those of its first game and those of the rest. */
  lemma TeamsOfCons(used: set<string>, p: (string, string), rest: seq<(string, string)>)
    ensures used + TeamsOf([p] + rest) == (used + {p.0, p.1}) + TeamsOf(rest)
  {
    assert ([p] + rest)[1..] == rest;
  }

  /** No team plays in two games. */
  predicate Disjoint(s: seq<(string, string)>)
  {
    forall i, j :: 0 <= i < j < |s| ==>
      s[j].0 != s[i].0 && s[j].0 != s[i].1 && s[j].1 != s[i].0 && s[j].1 != s[i].1
  }

  /** A game followed by games that avoid both of its teams keeps the games disjoint. */
  lemma ConsDisjoint(p: (string, string), rest: seq<(string, string)>, taken: set<string>)
    requires p.0 in taken && p.1 in taken && Disjoint(rest)
    requires forall k :: 0 <= k < |rest| ==> rest[k].0 !in taken && rest[k].1 !in taken
    ensures Disjoint([p] + rest)
  {
    var s := [p] + rest;
    forall i, j | 0 <= i < j < |s|
      ensures s[j].0 != s[i].0 && s[j].0 != s[i].1 && s[j].1 != s[i].0 && s[j].1 != s[i].1
    {
      assert s[j] == rest[j - 1];
      if i > 0 { assert s[i] == rest[i - 1]; }
    }
  }

  /** No team plays in two games of the schedule. */
  lemma {:induction false} ScheduleDisjoint(teams: seq<string>, numGames: nat, draw: nat -> (nat, nat), g: nat,
                                            used: set<string>)
    requires Distinct(teams) && g <= numGames
    ensures Disjoint(Schedule(teams, numGames, draw, g, used))
    decreases numGames - g
  {
    if g < numGames && |Available(teams, used)| >= 2 {
      var p, used' := ScheduleCons(teams, numGames, draw, g, used);
      var rest := Schedule(teams, numGames, draw, g + 1, used');
      ScheduleDisjoint(teams, numGames, draw, g + 1, used');
      ScheduleFresh(teams, numGames, draw, g + 1, used');
      ConsDisjoint(p, rest, used');
    }
  }

  /** The slate's pairing from an empty set of used teams. */
  lemma NoTeamPlaysTwice(teams: seq<string>, numGames: nat, draw: nat -> (nat, nat))
    requires Distinct(teams)
    ensures var s := Schedule(teams, numGames, draw, 0, {});
      && |s| <= numGames
      && (forall i :: 0 <= i < |s| ==> s[i].0 != s[i].1 && s[i].0 in teams && s[i].1 in teams)
      && (forall i, j :: 0 <= i < j < |s| ==>
            s[j].0 != s[i].0 && s[j].0 != s[i].1 && s[j].1 != s[i].0 && s[j].1 != s[i].1)
      && (|s| < numGames ==> |Available(teams, TeamsOf(s))| < 2)
  {
    ScheduleFresh(teams, numGames, draw, 0, {});
    ScheduleStops(teams, numGames, draw, 0, {});
    ScheduleDisjoint(teams, numGames, draw, 0, {});
    assert {} + TeamsOf(Schedule(teams, numGames, draw, 0, {})) == TeamsOf(Schedule(teams, numGames, draw, 0, {}));
  }

  // ---------------------------------------------------------------------------
  // Salary, confidence and value of a simulated player.

  /** The salary base by position; 7500 for any other position. */
  function BaseSalary(position: string): (base: int)
    ensures 7500 <= base <= 8500
  {
    if position == "PG" then 8500
    else if position == "SG" then 7800
    else if position == "SF" then 8200
    else if position == "PF" then 7900
    else if position == "C" then 8000
    else 7500
  }

  /** The "star power" multiplier. */
  function StarMultiplier(name: string): (m: real)
    ensures m == 1.0 || m == 1.2 || m == 1.3
  {
    if name in ["LeBron James", "Stephen Curry", "Kevin Durant", "Giannis Antetokounmpo"] then 1.3
    else if name in ["Luka Doncic", "Jayson Tatum", "Joel Embiid", "Nikola Jokic"] then 1.2
    else 1.0
  }

  /** Python's `int()` on a float: truncation toward zero. */
  function Truncate(x: real): (n: int)
    ensures x >= 0.0 ==> n as real <= x < n as real + 1.0
    ensures x < 0.0 ==> n as real - 1.0 < x <= n as real
  {
    if x >= 0.0 then x.Floor else -((-x).Floor)
  }

  lemma TruncateMonotone(x: real, y: real)
    requires x <= y
    ensures Truncate(x) <= Truncate(y)
  {
  }

  /** The salary for the uniform draw `u`, clamped into [4000, 12000]. */
  function SimulatedSalary(name: string, position: string, u: real): (salary: int)
    ensures 4000 <= salary <= 12000
    ensures var raw := Truncate(SalaryScale(name, position) * u);
      4000 <= raw <= 12000 ==> salary == raw
  {
    ClampSalary(Truncate(SalaryScale(name, position) * u))
  }

  /** The position's base salary times the star power. */
  function SalaryScale(name: string, position: string): (c: real)
    ensures c >= 7500.0
  {
    var b := BaseSalary(position) as real;
    var m := StarMultiplier(name);
    assert b * m >= b * 1.0;
    b * m
  }

  /** `min(12000, max(4000, raw))`. */
  function ClampSalary(raw: int): int
  {
    if 12000 < (if 4000 < raw then raw else 4000) then 12000 else (if 4000 < raw then raw else 4000)
  }

  /** A larger draw never gives a smaller salary. */
  lemma SalaryMonotone(name: string, position: string, u1: real, u2: real)
    requires u1 <= u2
    ensures SimulatedSalary(name, position, u1) <= SimulatedSalary(name, position, u2)
  {
    ScaleSalaryMonotone(name, position, u1, u2);
  }

  /** The clamped truncated salary grows with the draw. */
  lemma ScaleSalaryMonotone(name: string, position: string, u1: real, u2: real)
    requires u1 <= u2
    ensures ClampSalary(Truncate(SalaryScale(name, position) * u1))
         <= ClampSalary(Truncate(SalaryScale(name, position) * u2))
  {
    ScaledSalaryMonotone(SalaryScale(name, position), u1, u2);
  }

  /** For a positive scale, the clamped truncated salary grows with the draw. */
  lemma ScaledSalaryMonotone(c: real, u1: real, u2: real)
    requires c > 0.0 && u1 <= u2
    ensures ClampSalary(Truncate(c * u1)) <= ClampSalary(Truncate(c * u2))
  {
    assert c * u1 <= c * u2;
    TruncateMonotone(c * u1, c * u2);
  }

  /** For a player without star power the clamp never binds on a draw in [0.8, 1.2]. */
  lemma RegularSalaryUnclamped(name: string, position: string, u: real)
    requires StarMultiplier(name) == 1.0 && 0.8 <= u <= 1.2
    ensures SimulatedSalary(name, position, u) == Truncate(BaseSalary(position) as real * u)
  {
    var b := BaseSalary(position) as real;
    assert b * 0.8 <= b * u <= b * 1.2;
  }

  /** `min(95, c * star_multiplier * 0.9)` for the uniform draw `c`. */
  function SimulatedConfidence(name: string, c: real): (r: real)
    ensures r <= 95.0
    ensures c * StarMultiplier(name) * 0.9 <= 95.0 ==> r == c * StarMultiplier(name) * 0.9
    ensures 60.0 <= c ==> r >= 54.0
  {
    var raw := c * StarMultiplier(name) * 0.9;
    if raw < 95.0 then raw else 95.0
  }

  /** One slate player from its draws: the salary draw `u`, the projected stats and the
      confidence draw `c`. */
  function MakePlayer(name: string, position: string, team: string, opponent: string, u: real,
                      stats: seq<Stat>, c: real, gameTime: string): (p: SimulatedPlayer)
    ensures 4000 <= p.salary <= 12000 && p.confidence <= 95.0
    ensures p.projectedPoints == DfsPoints(stats, DemoScoring)
    ensures p.valueScore * (p.salary as real / 1000.0) == p.projectedPoints
  {
    var salary := SimulatedSalary(name, position, u);
    var points := DfsPoints(stats, DemoScoring);
    QuotientTimesDivisor(points, salary as real / 1000.0);
    SimulatedPlayer(name, team, opponent, position, salary, stats, points,
                    points / (salary as real / 1000.0), SimulatedConfidence(name, c), gameTime)
  }

  // ---------------------------------------------------------------------------
  // Arbitrage on real markets.

  /** `analyze_real_arbitrage` on the fetched events: nothing when the fetch gave nothing;
      `None` when a zero best price makes the reciprocal sum divide by zero. */
  function RealArbitrage(events: Option<seq<Event>>): (r: Option<seq<SimpleArbitrage.SimpleOpportunity>>)
    ensures events.None? || events == Some([]) ==> r == Some([])
  {
    if events.None? || events.value == [] then Some([]) else SimpleArbitrage.ScanAll(events.value)
  }

  method AnalyzeRealArbitrage(events: Option<seq<Event>>) returns (r: Option<seq<SimpleArbitrage.SimpleOpportunity>>)
    ensures r == RealArbitrage(events)
  {
    if events.None? || events.value == [] {
      return Some([]);
    }
    r := SimpleArbitrage.ScanEvents(events.value);
  }

  /** With positive prices the scan never raises. */
  lemma RealArbitrageSucceeds(events: Option<seq<Event>>)
    requires events.Some? ==> forall e :: e in events.value ==> PositivePrices(e)
    ensures RealArbitrage(events).Some?
  {
    if events.Some? {
      SimpleArbitrage.ScanAllSucceeds(events.value);
    }
  }

  // ---------------------------------------------------------------------------
  // The lineup.

  function ValueOf(p: SimulatedPlayer): real { p.valueScore }
  function PositionOf(p: SimulatedPlayer): string { p.position }
  function SalaryOf(p: SimulatedPlayer): int { p.salary }
  function PointsOf(p: SimulatedPlayer): real { p.projectedPoints }

  /** `create_optimal_lineup`: the players by descending value, then the greedy pass under the
      demo tool's rules; `None` is `NoLineup`. */
  function OptimalLineup(players: seq<SimulatedPlayer>, cap: int): FlexLineup.Outcome<SimulatedPlayer>
  {
    FlexLineup.Build(FlexLineup.Demo, cap, SortDesc(players, ValueOf), PositionOf, SalaryOf, PointsOf)
  }

  method CreateOptimalLineup(players: seq<SimulatedPlayer>, cap: int) returns (out: FlexLineup.Outcome<SimulatedPlayer>)
    ensures out == OptimalLineup(players, cap)
  {
    var ordered := SortDesc(players, ValueOf);
    out := FlexLineup.FillLineup(FlexLineup.Demo, cap, ordered, PositionOf, SalaryOf, PointsOf);
  }

  /** Players whose positions are all slot names and whose salaries are positive never make
      it raise; a returned lineup has eight of the given players within the cap, with a
      non-negative remaining salary and a positive total. */
  lemma OptimalLineupProperties(players: seq<SimulatedPlayer>, cap: int)
    ensures var out := OptimalLineup(players, cap);
      && ((forall p :: p in players ==> FlexLineup.SlotNamed(p.position).Some? && p.salary > 0) ==> !out.Raised?)
      && (out.Built? ==>
            && |out.result.lineup| == 8
            && (forall p :: p in out.result.lineup ==> p in players)
            && out.result.totalSalary <= cap
            && out.result.remainingSalary == cap - out.result.totalSalary >= 0
            && out.result.totalSalary == FlexLineup.Salaries(out.result.lineup, SalaryOf))
  {
    var ordered := SortDesc(players, ValueOf);
    SortDescCorrect(players, ValueOf);
    assert forall p :: p in ordered ==> p in players by {
      forall p | p in ordered ensures p in players {
        assert p in multiset(ordered);
      }
    }
    FlexLineup.BuiltProperties(FlexLineup.Demo, cap, ordered, PositionOf, SalaryOf, PointsOf);
    if forall p :: p in players ==> FlexLineup.SlotNamed(p.position).Some? && p.salary > 0 {
      FlexLineup.KnownPositionsNeverRaise(FlexLineup.Demo, cap, FlexLineup.Initial(), ordered, PositionOf, SalaryOf);
      FlexLineup.GreedyFacts(FlexLineup.Demo, cap, ordered, PositionOf, SalaryOf);
      var g := FlexLineup.Greedy(FlexLineup.Demo, cap, FlexLineup.Initial(), ordered, PositionOf, SalaryOf);
      if |g.value.lineup| == 8 {
        FlexLineup.SalariesPositive(g.value.lineup, SalaryOf);
      }
    }
  }
}
