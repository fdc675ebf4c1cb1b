/** The WNBA DFS analyzer: projections for the star players whose teams play, the salary
    tiers, the arbitrage scan that swallows every error, and the greedy lineup over healthy
    players. The random draws arrive as parameters. */
module WnbaAnalyzer {
  import opened Numeric
  import opened Odds
  import opened Sorting
  import opened Scoring
  import SimpleArbitrage
  import FlexLineup

  /** A scheduled game; only the teams and the pace rating matter here. */
  datatype Game = Game(homeTeam: string, awayTeam: string, gameTime: string, paceRating: string)

  /** An entry of the star-player table. */
  datatype StarPlayer = StarPlayer(name: string, team: string, position: string, avgStats: seq<Stat>)

  datatype WnbaPlayer = WnbaPlayer(
    name: string,
    team: string,
    teamAbbr: string,
    position: string,
    salary: int,
    seasonAvgStats: seq<Stat>,
    projectedStats: seq<Stat>,
    projectedPoints: real,
    valueScore: real,
    matchupRating: string,
    injuryStatus: string,
    recentForm: string)

  /** The draws for one player: the salary draw, one variance per stat (by position in the
      stats dict), and the three categorical picks. */
  datatype Draws = Draws(salary: nat, variance: nat -> real, matchup: string, injury: string, form: string)

  // ---------------------------------------------------------------------------
  // Salary tiers.

  /** The tier of a season average: 0 (bench) to 4 (superstar). */
  function Tier(fp: real): (t: nat)
    ensures t <= 4
  {
    if fp >= 35.0 then 4 else if fp >= 30.0 then 3 else if fp >= 25.0 then 2 else if fp >= 20.0 then 1 else 0
  }

  /** `np.random.randint(lo, hi)` for the draw `d`: a value in [lo, hi). */
  function RandInt(lo: int, hi: int, d: nat): (r: int)
    requires lo < hi
    ensures lo <= r < hi
  {
    lo + d % (hi - lo)
  }

  /** `_calculate_base_salary` for the season average `fp` and the draw `d`. */
  function TierSalary(fp: real, d: nat): (salary: int)
    ensures fp >= 35.0 ==> 9500 <= salary <= 10999
    ensures 30.0 <= fp < 35.0 ==> 8000 <= salary <= 9499
    ensures 25.0 <= fp < 30.0 ==> 6500 <= salary <= 7999
    ensures 20.0 <= fp < 25.0 ==> 5000 <= salary <= 6499
    ensures fp < 20.0 ==> 4000 <= salary <= 4999
  {
    if fp >= 35.0 then RandInt(9500, 11000, d)
    else if fp >= 30.0 then RandInt(8000, 9500, d)
    else if fp >= 25.0 then RandInt(6500, 8000, d)
    else if fp >= 20.0 then RandInt(5000, 6500, d)
    else RandInt(4000, 5000, d)
  }

  /** The tiers do not overlap: a higher tier always pays more, whatever the draws, and a
      higher average never falls into a lower tier. */
  lemma TiersOrdered(fp1: real, fp2: real, d1: nat, d2: nat)
    ensures fp1 <= fp2 ==> Tier(fp1) <= Tier(fp2)
    ensures Tier(fp1) < Tier(fp2) ==> TierSalary(fp1, d1) < TierSalary(fp2, d2)
  {
  }

  function BaseSalary(avgStats: seq<Stat>, d: nat): (salary: int)
    ensures 4000 <= salary <= 10999
  {
    TierSalary(DfsPoints(avgStats, WnbaScoring), d)
  }

  // ---------------------------------------------------------------------------
  // Projections.

  /** The pace lookup; `None` for a rating the table lacks, which raises `KeyError`. */
  function PaceMultiplier(rating: string): (m: Option<real>)
    ensures m.Some? <==> rating == "Fast" || rating == "Average" || rating == "Slow"
    ensures m.Some? ==> 0.9 <= m.value <= 1.1
  {
    if rating == "Fast" then Some(1.1)
    else if rating == "Average" then Some(1.0)
    else if rating == "Slow" then Some(0.9)
    else None
  }

  /** The stats that benefit from pace. */
  predicate PaceStat(name: string)
  {
    name == "points" || name == "assists" || name == "steals"
  }

  /** What multiplies a season average: its variance draw, times the pace multiplier for
      points, assists and steals. */
  function Factor(name: string, variance: real, pace: real): (f: real)
    ensures !PaceStat(name) ==> f == variance
    ensures pace == 1.0 ==> f == variance
  {
    if PaceStat(name) then variance * pace else variance
  }

  /** One projected stat: the average times its factor, rounded to one decimal. */
  function ProjectStat(s: Stat, factor: real): (r: Stat)
    ensures r.name == s.name
  {
    Stat(s.name, Round(s.value * factor, 1))
  }

  function ProjectStats(avg: seq<Stat>, variance: nat -> real, pace: real): (r: seq<Stat>)
    ensures |r| == |avg|
  {
    if avg == [] then []
    else
      var n := |avg| - 1;
      ProjectStats(avg[..n], variance, pace) + [ProjectStat(avg[n], Factor(avg[n].name, variance(n), pace))]
  }

  /** The loop over the season averages. */
  method ProjectStatsLoop(avg: seq<Stat>, variance: nat -> real, pace: real) returns (r: seq<Stat>)
    ensures r == ProjectStats(avg, variance, pace)
  {
    r := [];
    var i := 0;
    while i < |avg|
      invariant 0 <= i <= |avg|
      invariant r == ProjectStats(avg[..i], variance, pace)
    {
      assert avg[..i + 1][..i] == avg[..i];
      r := r + [ProjectStat(avg[i], Factor(avg[i].name, variance(i), pace))];
      i := i + 1;
    }
    assert avg[..i] == avg;
  }

  /** Pace touches only points, assists and steals: every other stat projects the same in a
      fast and in a slow game, and a pace of 1.0 leaves only the variance. */
  lemma {:induction false} PaceOnlyForPaceStats(avg: seq<Stat>, variance: nat -> real, pace1: real, pace2: real, i: nat)
    requires i < |avg|
    ensures !PaceStat(avg[i].name) ==> ProjectStats(avg, variance, pace1)[i] == ProjectStats(avg, variance, pace2)[i]
    ensures ProjectStats(avg, variance, 1.0)[i] == ProjectStat(avg[i], variance(i))
  {
    var n := |avg| - 1;
    if i < n {
      assert avg[..n][i] == avg[i];
      PaceOnlyForPaceStats(avg[..n], variance, pace1, pace2, i);
    } else {
      ProjectStatCongruent(avg[i], Factor(avg[i].name, variance(i), 1.0), variance(i));
      if !PaceStat(avg[i].name) {
        ProjectStatCongruent(avg[i], Factor(avg[i].name, variance(i), pace1), Factor(avg[i].name, variance(i), pace2));
      }
    }
  }

  lemma ProjectStatCongruent(s: Stat, f: real, g: real)
    requires f == g
    ensures ProjectStat(s, f) == ProjectStat(s, g)
  {
  }

  /** The first game in which `team` plays. */
  function FirstGame(games: seq<Game>, team: string): (r: Option<Game>)
    ensures r.Some? ==> r.value in games && (r.value.homeTeam == team || r.value.awayTeam == team)
    ensures r.None? <==> forall g :: g in games ==> g.homeTeam != team && g.awayTeam != team
  {
    if games == [] then None
    else if games[0].homeTeam == team || games[0].awayTeam == team then Some(games[0])
    else
      assert forall g :: g in games ==> g == games[0] || g in games[1..];
      FirstGame(games[1..], team)
  }

  /** `playing_teams`: every home and away team. */
  function PlayingTeams(games: seq<Game>): (ts: set<string>)
    ensures forall t :: t in ts <==> exists g :: g in games && (g.homeTeam == t || g.awayTeam == t)
  {
    if games == [] then {}
    else
      assert forall g :: g in games ==> g == games[|games| - 1] || g in games[..|games| - 1];
      PlayingTeams(games[..|games| - 1]) + {games[|games| - 1].homeTeam, games[|games| - 1].awayTeam}
  }

  method CollectPlayingTeams(games: seq<Game>) returns (ts: set<string>)
    ensures ts == PlayingTeams(games)
  {
    ts := {};
    var i := 0;
    while i < |games|
      invariant 0 <= i <= |games|
      invariant ts == PlayingTeams(games[..i])
    {
      assert games[..i + 1][..i] == games[..i];
      ts := ts + {games[i].homeTeam, games[i].awayTeam};
      i := i + 1;
    }
    assert games[..i] == games;
  }

  /** The record built for a star from its salary and projected stats. */
  function MakePlayer(star: StarPlayer, abbr: string, salary: int, stats: seq<Stat>, d: Draws): (p: WnbaPlayer)
    requires 4000 <= salary <= 10999
    ensures p.name == star.name && p.team == star.team && p.salary == salary
    ensures p.projectedPoints == DfsPoints(stats, WnbaScoring)
    ensures p.valueScore == ValueScore(p.projectedPoints, salary)
  {
    var points := DfsPoints(stats, WnbaScoring);
    WnbaPlayer(star.name, star.team, abbr, star.position, salary, star.avgStats, stats,
               points, ValueScore(points, salary), d.matchup, d.injury, d.form)
  }

  /** The player projected from a star in `game`; `None` when the pace rating or the team's
      abbreviation is missing from its table. */
  function Project(star: StarPlayer, game: Game, abbrs: map<string, string>, d: Draws): (r: Option<WnbaPlayer>)
    ensures r.Some? <==> PaceMultiplier(game.paceRating).Some? && star.team in abbrs
    ensures r.Some? ==> r.value.name == star.name && r.value.team == star.team
    ensures r.Some? ==> 4000 <= r.value.salary <= 10999
    ensures r.Some? ==> r.value.valueScore == ValueScore(r.value.projectedPoints, r.value.salary)
  {
    var salary := BaseSalary(star.avgStats, d.salary);
    var pace := PaceMultiplier(game.paceRating);
    if pace.None? || star.team !in abbrs then None
    else Some(MakePlayer(star, abbrs[star.team], salary, ProjectStats(star.avgStats, d.variance, pace.value), d))
  }

  /** `generate_player_projections` over the star table in order; a `KeyError` ends it. */
  function Projections(stars: seq<StarPlayer>, games: seq<Game>, abbrs: map<string, string>,
                       draws: string -> Draws): Option<seq<WnbaPlayer>>
  {
    if stars == [] then Some([])
    else
      var before := Projections(stars[..|stars| - 1], games, abbrs, draws);
      var star := stars[|stars| - 1];
      if before.None? then None
      else if star.team !in PlayingTeams(games) then before
      else
        var game := FirstGame(games, star.team);
        var p := Project(star, game.value, abbrs, draws(star.name));
        if p.None? then None else Some(before.value + [p.value])
  }

  /** The first game of `team`, by the inner loop with `break`. */
  method FindGame(games: seq<Game>, team: string) returns (r: Option<Game>)
    ensures r == FirstGame(games, team)
  {
    var i := 0;
    while i < |games|
      invariant 0 <= i <= |games|
      invariant FirstGame(games, team) == FirstGame(games[i..], team)
    {
      assert games[i..][1..] == games[i + 1..];
      if games[i].homeTeam == team || games[i].awayTeam == team {
        return Some(games[i]);
      }
      i := i + 1;
    }
    return None;
  }

  method GenerateProjections(stars: seq<StarPlayer>, games: seq<Game>, abbrs: map<string, string>,
                             draws: string -> Draws) returns (r: Option<seq<WnbaPlayer>>)
    ensures r == Projections(stars, games, abbrs, draws)
  {
    var playing := CollectPlayingTeams(games);
    var players: seq<WnbaPlayer> := [];
    var i := 0;
    while i < |stars|
      invariant 0 <= i <= |stars|
      invariant Projections(stars[..i], games, abbrs, draws) == Some(players)
    {
      assert stars[..i + 1][..i] == stars[..i];
      var star := stars[i];
      if star.team in playing {
        var game := FindGame(games, star.team);
        var d := draws(star.name);
        var salary := BaseSalary(star.avgStats, d.salary);
        var pace := PaceMultiplier(game.value.paceRating);
        if pace.None? || star.team !in abbrs {
          ProjectionsNoneSticks(stars, games, abbrs, draws, i + 1);
          return None;
        }
        var stats := ProjectStatsLoop(star.avgStats, d.variance, pace.value);
        var points := CalculateDfsPoints(stats, WnbaScoring);
        var value := ValueScore(points, salary);
        players := players + [WnbaPlayer(star.name, star.team, abbrs[star.team], star.position, salary,
                                         star.avgStats, stats, points, value, d.matchup, d.injury, d.form)];
        assert players[|players| - 1] == MakePlayer(star, abbrs[star.team], salary, stats, d);
      }
      i := i + 1;
    }
    assert stars[..i] == stars;
    return Some(players);
  }

  lemma {:induction false} ProjectionsNoneSticks(stars: seq<StarPlayer>, games: seq<Game>, abbrs: map<string, string>,
                                                 draws: string -> Draws, n: nat)
    requires n <= |stars| && Projections(stars[..n], games, abbrs, draws).None?
    ensures Projections(stars, games, abbrs, draws).None?
    decreases |stars| - n
  {
    if n < |stars| {
      assert stars[..n + 1][..n] == stars[..n];
      ProjectionsNoneSticks(stars, games, abbrs, draws, n + 1);
    } else {
      assert stars[..n] == stars;
    }
  }

  /** A projected player comes from a star of the table whose team plays in a listed game,
      with a salary in the tier range and a value score consistent with its projection. */
  ghost predicate ProjectedFrom(p: WnbaPlayer, stars: seq<StarPlayer>, games: seq<Game>)
  {
    && (exists g :: g in games && (g.homeTeam == p.team || g.awayTeam == p.team))
    && (exists s :: s in stars && s.name == p.name && s.team == p.team)
    && 4000 <= p.salary <= 10999
    && p.valueScore == ValueScore(p.projectedPoints, p.salary)
  }

  /** No more projections than stars, each from a star whose team plays in some listed game. */
  lemma {:induction false} ProjectionsOfPlayingTeams(stars: seq<StarPlayer>, games: seq<Game>,
                                                     abbrs: map<string, string>, draws: string -> Draws)
    ensures var r := Projections(stars, games, abbrs, draws);
      r.Some? ==> |r.value| <= |stars| && forall p :: p in r.value ==> ProjectedFrom(p, stars, games)
  {
    if stars != [] {
      var n := |stars| - 1;
      ProjectionsOfPlayingTeams(stars[..n], games, abbrs, draws);
      var r := Projections(stars, games, abbrs, draws);
      var before := Projections(stars[..n], games, abbrs, draws);
      var star := stars[n];
      if r.Some? {
        forall p | p in before.value ensures ProjectedFrom(p, stars, games) {
          assert ProjectedFrom(p, stars[..n], games);
          var s :| s in stars[..n] && s.name == p.name && s.team == p.team;
          assert s in stars;
        }
        if star.team in PlayingTeams(games) {
          var game := FirstGame(games, star.team);
          var q := Project(star, game.value, abbrs, draws(star.name));
          assert r.value == before.value + [q.value];
          assert star in stars;
          assert ProjectedFrom(q.value, stars, games);
        }
      }
    }
  }

  /** The indices of the stars whose team is in `playing`, in table order. */
  ghost function PlayingIndices(stars: seq<StarPlayer>, playing: set<string>): seq<nat>
  {
    if stars == [] then []
    else
      var n := |stars| - 1;
      PlayingIndices(stars[..n], playing) + (if stars[n].team in playing then [n] else [])
  }

  /** The playing indices are increasing, index stars whose team plays, and miss none of them. */
  lemma {:induction false} PlayingIndicesExact(stars: seq<StarPlayer>, playing: set<string>)
    ensures forall k :: 0 <= k < |PlayingIndices(stars, playing)| ==>
      PlayingIndices(stars, playing)[k] < |stars| && stars[PlayingIndices(stars, playing)[k]].team in playing
    ensures forall k, l :: 0 <= k < l < |PlayingIndices(stars, playing)| ==>
      PlayingIndices(stars, playing)[k] < PlayingIndices(stars, playing)[l]
    ensures forall i :: 0 <= i < |stars| && stars[i].team in playing ==> i in PlayingIndices(stars, playing)
  {
    if stars != [] {
      var n := |stars| - 1;
      var prefix := stars[..n];
      PlayingIndicesExact(prefix, playing);
      var before := PlayingIndices(prefix, playing);
      var ix := PlayingIndices(stars, playing);
      assert ix == before + (if stars[n].team in playing then [n] else []);
      forall k | 0 <= k < |before|
        ensures ix[k] < n && stars[ix[k]].team in playing
      {
        assert ix[k] == before[k];
        assert prefix[before[k]] == stars[before[k]];
      }
      forall i | 0 <= i < n && stars[i].team in playing
        ensures i in ix
      {
        assert prefix[i] == stars[i];
      }
    }
  }

  /** The k-th projection of `r` carries the name and team of star `ix[k]`. */
  ghost predicate Aligned(stars: seq<StarPlayer>, r: seq<WnbaPlayer>, ix: seq<nat>)
  {
    && |r| == |ix|
    && forall k :: 0 <= k < |r| ==>
         ix[k] < |stars| && r[k].name == stars[ix[k]].name && r[k].team == stars[ix[k]].team
  }

  /** Appending the last star's projection, or nothing, keeps the alignment. */
  lemma AlignedSnoc(stars: seq<StarPlayer>, before: seq<WnbaPlayer>, ix: seq<nat>,
                    last: seq<WnbaPlayer>, lastIx: seq<nat>)
    requires stars != [] && Aligned(stars[..|stars| - 1], before, ix)
    requires Aligned(stars, last, lastIx)
    ensures Aligned(stars, before + last, ix + lastIx)
  {
    var prefix := stars[..|stars| - 1];
    forall k | 0 <= k < |before|
      ensures ix[k] < |stars| && before[k].name == stars[ix[k]].name && before[k].team == stars[ix[k]].team
    {
      assert prefix[ix[k]] == stars[ix[k]];
    }
    var r, rx := before + last, ix + lastIx;
    forall k | 0 <= k < |r|
      ensures rx[k] < |stars| && r[k].name == stars[rx[k]].name && r[k].team == stars[rx[k]].team
    {
      if k >= |before| {
        assert r[k] == last[k - |before|] && rx[k] == lastIx[k - |before|];
      }
    }
  }

  /** Exactly one projection per star whose team plays, in table order: the k-th projection
      carries the name and team of the k-th playing star. */
  lemma {:induction false} ProjectionsOnePerStar(stars: seq<StarPlayer>, games: seq<Game>,
                                                 abbrs: map<string, string>, draws: string -> Draws)
    requires Projections(stars, games, abbrs, draws).Some?
    ensures Aligned(stars, Projections(stars, games, abbrs, draws).value, PlayingIndices(stars, PlayingTeams(games)))
  {
    if stars != [] {
      var n := |stars| - 1;
      var playing := PlayingTeams(games);
      ProjectionsGrow(stars, games, abbrs, draws);
      ProjectionsOnePerStar(stars[..n], games, abbrs, draws);
      var before := Projections(stars[..n], games, abbrs, draws).value;
      var ix := PlayingIndices(stars[..n], playing);
      if stars[n].team in playing {
        var q := Project(stars[n], FirstGame(games, stars[n].team).value, abbrs, draws(stars[n].name));
        assert Aligned(stars, [q.value], [n]);
        AlignedSnoc(stars, before, ix, [q.value], [n]);
        assert Projections(stars, games, abbrs, draws).value == before + [q.value];
      } else {
        AlignedSnoc(stars, before, ix, [], []);
        assert before + [] == before && ix + [] == ix;
      }
    }
  }

  /** A star whose team plays and whose tables are complete is projected. */
  lemma {:induction false} PlayingStarProjected(stars: seq<StarPlayer>, games: seq<Game>, abbrs: map<string, string>,
                                                draws: string -> Draws, i: nat)
    requires i < |stars| && Projections(stars, games, abbrs, draws).Some?
    requires stars[i].team in PlayingTeams(games)
    ensures exists p :: p in Projections(stars, games, abbrs, draws).value && p.name == stars[i].name
    decreases |stars|
  {
    var n := |stars| - 1;
    if i < n {
      ProjectionsGrow(stars, games, abbrs, draws);
      assert stars[..n][i] == stars[i];
      PlayingStarProjected(stars[..n], games, abbrs, draws, i);
      var p :| p in Projections(stars[..n], games, abbrs, draws).value && p.name == stars[i].name;
      ProjectionKept(stars, games, abbrs, draws, p);
    } else {
      LastStarProjected(stars, games, abbrs, draws);
    }
  }

  /** A player projected from all but the last star stays projected. */
  lemma ProjectionKept(stars: seq<StarPlayer>, games: seq<Game>, abbrs: map<string, string>,
                       draws: string -> Draws, p: WnbaPlayer)
    requires stars != [] && Projections(stars, games, abbrs, draws).Some?
    requires Projections(stars[..|stars| - 1], games, abbrs, draws).Some?
    requires p in Projections(stars[..|stars| - 1], games, abbrs, draws).value
    ensures p in Projections(stars, games, abbrs, draws).value
  {
    ProjectionsGrow(stars, games, abbrs, draws);
  }

  /** The last star, when its team plays, is projected. */
  lemma LastStarProjected(stars: seq<StarPlayer>, games: seq<Game>, abbrs: map<string, string>,
                          draws: string -> Draws)
    requires stars != [] && Projections(stars, games, abbrs, draws).Some?
    requires stars[|stars| - 1].team in PlayingTeams(games)
    ensures exists p :: p in Projections(stars, games, abbrs, draws).value && p.name == stars[|stars| - 1].name
  {
    var star := stars[|stars| - 1];
    var before := Projections(stars[..|stars| - 1], games, abbrs, draws);
    var q := Project(star, FirstGame(games, star.team).value, abbrs, draws(star.name));
    assert Projections(stars, games, abbrs, draws).value == before.value + [q.value];
    assert q.value in Projections(stars, games, abbrs, draws).value;
  }

  /** A successful projection of `stars` extends the projection of all but the last star. */
  lemma ProjectionsGrow(stars: seq<StarPlayer>, games: seq<Game>, abbrs: map<string, string>,
                        draws: string -> Draws)
    requires stars != [] && Projections(stars, games, abbrs, draws).Some?
    ensures var before := Projections(stars[..|stars| - 1], games, abbrs, draws);
      before.Some? && before.value <= Projections(stars, games, abbrs, draws).value
  {
  }

  // ---------------------------------------------------------------------------
  // Arbitrage.

  /** `get_wnba_arbitrage_opportunities`: nothing when the fetch gave nothing, and nothing
      either when any error escapes the scan. */
  function WnbaArbitrage(events: Option<seq<Event>>): (r: seq<SimpleArbitrage.SimpleOpportunity>)
    ensures events.None? || events == Some([]) ==> r == []
    ensures events.Some? && SimpleArbitrage.ScanAll(events.value).None? ==> r == []
    ensures events.Some? && SimpleArbitrage.ScanAll(events.value).Some? ==> r == SimpleArbitrage.ScanAll(events.value).value
  {
    if events.None? || events.value == [] then []
    else
      var scanned := SimpleArbitrage.ScanAll(events.value);
      if scanned.None? then [] else scanned.value
  }

  method GetWnbaArbitrageOpportunities(events: Option<seq<Event>>) returns (r: seq<SimpleArbitrage.SimpleOpportunity>)
    ensures r == WnbaArbitrage(events)
  {
    if events.None? || events.value == [] {
      return [];
    }
    var scanned := SimpleArbitrage.ScanEvents(events.value);
    if scanned.None? {
      return [];
    }
    r := scanned.value;
  }

  // ---------------------------------------------------------------------------
  // The lineup.

  function ValueOf(p: WnbaPlayer): real { p.valueScore }
  function PositionOf(p: WnbaPlayer): string { p.position }
  function SalaryOf(p: WnbaPlayer): int { p.salary }
  function PointsOf(p: WnbaPlayer): real { p.projectedPoints }

  /** The healthy players, in order. */
  function Healthy(ps: seq<WnbaPlayer>): (r: seq<WnbaPlayer>)
    ensures |r| <= |ps|
    ensures forall p :: p in r <==> p in ps && p.injuryStatus == "Healthy"
  {
    if ps == [] then []
    else
      var n := |ps| - 1;
      assert forall p :: p in ps <==> p in ps[..n] || p == ps[n];
      Healthy(ps[..n]) + (if ps[n].injuryStatus == "Healthy" then [ps[n]] else [])
  }

  /** `create_optimal_lineup`: by descending value, healthy only, then the greedy pass under
      the WNBA rules; `{}` is `NoLineup`. */
  function OptimalLineup(players: seq<WnbaPlayer>, cap: int): FlexLineup.Outcome<WnbaPlayer>
  {
    FlexLineup.Build(FlexLineup.Wnba, cap, Healthy(SortDesc(players, ValueOf)), PositionOf, SalaryOf, PointsOf)
  }

  method CreateOptimalLineup(players: seq<WnbaPlayer>, cap: int) returns (out: FlexLineup.Outcome<WnbaPlayer>)
    ensures out == OptimalLineup(players, cap)
  {
    var ordered := SortDesc(players, ValueOf);
    var healthy := Healthy(ordered);
    out := FlexLineup.FillLineup(FlexLineup.Wnba, cap, healthy, PositionOf, SalaryOf, PointsOf);
  }

  /** With positive salaries it never raises; a returned lineup has eight healthy players
      from the input within the cap, with `remaining_salary` the cap minus the total. */
  lemma OptimalLineupProperties(players: seq<WnbaPlayer>, cap: int)
    ensures var out := OptimalLineup(players, cap);
      && ((forall p :: p in players ==> p.salary > 0) ==> !out.Raised?)
      && (out.Built? ==>
            && |out.result.lineup| == 8
            && (forall p :: p in out.result.lineup ==> p in players && p.injuryStatus == "Healthy")
            && out.result.totalSalary <= cap
            && out.result.remainingSalary == cap - out.result.totalSalary >= 0
            && out.result.totalSalary == FlexLineup.Salaries(out.result.lineup, SalaryOf))
  {
    var sorted := SortDesc(players, ValueOf);
    SortDescCorrect(players, ValueOf);
    assert forall p :: p in sorted ==> p in players by {
      forall p | p in sorted ensures p in players {
        assert p in multiset(sorted);
      }
    }
    var ordered := Healthy(sorted);
    FlexLineup.BuiltProperties(FlexLineup.Wnba, cap, ordered, PositionOf, SalaryOf, PointsOf);
    FlexLineup.WnbaNeverRaises(cap, FlexLineup.Initial(), ordered, PositionOf, SalaryOf);
    if forall p :: p in players ==> p.salary > 0 {
      FlexLineup.GreedyFacts(FlexLineup.Wnba, cap, ordered, PositionOf, SalaryOf);
      var g := FlexLineup.Greedy(FlexLineup.Wnba, cap, FlexLineup.Initial(), ordered, PositionOf, SalaryOf);
      if |g.value.lineup| == 8 {
        FlexLineup.SalariesPositive(g.value.lineup, SalaryOf);
      }
    }
  }
}
