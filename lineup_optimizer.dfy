/** `DFSLineupOptimizer`: greedy lineups under a salary cap and per-position slot
    requirements, three lineup types weighting value against ceiling differently, and
    rejection of near-duplicate lineups. Its greedy pass is not the one in `FlexLineup`:
    here the slots, their counts and their order come from the sport's requirements dict,
    and a player takes the first open slot in that order that accepts the position. */
module LineupOptimizer {
  import opened Numeric
  import opened Sorting
  import opened PropsAnalyzer

  /** One roster slot and how many players it takes. */
  datatype Slot = Slot(position: string, required: nat)

  /** The slots in the order the requirements dict lists them. */
  datatype Requirements = Requirements(salaryCap: int, slots: seq<Slot>, totalPlayers: nat)

  const Nba := Requirements(50000,
    [Slot("PG", 1), Slot("SG", 1), Slot("SF", 1), Slot("PF", 1), Slot("C", 1),
     Slot("G", 1), Slot("F", 1), Slot("UTIL", 1)], 8)

  const Nfl := Requirements(50000,
    [Slot("QB", 1), Slot("RB", 2), Slot("WR", 3), Slot("TE", 1), Slot("K", 1), Slot("DEF", 1)], 9)

  function Required(slots: seq<Slot>): nat
  {
    if slots == [] then 0 else Required(slots[..|slots| - 1]) + slots[|slots| - 1].required
  }

  /** Requirements the greedy builder can work with: a non-negative cap, a positive roster
      size, and slot counts adding up to that size. */
  predicate Consistent(req: Requirements)
  {
    req.salaryCap >= 0 && req.totalPlayers > 0 && Required(req.slots) == req.totalPlayers
  }

  /** The supported sports; both tables are consistent. */
  function RequirementsFor(sport: string): (r: Option<Requirements>)
    ensures r.Some? <==> sport == "basketball_nba" || sport == "americanfootball_nfl"
    ensures r.Some? ==> Consistent(r.value) && r.value.salaryCap == 50000
  {
    TablesConsistent();
    if sport == "basketball_nba" then Some(Nba)
    else if sport == "americanfootball_nfl" then Some(Nfl)
    else None
  }

  /** The NBA slots add up to 8 players and the NFL slots to 9. */
  lemma TablesConsistent()
    ensures Required(Nba.slots) == 8 && Required(Nfl.slots) == 9
  {
    var a := Nba.slots;
    assert Required(a[..1]) == 1 by { assert a[..1][..0] == []; }
    assert Required(a[..2]) == 2 by { assert a[..2][..1] == a[..1]; }
    assert Required(a[..3]) == 3 by { assert a[..3][..2] == a[..2]; }
    assert Required(a[..4]) == 4 by { assert a[..4][..3] == a[..3]; }
    assert Required(a[..5]) == 5 by { assert a[..5][..4] == a[..4]; }
    assert Required(a[..6]) == 6 by { assert a[..6][..5] == a[..5]; }
    assert Required(a[..7]) == 7 by { assert a[..7][..6] == a[..6]; }
    assert a[..8] == a;
    var b := Nfl.slots;
    assert Required(b[..1]) == 1 by { assert b[..1][..0] == []; }
    assert Required(b[..2]) == 3 by { assert b[..2][..1] == b[..1]; }
    assert Required(b[..3]) == 6 by { assert b[..3][..2] == b[..2]; }
    assert Required(b[..4]) == 7 by { assert b[..4][..3] == b[..3]; }
    assert Required(b[..5]) == 8 by { assert b[..5][..4] == b[..4]; }
    assert b[..6] == b;
  }

  // ---------------------------------------------------------------------------
  // Slots.

  /** Slot `slot` accepts a player of position `pos`: its own position, G for PG and SG,
      F for SF and PF, and UTIL for anyone. */
  predicate Accepts(slot: string, pos: string)
  {
    slot == pos || (slot == "G" && (pos == "PG" || pos == "SG"))
    || (slot == "F" && (pos == "SF" || pos == "PF")) || slot == "UTIL"
  }

  predicate Open(slots: seq<Slot>, counts: seq<nat>, k: int, pos: string)
    requires |counts| == |slots|
  {
    0 <= k < |slots| && counts[k] < slots[k].required && Accepts(slots[k].position, pos)
  }

  /** The first open slot at index `from` or later that accepts `pos`, or -1. */
  function OpenSlotFrom(slots: seq<Slot>, counts: seq<nat>, pos: string, from: nat): (k: int)
    requires |counts| == |slots| && from <= |slots|
    ensures k == -1 || (from <= k && Open(slots, counts, k, pos))
    ensures forall j :: from <= j < (if k < 0 then |slots| else k) ==> !Open(slots, counts, j, pos)
    decreases |slots| - from
  {
    if from == |slots| then -1
    else if Open(slots, counts, from, pos) then from
    else OpenSlotFrom(slots, counts, pos, from + 1)
  }

  /** The slot a player of position `pos` takes: the first open one that accepts him. */
  function OpenSlot(slots: seq<Slot>, counts: seq<nat>, pos: string): (k: int)
    requires |counts| == |slots|
    ensures k == -1 || Open(slots, counts, k, pos)
    ensures forall j :: 0 <= j < (if k < 0 then |slots| else k) ==> !Open(slots, counts, j, pos)
  {
    OpenSlotFrom(slots, counts, pos, 0)
  }

  /** The inner loop over the requirements dict. */
  method FindSlot(slots: seq<Slot>, counts: seq<nat>, pos: string) returns (k: int)
    requires |counts| == |slots|
    ensures k == OpenSlot(slots, counts, pos)
  {
    var j := 0;
    while j < |slots|
      invariant 0 <= j <= |slots|
      invariant OpenSlotFrom(slots, counts, pos, j) == OpenSlot(slots, counts, pos)
    {
      if counts[j] < slots[j].required {
        if Accepts(slots[j].position, pos) {
          return j;
        }
      }
      j := j + 1;
    }
    return -1;
  }

  // ---------------------------------------------------------------------------
  // The greedy selection.

  /** `selected_players`, `total_salary` and `position_counts` (one count per slot). */
  datatype Selection = Selection(players: seq<DfsPlayerValue>, totalSalary: int, counts: seq<nat>)

  function Initial(req: Requirements): (st: Selection)
    ensures |st.counts| == |req.slots|
  {
    Selection([], 0, seq(|req.slots|, _ => 0))
  }

  /** One player: skipped when he would break the cap or finds no open slot, otherwise
      added and counted in his slot. */
  function Consider(req: Requirements, st: Selection, p: DfsPlayerValue): (r: Selection)
    requires |st.counts| == |req.slots|
    ensures |r.counts| == |req.slots|
  {
    if st.totalSalary + p.salary > req.salaryCap then st
    else
      var k := OpenSlot(req.slots, st.counts, p.position);
      if k < 0 then st
      else Selection(st.players + [p], st.totalSalary + p.salary, st.counts[k := st.counts[k] + 1])
  }

  /** The greedy pass over the players in order, which stops once the roster is full. */
  function Greedy(req: Requirements, st: Selection, ps: seq<DfsPlayerValue>): (r: Selection)
    requires |st.counts| == |req.slots|
    ensures |r.counts| == |req.slots|
    decreases |ps|
  {
    if ps == [] || |st.players| >= req.totalPlayers then st
    else Greedy(req, Consider(req, st, ps[0]), ps[1..])
  }

  function SumCounts(c: seq<nat>): nat
  {
    if c == [] then 0 else SumCounts(c[..|c| - 1]) + c[|c| - 1]
  }

  function Salaries(ps: seq<DfsPlayerValue>): int
  {
    if ps == [] then 0 else Salaries(ps[..|ps| - 1]) + ps[|ps| - 1].salary
  }

  /** What the greedy loop keeps true: roster size and salary within their limits, every
      slot within its requirement, the slot counts adding up to the roster size, and the
      running salary equal to the roster's salaries. */
  ghost predicate Within(req: Requirements, st: Selection)
  {
    && |st.counts| == |req.slots|
    && |st.players| <= req.totalPlayers
    && st.totalSalary <= req.salaryCap
    && (forall k :: 0 <= k < |st.counts| ==> st.counts[k] <= req.slots[k].required)
    && SumCounts(st.counts) == |st.players|
    && st.totalSalary == Salaries(st.players)
  }

  lemma {:induction false} SumCountsZero(n: nat)
    ensures SumCounts(seq(n, _ => 0)) == 0
  {
    if n > 0 {
      assert seq(n, _ => 0)[..n - 1] == seq(n - 1, _ => 0);
      SumCountsZero(n - 1);
    }
  }

  lemma {:induction false} SumCountsUpdate(c: seq<nat>, k: int, v: nat)
    requires 0 <= k < |c|
    ensures SumCounts(c[k := v]) == SumCounts(c) - c[k] + v
  {
    var n := |c| - 1;
    if k < n {
      assert c[k := v][..n] == c[..n][k := v];
      SumCountsUpdate(c[..n], k, v);
    } else {
      assert c[k := v][..n] == c[..n];
    }
  }

  lemma InitialWithin(req: Requirements)
    requires req.salaryCap >= 0
    ensures Within(req, Initial(req))
  {
    SumCountsZero(|req.slots|);
  }

  lemma ConsiderWithin(req: Requirements, st: Selection, p: DfsPlayerValue)
    requires Within(req, st) && |st.players| < req.totalPlayers
    ensures Within(req, Consider(req, st, p))
  {
    if st.totalSalary + p.salary <= req.salaryCap {
      var k := OpenSlot(req.slots, st.counts, p.position);
      if k >= 0 {
        SumCountsUpdate(st.counts, k, st.counts[k] + 1);
        assert (st.players + [p])[..|st.players|] == st.players;
      }
    }
  }

  lemma {:induction false} GreedyWithin(req: Requirements, st: Selection, ps: seq<DfsPlayerValue>)
    requires Within(req, st)
    ensures Within(req, Greedy(req, st, ps))
    decreases |ps|
  {
    if ps != [] && |st.players| < req.totalPlayers {
      ConsiderWithin(req, st, ps[0]);
      GreedyWithin(req, Consider(req, st, ps[0]), ps[1..]);
    }
  }

  /** Every selected player comes from the input. */
  lemma {:induction false} GreedyDrawsFromInput(req: Requirements, st: Selection, ps: seq<DfsPlayerValue>)
    requires |st.counts| == |req.slots|
    ensures forall p :: p in Greedy(req, st, ps).players ==> p in st.players || p in ps
    decreases |ps|
  {
    if ps != [] && |st.players| < req.totalPlayers {
      GreedyDrawsFromInput(req, Consider(req, st, ps[0]), ps[1..]);
      assert forall p :: p in ps[1..] ==> p in ps;
    }
  }

  lemma {:induction false} FullMeansExact(c: seq<nat>, slots: seq<Slot>)
    requires |c| == |slots|
    requires forall k :: 0 <= k < |c| ==> c[k] <= slots[k].required
    requires SumCounts(c) == Required(slots)
    ensures forall k :: 0 <= k < |c| ==> c[k] == slots[k].required
  {
    if c != [] {
      var n := |c| - 1;
      SumCountsAtMost(c[..n], slots[..n]);
      FullMeansExact(c[..n], slots[..n]);
    }
  }

  lemma {:induction false} SumCountsAtMost(c: seq<nat>, slots: seq<Slot>)
    requires |c| == |slots|
    requires forall k :: 0 <= k < |c| ==> c[k] <= slots[k].required
    ensures SumCounts(c) <= Required(slots)
  {
    if c != [] {
      var n := |c| - 1;
      SumCountsAtMost(c[..n], slots[..n]);
    }
  }

  /** A full roster fills every slot exactly: the counts cannot exceed their requirements
      and add up to the roster size, which is the sum of the requirements. */
  lemma FullRosterFillsEverySlot(req: Requirements, st: Selection)
    requires Consistent(req) && Within(req, st) && |st.players| == req.totalPlayers
    ensures forall k :: 0 <= k < |req.slots| ==> st.counts[k] == req.slots[k].required
  {
    FullMeansExact(st.counts, req.slots);
  }

  // ---------------------------------------------------------------------------
  // One lineup.

  datatype DfsLineup = DfsLineup(
    players: seq<DfsPlayerValue>,
    totalSalary: int,
    projectedPoints: real,
    valueScore: real,
    riskScore: real,
    lineupType: string)

  /** The composite score `value_weight·value + ceiling_weight·projected/10`. */
  function Composite(valueWeight: real, ceilingWeight: real): DfsPlayerValue -> real
  {
    (p: DfsPlayerValue) => valueWeight * p.valueScore + ceilingWeight * (p.projectedPoints / 10.0)
  }

  function Projections(ps: seq<DfsPlayerValue>): (r: seq<real>)
    ensures |r| == |ps| && forall i :: 0 <= i < |ps| ==> r[i] == ps[i].projectedPoints
  {
    seq(|ps|, i requires 0 <= i < |ps| => ps[i].projectedPoints)
  }

  function Confidences(ps: seq<DfsPlayerValue>): (r: seq<real>)
    ensures |r| == |ps| && forall i :: 0 <= i < |ps| ==> r[i] == ps[i].confidenceScore
  {
    seq(|ps|, i requires 0 <= i < |ps| => ps[i].confidenceScore)
  }

  /** `_calculate_risk_score`: 50 for no players, otherwise 100 minus the average confidence,
      clamped to [0, 100]. */
  function RiskScore(ps: seq<DfsPlayerValue>): (r: real)
    ensures 0.0 <= r <= 100.0
    ensures ps == [] ==> r == 50.0
  {
    if ps == [] then 50.0
    else Clamp(100.0 - Sum(Confidences(ps)) / (|ps| as real), 0.0, 100.0)
  }

  lemma {:induction false} SumAtLeast(s: seq<real>, c: real)
    requires forall i :: 0 <= i < |s| ==> s[i] >= c
    ensures Sum(s) >= (|s| as real) * c
  {
    if s != [] {
      SumAtLeast(s[..|s| - 1], c);
    }
  }

  lemma {:induction false} SumAtMost(s: seq<real>, c: real)
    requires forall i :: 0 <= i < |s| ==> s[i] <= c
    ensures Sum(s) <= (|s| as real) * c
  {
    if s != [] {
      SumAtMost(s[..|s| - 1], c);
    }
  }

  lemma AverageBounds(total: real, n: real, lo: real, hi: real)
    requires n > 0.0 && n * lo <= total <= n * hi
    ensures lo <= total / n <= hi
  {
  }

  /** When every confidence lies in [lo, hi] within [0, 100], the risk lies in
      [100 - hi, 100 - lo]: confident lineups are safe ones. */
  lemma RiskFollowsConfidence(ps: seq<DfsPlayerValue>, lo: real, hi: real)
    requires ps != [] && 0.0 <= lo <= hi <= 100.0
    requires forall i :: 0 <= i < |ps| ==> lo <= ps[i].confidenceScore <= hi
    ensures 100.0 - hi <= RiskScore(ps) <= 100.0 - lo
  {
    var cs := Confidences(ps);
    SumAtLeast(cs, lo);
    SumAtMost(cs, hi);
    AverageBounds(Sum(cs), |ps| as real, lo, hi);
  }

  predicate PositiveSalaries(ps: seq<DfsPlayerValue>)
  {
    forall p :: p in ps ==> p.salary > 0
  }

  lemma {:induction false} SalariesPositive(ps: seq<DfsPlayerValue>)
    requires ps != [] && PositiveSalaries(ps)
    ensures Salaries(ps) > 0
  {
    var n := |ps| - 1;
    if n > 0 {
      assert forall p :: p in ps[..n] ==> p in ps;
      SalariesPositive(ps[..n]);
    }
  }

  /** The greedy result on the players sorted by composite score, from a consistent
      requirement table, with positive salaries. */
  lemma GreedyFacts(req: Requirements, ordered: seq<DfsPlayerValue>)
    requires Consistent(req) && PositiveSalaries(ordered)
    ensures var st := Greedy(req, Initial(req), ordered);
      && Within(req, st)
      && PositiveSalaries(st.players)
      && (st.players != [] ==> st.totalSalary > 0)
  {
    var st := Greedy(req, Initial(req), ordered);
    InitialWithin(req);
    GreedyWithin(req, Initial(req), ordered);
    GreedyDrawsFromInput(req, Initial(req), ordered);
    if st.players != [] {
      SalariesPositive(st.players);
    }
  }

  /** `_generate_lineup`: the full lineup picked greedily in composite-score order, or `None`
      when the greedy pass ends with fewer than `total_players`. */
  function Lineup(players: seq<DfsPlayerValue>, req: Requirements, lineupType: string,
                  valueWeight: real, ceilingWeight: real): Option<DfsLineup>
    requires Consistent(req) && PositiveSalaries(players)
  {
    var ordered := SortDesc(players, Composite(valueWeight, ceilingWeight));
    SortDescCorrect(players, Composite(valueWeight, ceilingWeight));
    SortedPositive(players, ordered);
    GreedyFacts(req, ordered);
    var st := Greedy(req, Initial(req), ordered);
    if |st.players| == req.totalPlayers then
      var projected := Sum(Projections(st.players));
      Some(DfsLineup(st.players, st.totalSalary, projected,
                     projected / ((st.totalSalary as real) / 1000.0), RiskScore(st.players), lineupType))
    else None
  }

  lemma SameMembers(players: seq<DfsPlayerValue>, ordered: seq<DfsPlayerValue>)
    requires multiset(ordered) == multiset(players)
    ensures forall p :: p in ordered <==> p in players
  {
    forall p
      ensures p in ordered <==> p in players
    {
      assert p in ordered <==> p in multiset(ordered);
      assert p in players <==> p in multiset(players);
    }
  }

  lemma SortedPositive(players: seq<DfsPlayerValue>, ordered: seq<DfsPlayerValue>)
    requires PositiveSalaries(players) && multiset(ordered) == multiset(players)
    ensures PositiveSalaries(ordered)
  {
    SameMembers(players, ordered);
  }

  method GenerateLineup(players: seq<DfsPlayerValue>, req: Requirements, lineupType: string,
                        valueWeight: real, ceilingWeight: real) returns (lineup: Option<DfsLineup>)
    requires Consistent(req) && PositiveSalaries(players)
    ensures lineup == Lineup(players, req, lineupType, valueWeight, ceilingWeight)
  {
    var ordered := SortDesc(players, Composite(valueWeight, ceilingWeight));
    SortDescCorrect(players, Composite(valueWeight, ceilingWeight));
    SortedPositive(players, ordered);
    GreedyFacts(req, ordered);
    var st := SelectGreedily(req, ordered);
    if |st.players| == req.totalPlayers {
      var projected := Sum(Projections(st.players));
      var value := projected / ((st.totalSalary as real) / 1000.0);
      var risk := RiskScore(st.players);
      return Some(DfsLineup(st.players, st.totalSalary, projected, value, risk, lineupType));
    }
    return None;
  }

  /** The greedy loop, which updates `selected_players`, `total_salary` and
      `position_counts` player by player. */
  method SelectGreedily(req: Requirements, ordered: seq<DfsPlayerValue>) returns (st: Selection)
    ensures st == Greedy(req, Initial(req), ordered)
  {
    var selected: seq<DfsPlayerValue> := [];
    var totalSalary := 0;
    var counts: seq<nat> := seq(|req.slots|, _ => 0);
    var i := 0;
    while i < |ordered|
      invariant 0 <= i <= |ordered|
      invariant |counts| == |req.slots|
      invariant Greedy(req, Initial(req), ordered) == Greedy(req, Selection(selected, totalSalary, counts), ordered[i..])
    {
      if |selected| >= req.totalPlayers {
        break;
      }
      assert ordered[i..][1..] == ordered[i + 1..];
      var p := ordered[i];
      if totalSalary + p.salary > req.salaryCap {
        i := i + 1;
        continue;
      }
      var k := FindSlot(req.slots, counts, p.position);
      if k >= 0 {
        counts := counts[k := counts[k] + 1];
        selected := selected + [p];
        totalSalary := totalSalary + p.salary;
      }
      i := i + 1;
    }
    st := Selection(selected, totalSalary, counts);
  }

  /** A generated lineup has exactly `total_players` players drawn from the input, keeps to
      the cap, and carries the sum of its players' salaries and projections. */
  lemma LineupProperties(players: seq<DfsPlayerValue>, req: Requirements, lineupType: string,
                         valueWeight: real, ceilingWeight: real)
    requires Consistent(req) && PositiveSalaries(players)
    ensures var r := Lineup(players, req, lineupType, valueWeight, ceilingWeight);
      r.Some? ==>
        && |r.value.players| == req.totalPlayers
        && (forall p :: p in r.value.players ==> p in players)
        && 0 < r.value.totalSalary <= req.salaryCap
        && r.value.totalSalary == Salaries(r.value.players)
        && r.value.projectedPoints == Sum(Projections(r.value.players))
        && r.value.lineupType == lineupType
  {
    var ordered := SortDesc(players, Composite(valueWeight, ceilingWeight));
    SortDescCorrect(players, Composite(valueWeight, ceilingWeight));
    SortedPositive(players, ordered);
    GreedyFacts(req, ordered);
    GreedyDrawsFromInput(req, Initial(req), ordered);
    SameMembers(players, ordered);
  }

  /** Its value score is its projection per thousand of salary, and its risk lies in
      [0, 100]. */
  lemma LineupScores(players: seq<DfsPlayerValue>, req: Requirements, lineupType: string,
                     valueWeight: real, ceilingWeight: real)
    requires Consistent(req) && PositiveSalaries(players)
    ensures var r := Lineup(players, req, lineupType, valueWeight, ceilingWeight);
      r.Some? ==>
        && r.value.valueScore * ((r.value.totalSalary as real) / 1000.0) == r.value.projectedPoints
        && 0.0 <= r.value.riskScore <= 100.0
  {
    var r := Lineup(players, req, lineupType, valueWeight, ceilingWeight);
    if r.Some? {
      LineupProperties(players, req, lineupType, valueWeight, ceilingWeight);
      var d := (r.value.totalSalary as real) / 1000.0;
      assert r.value.valueScore == r.value.projectedPoints / d;
      assert r.value.riskScore == RiskScore(r.value.players);
      QuotientTimesDivisor(r.value.projectedPoints, d);
    }
  }

  /** The slots of a generated lineup: the greedy pass ends with every slot filled exactly
      when it returns a lineup, and with fewer players than slots otherwise. */
  lemma LineupSlots(players: seq<DfsPlayerValue>, req: Requirements, lineupType: string,
                    valueWeight: real, ceilingWeight: real)
    requires Consistent(req) && PositiveSalaries(players)
    ensures var ordered := SortDesc(players, Composite(valueWeight, ceilingWeight));
      var st := Greedy(req, Initial(req), ordered);
      && (Lineup(players, req, lineupType, valueWeight, ceilingWeight).Some? ==>
            forall k :: 0 <= k < |req.slots| ==> st.counts[k] == req.slots[k].required)
      && (Lineup(players, req, lineupType, valueWeight, ceilingWeight).None? ==>
            |st.players| < req.totalPlayers)
  {
    var ordered := SortDesc(players, Composite(valueWeight, ceilingWeight));
    SortDescCorrect(players, Composite(valueWeight, ceilingWeight));
    SortedPositive(players, ordered);
    GreedyFacts(req, ordered);
    var st := Greedy(req, Initial(req), ordered);
    if |st.players| == req.totalPlayers {
      FullRosterFillsEverySlot(req, st);
    }
  }

  // ---------------------------------------------------------------------------
  // Near-duplicates and the lineup set.

  function Names(ps: seq<DfsPlayerValue>): set<string>
  {
    set i | 0 <= i < |ps| :: ps[i].playerName
  }

  /** `candidate` shares at least 75% of its distinct names with `earlier`. */
  predicate NearDuplicate(candidate: DfsLineup, earlier: DfsLineup)
  {
    (|Names(candidate.players) * Names(earlier.players)| as real) >= (|Names(candidate.players)| as real) * 0.75
  }

  /** `_is_duplicate_lineup`: some existing lineup is a near-duplicate of the new one. */
  function IsDuplicate(candidate: DfsLineup, existing: seq<DfsLineup>): (r: bool)
    ensures existing == [] ==> !r
    ensures r <==> exists j :: 0 <= j < |existing| && NearDuplicate(candidate, existing[j])
  {
    if existing == [] then false
    else IsDuplicate(candidate, existing[..|existing| - 1]) || NearDuplicate(candidate, existing[|existing| - 1])
  }

  /** Every lineup is a near-duplicate of itself. */
  lemma SelfDuplicate(x: DfsLineup)
    ensures NearDuplicate(x, x)
  {
    var n := Names(x.players);
    assert n * n == n;
  }

  datatype LineupType = LineupType(name: string, valueWeight: real, ceilingWeight: real)

  const LineupTypes: seq<LineupType> :=
    [LineupType("cash", 0.8, 0.2), LineupType("gpp", 0.5, 0.5), LineupType("balanced", 0.65, 0.35)]

  function Repeat(x: LineupType, k: nat): (r: seq<LineupType>)
    ensures |r| == k && forall j :: 0 <= j < k ==> r[j] == x
  {
    if k == 0 then [] else [x] + Repeat(x, k - 1)
  }

  /** `n` attempts of each lineup type from the `t`-th on, in type order. */
  function AttemptsFrom(t: nat, n: nat): seq<LineupType>
    decreases 3 - t
  {
    if t >= |LineupTypes| then [] else Repeat(LineupTypes[t], n) + AttemptsFrom(t + 1, n)
  }

  /** The attempts the nested loops make: `count / 3 + 1` of each type. */
  function Attempts(count: nat): seq<LineupType>
  {
    AttemptsFrom(0, count / 3 + 1)
  }

  /** The new lineup is appended unless it is missing or a near-duplicate. */
  function Accept(acc: seq<DfsLineup>, g: Option<DfsLineup>): seq<DfsLineup>
  {
    if g.Some? && !IsDuplicate(g.value, acc) then acc + [g.value] else acc
  }

  /** The attempts in order, stopping right after the one that brings the list to `count`. */
  function Run(viable: seq<DfsPlayerValue>, req: Requirements, count: nat,
               attempts: seq<LineupType>, acc: seq<DfsLineup>): seq<DfsLineup>
    requires Consistent(req) && PositiveSalaries(viable)
    decreases |attempts|
  {
    if attempts == [] then acc
    else
      var a := attempts[0];
      var next := Accept(acc, Lineup(viable, req, a.name, a.valueWeight, a.ceilingWeight));
      if |next| >= count then next else Run(viable, req, count, attempts[1..], next)
  }

  /** Players with a value score of at least 2.0, in order. */
  function Viable(ps: seq<DfsPlayerValue>): (r: seq<DfsPlayerValue>)
    ensures |r| <= |ps|
    ensures forall p :: p in r <==> p in ps && p.valueScore >= 2.0
  {
    if ps == [] then []
    else Viable(ps[..|ps| - 1]) + (if ps[|ps| - 1].valueScore >= 2.0 then [ps[|ps| - 1]] else [])
  }

  function ProjectedKey(l: DfsLineup): real
  {
    l.projectedPoints
  }

  function Take<T>(s: seq<T>, n: nat): (r: seq<T>)
    ensures |r| <= n && |r| <= |s| && r == s[..|r|]
    ensures |s| <= n ==> r == s
  {
    if |s| <= n then s else s[..n]
  }

  /** `optimize_lineups`, as a specification: nothing for an unsupported sport or too few
      viable players, and never more than `lineup_count` lineups. */
  function Optimized(players: seq<DfsPlayerValue>, sport: string, count: nat): (r: seq<DfsLineup>)
    requires PositiveSalaries(players)
    ensures RequirementsFor(sport).None? ==> r == []
    ensures RequirementsFor(sport).Some? && |Viable(players)| < RequirementsFor(sport).value.totalPlayers ==> r == []
    ensures |r| <= count
  {
    var req := RequirementsFor(sport);
    if req.None? then []
    else
      var viable := Viable(players);
      if |viable| < req.value.totalPlayers then []
      else Take(SortDesc(Run(viable, req.value, count, Attempts(count), []), ProjectedKey), count)
  }

  /** The inner loop: `n` attempts of one lineup type, stopping once the list reaches
      `count`; `rest` stands for the attempts that would follow. */
  method AttemptType(viable: seq<DfsPlayerValue>, req: Requirements, count: nat, lt: LineupType, n: nat,
                     lineups: seq<DfsLineup>, ghost rest: seq<LineupType>)
    returns (out: seq<DfsLineup>, stop: bool)
    requires Consistent(req) && PositiveSalaries(viable) && n > 0
    ensures stop <==> |out| >= count
    ensures stop ==> out == Run(viable, req, count, Repeat(lt, n) + rest, lineups)
    ensures !stop ==> Run(viable, req, count, Repeat(lt, n) + rest, lineups) == Run(viable, req, count, rest, out)
  {
    ghost var all := Repeat(lt, n) + rest;
    out := lineups;
    var i := 0;
    while i < n
      invariant 0 <= i <= n
      invariant Run(viable, req, count, all, lineups) == Run(viable, req, count, all[i..], out)
      invariant i > 0 ==> |out| < count
    {
      assert all[i..][0] == lt;
      assert all[i..][1..] == all[i + 1..];
      RunStep(viable, req, count, all[i..], out);
      var lineup := GenerateLineup(viable, req, lt.name, lt.valueWeight, lt.ceilingWeight);
      if lineup.Some? && !IsDuplicate(lineup.value, out) {
        out := out + [lineup.value];
      }
      if |out| >= count {
        return out, true;
      }
      i := i + 1;
    }
    assert all[n..] == rest;
    stop := false;
  }

  lemma RunStep(viable: seq<DfsPlayerValue>, req: Requirements, count: nat,
                attempts: seq<LineupType>, acc: seq<DfsLineup>)
    requires Consistent(req) && PositiveSalaries(viable) && attempts != []
    ensures var a := attempts[0];
      var next := Accept(acc, Lineup(viable, req, a.name, a.valueWeight, a.ceilingWeight));
      Run(viable, req, count, attempts, acc) == if |next| >= count then next else Run(viable, req, count, attempts[1..], next)
  {
  }

  method OptimizeLineups(players: seq<DfsPlayerValue>, sport: string, count: nat) returns (lineups: seq<DfsLineup>)
    requires PositiveSalaries(players)
    ensures lineups == Optimized(players, sport, count)
  {
    var req := RequirementsFor(sport);
    if req.None? {
      return [];
    }
    var requirements := req.value;
    var viable := Viable(players);
    if |viable| < requirements.totalPlayers {
      return [];
    }
    ghost var result := Run(viable, requirements, count, Attempts(count), []);
    var n := count / 3 + 1;
    lineups := [];
    var t := 0;
    while t < |LineupTypes|
      invariant 0 <= t <= 3
      invariant result == Run(viable, requirements, count, AttemptsFrom(t, n), lineups)
    {
      var stop;
      lineups, stop := AttemptType(viable, requirements, count, LineupTypes[t], n, lineups, AttemptsFrom(t + 1, n));
      if stop {
        break;
      }
      t := t + 1;
    }
    lineups := SortDesc(lineups, ProjectedKey);
    lineups := Take(lineups, count);
  }

  // ---------------------------------------------------------------------------
  // What the lineup set is.

  /** No lineup is a near-duplicate of one accepted before it. */
  ghost predicate NoNearDuplicates(acc: seq<DfsLineup>)
  {
    forall i, j :: 0 <= i < j < |acc| ==> !NearDuplicate(acc[j], acc[i])
  }

  /** The lineup each type generates. */
  function Generated(viable: seq<DfsPlayerValue>, req: Requirements): set<Option<DfsLineup>>
    requires Consistent(req) && PositiveSalaries(viable)
  {
    var a := LineupTypes[0];
    var b := LineupTypes[1];
    var c := LineupTypes[2];
    {Lineup(viable, req, a.name, a.valueWeight, a.ceilingWeight),
     Lineup(viable, req, b.name, b.valueWeight, b.ceilingWeight),
     Lineup(viable, req, c.name, c.valueWeight, c.ceilingWeight)}
  }

  ghost predicate AllGenerated(acc: seq<DfsLineup>, viable: seq<DfsPlayerValue>, req: Requirements)
    requires Consistent(req) && PositiveSalaries(viable)
  {
    forall i :: 0 <= i < |acc| ==> Some(acc[i]) in Generated(viable, req)
  }

  lemma {:induction false} AttemptsFromTypes(t: nat, n: nat)
    ensures forall a :: a in AttemptsFrom(t, n) ==> a in LineupTypes
    decreases 3 - t
  {
    if t < |LineupTypes| {
      AttemptsFromTypes(t + 1, n);
    }
  }

  lemma AcceptKeeps(acc: seq<DfsLineup>, g: Option<DfsLineup>)
    requires NoNearDuplicates(acc)
    ensures NoNearDuplicates(Accept(acc, g))
  {
    if g.Some? && !IsDuplicate(g.value, acc) {
      var r := acc + [g.value];
      forall i, j | 0 <= i < j < |r|
        ensures !NearDuplicate(r[j], r[i])
      {
        if j == |acc| {
          assert r[i] == acc[i];
        }
      }
    }
  }

  lemma {:induction false} RunKeeps(viable: seq<DfsPlayerValue>, req: Requirements, count: nat,
                                    attempts: seq<LineupType>, acc: seq<DfsLineup>)
    requires Consistent(req) && PositiveSalaries(viable)
    requires forall a :: a in attempts ==> a in LineupTypes
    requires NoNearDuplicates(acc) && AllGenerated(acc, viable, req)
    ensures var r := Run(viable, req, count, attempts, acc);
      NoNearDuplicates(r) && AllGenerated(r, viable, req)
    decreases |attempts|
  {
    if attempts != [] {
      var a := attempts[0];
      var g := Lineup(viable, req, a.name, a.valueWeight, a.ceilingWeight);
      var next := Accept(acc, g);
      AcceptKeeps(acc, g);
      assert a in LineupTypes;
      assert g in Generated(viable, req);
      assert AllGenerated(next, viable, req);
      assert forall x :: x in attempts[1..] ==> x in attempts;
      RunKeeps(viable, req, count, attempts[1..], next);
    }
  }

  lemma {:induction false} DistinctWithin(acc: seq<DfsLineup>, s: set<Option<DfsLineup>>)
    requires forall i, j :: 0 <= i < j < |acc| ==> acc[i] != acc[j]
    requires forall i :: 0 <= i < |acc| ==> Some(acc[i]) in s
    ensures |acc| <= |s|
  {
    if acc != [] {
      var n := |acc| - 1;
      DistinctWithin(acc[..n], s - {Some(acc[n])});
    }
  }

  lemma AtMostThree(acc: seq<DfsLineup>, viable: seq<DfsPlayerValue>, req: Requirements)
    requires Consistent(req) && PositiveSalaries(viable)
    requires NoNearDuplicates(acc) && AllGenerated(acc, viable, req)
    ensures |acc| <= 3
  {
    forall i, j | 0 <= i < j < |acc|
      ensures acc[i] != acc[j]
    {
      SelfDuplicate(acc[i]);
    }
    DistinctWithin(acc, Generated(viable, req));
  }

  /** For a supported sport it returns at most `lineup_count` lineups, highest projection first, each
      one the lineup some type generates. Since every attempt of a type generates the same
      lineup and a lineup is a near-duplicate of itself, there are never more than three. */
  lemma OptimizedProperties(players: seq<DfsPlayerValue>, sport: string, count: nat)
    requires PositiveSalaries(players) && RequirementsFor(sport).Some?
    ensures var r := Optimized(players, sport, count);
      && |r| <= count && |r| <= 3
      && SortedDesc(r, ProjectedKey)
      && AllGenerated(r, Viable(players), RequirementsFor(sport).value)
  {
    var req := RequirementsFor(sport).value;
    var viable := Viable(players);
    if |viable| >= req.totalPlayers {
      var run := Run(viable, req, count, Attempts(count), []);
      AttemptsFromTypes(0, count / 3 + 1);
      RunKeeps(viable, req, count, Attempts(count), []);
      AtMostThree(run, viable, req);
      var sorted := SortDesc(run, ProjectedKey);
      SortDescCorrect(run, ProjectedKey);
      TakeSorted(sorted, count, run, viable, req);
    }
  }

  lemma TakeSorted(sorted: seq<DfsLineup>, count: nat, run: seq<DfsLineup>,
                   viable: seq<DfsPlayerValue>, req: Requirements)
    requires Consistent(req) && PositiveSalaries(viable)
    requires SortedDesc(sorted, ProjectedKey) && multiset(sorted) == multiset(run)
    requires AllGenerated(run, viable, req)
    ensures SortedDesc(Take(sorted, count), ProjectedKey)
    ensures |Take(sorted, count)| <= |run|
    ensures AllGenerated(Take(sorted, count), viable, req)
  {
    var r := Take(sorted, count);
    assert |sorted| == |multiset(run)| == |run|;
    forall i | 0 <= i < |r|
      ensures Some(r[i]) in Generated(viable, req)
    {
      assert r[i] == sorted[i];
      assert sorted[i] in multiset(run);
      var k :| 0 <= k < |run| && run[k] == sorted[i];
    }
  }

  /** Before the final sort, no accepted lineup is a near-duplicate of an earlier one. */
  lemma AcceptedNotNearDuplicates(viable: seq<DfsPlayerValue>, req: Requirements, count: nat)
    requires Consistent(req) && PositiveSalaries(viable)
    ensures NoNearDuplicates(Run(viable, req, count, Attempts(count), []))
  {
    AttemptsFromTypes(0, count / 3 + 1);
    RunKeeps(viable, req, count, Attempts(count), []);
  }
}
