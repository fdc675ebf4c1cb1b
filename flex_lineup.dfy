/** The greedy eight-slot lineup shared by `create_optimal_lineup` of the NBA demo tool and of
    the WNBA analyzer: players in the given order, one PG, SG, SF, PF, C, G, F and UTIL slot
    each, a salary cap, and flex slots tried after the player's own position (G for PG and
    SG, F for SF and PF, then UTIL). The two copies differ in one test: the demo tool reads
    the slot of the player's position directly, which raises `KeyError` for a position that
    is not a slot, while the WNBA analyzer first checks that the position is a slot and
    otherwise goes on to the flex slots. The optimizer's greedy pass in `LineupOptimizer` is a
    separate engine because its slots and counts come from a per-sport requirements dict
    scanned in order, not from this fixed slot list. */
module FlexLineup {
  import opened Numeric
  import opened Seqs

  datatype Rules = Demo | Wnba

  /** The keys of `position_requirements`; each slot takes one player. */
  datatype Slot = PG | SG | SF | PF | C | G | F | UTIL

  const Slots: seq<Slot> := [PG, SG, SF, PF, C, G, F, UTIL]

  const RosterSize: nat := 8

  /** The slot whose key is the position string, if any. */
  function SlotNamed(pos: string): (r: Option<Slot>)
    ensures r.Some? <==> pos in ["PG", "SG", "SF", "PF", "C", "G", "F", "UTIL"]
  {
    if pos == "PG" then Some(PG)
    else if pos == "SG" then Some(SG)
    else if pos == "SF" then Some(SF)
    else if pos == "PF" then Some(PF)
    else if pos == "C" then Some(C)
    else if pos == "G" then Some(G)
    else if pos == "F" then Some(F)
    else if pos == "UTIL" then Some(UTIL)
    else None
  }

  /** `position_filled` has every slot as a key. */
  ghost predicate SlotKeys(filled: map<Slot, nat>)
  {
    forall s: Slot :: s in filled
  }

  datatype Placement = Take(slot: Slot) | NoRoom | UnknownPosition

  /** The slot a player of position `pos` takes, if any, or the `KeyError` of the demo tool. */
  function Place(rules: Rules, filled: map<Slot, nat>, pos: string): (r: Placement)
    requires SlotKeys(filled)
    ensures r.Take? ==> filled[r.slot] < 1
    ensures r.Take? ==> Some(r.slot) == SlotNamed(pos) || (r.slot == G && (pos == "PG" || pos == "SG"))
                        || (r.slot == F && (pos == "SF" || pos == "PF")) || r.slot == UTIL
    ensures r.UnknownPosition? <==> rules.Demo? && SlotNamed(pos).None?
    ensures rules.Wnba? && SlotNamed(pos).None? ==> r == Take(UTIL) || r == NoRoom
    ensures SlotNamed(pos).Some? && filled[SlotNamed(pos).value] < 1 ==> r == Take(SlotNamed(pos).value)
  {
    var named := SlotNamed(pos);
    if named.None? && rules.Demo? then UnknownPosition
    else if named.Some? && filled[named.value] < 1 then Take(named.value)
    else if (named == Some(PG) || named == Some(SG)) && filled[G] < 1 then Take(G)
    else if (named == Some(SF) || named == Some(PF)) && filled[F] < 1 then Take(F)
    else if filled[UTIL] < 1 then Take(UTIL)
    else NoRoom
  }

  /** `lineup`, `total_salary` and `position_filled`. */
  datatype Roster<T> = Roster(lineup: seq<T>, totalSalary: int, filled: map<Slot, nat>)

  function Initial<T>(): (r: Roster<T>)
    ensures SlotKeys(r.filled)
  {
    EmptySlotsKeys();
    Roster([], 0, EmptySlots)
  }

  const EmptySlots: map<Slot, nat> := map[PG := 0, SG := 0, SF := 0, PF := 0, C := 0, G := 0, F := 0, UTIL := 0]

  lemma EmptySlotsKeys()
    ensures SlotKeys(EmptySlots)
  {
    forall s: Slot
      ensures s in EmptySlots
    {
      match s
      case PG => case SG => case SF => case PF => case C => case G => case F => case UTIL =>
    }
  }

  /** One player: skipped past the cap or without a slot, otherwise added; `None` when the
      demo tool raises. */
  function Consider<T>(rules: Rules, cap: int, st: Roster<T>, p: T, position: T -> string, salary: T -> int)
    : (r: Option<Roster<T>>)
    requires SlotKeys(st.filled)
    ensures r.Some? ==> SlotKeys(r.value.filled)
  {
    if st.totalSalary + salary(p) > cap then Some(st)
    else
      var place := Place(rules, st.filled, position(p));
      if place.UnknownPosition? then None
      else if place.NoRoom? then Some(st)
      else Some(Roster(st.lineup + [p], st.totalSalary + salary(p),
                       st.filled[place.slot := st.filled[place.slot] + 1]))
  }

  /** The loop over the ordered players, which stops at eight. */
  function Greedy<T>(rules: Rules, cap: int, st: Roster<T>, ps: seq<T>, position: T -> string, salary: T -> int)
    : (r: Option<Roster<T>>)
    requires SlotKeys(st.filled)
    ensures r.Some? ==> SlotKeys(r.value.filled)
    decreases |ps|
  {
    if ps == [] || |st.lineup| >= RosterSize then Some(st)
    else
      var next := Consider(rules, cap, st, ps[0], position, salary);
      if next.None? then None else Greedy(rules, cap, next.value, ps[1..], position, salary)
  }

  lemma GreedyStep<T>(rules: Rules, cap: int, st: Roster<T>, ps: seq<T>, position: T -> string, salary: T -> int)
    requires SlotKeys(st.filled) && ps != [] && |st.lineup| < RosterSize
    ensures var next := Consider(rules, cap, st, ps[0], position, salary);
      Greedy(rules, cap, st, ps, position, salary)
      == if next.None? then None else Greedy(rules, cap, next.value, ps[1..], position, salary)
  {
  }

  function Salaries<T>(ps: seq<T>, salary: T -> int): int
  {
    if ps == [] then 0 else Salaries(ps[..|ps| - 1], salary) + salary(ps[|ps| - 1])
  }

  function Projected<T>(ps: seq<T>, projected: T -> real): real
  {
    if ps == [] then 0.0 else Projected(ps[..|ps| - 1], projected) + projected(ps[|ps| - 1])
  }

  /** The count of filled slots over `keys`. */
  function SumOver(filled: map<Slot, nat>, keys: seq<Slot>): nat
    requires forall k :: k in keys ==> k in filled
  {
    if keys == [] then 0 else SumOver(filled, keys[..|keys| - 1]) + filled[keys[|keys| - 1]]
  }

  /** What the loop keeps: at most eight players, the cap respected once a player is in, every slot taken at
      most once, as many slots taken as players, and the running salary equal to the
      players' salaries. */
  ghost predicate Valid<T>(cap: int, st: Roster<T>, salary: T -> int)
  {
    && SlotKeys(st.filled)
    && |st.lineup| <= RosterSize
    && (st.lineup != [] ==> st.totalSalary <= cap)
    && (forall s :: s in st.filled ==> st.filled[s] <= 1)
    && SumOver(st.filled, Slots) == |st.lineup|
    && st.totalSalary == Salaries(st.lineup, salary)
  }

  lemma {:induction false} SumOverZero(filled: map<Slot, nat>, keys: seq<Slot>)
    requires forall k :: k in keys ==> k in filled && filled[k] == 0
    ensures SumOver(filled, keys) == 0
  {
    if keys != [] {
      SumOverZero(filled, keys[..|keys| - 1]);
    }
  }

  lemma {:induction false} SumOverUpdate(filled: map<Slot, nat>, keys: seq<Slot>, k: Slot, v: nat)
    requires forall x :: x in keys ==> x in filled
    requires k in filled && Distinct(keys)
    ensures SumOver(filled[k := v], keys) == SumOver(filled, keys) - (if k in keys then filled[k] else 0) + (if k in keys then v else 0)
  {
    if keys != [] {
      var n := |keys| - 1;
      assert Distinct(keys[..n]);
      assert k in keys[..n] ==> k != keys[n];
      SumOverUpdate(filled, keys[..n], k, v);
    }
  }

  lemma {:induction false} SumOverAtMost(filled: map<Slot, nat>, keys: seq<Slot>)
    requires forall k :: k in keys ==> k in filled && filled[k] <= 1
    ensures SumOver(filled, keys) <= |keys|
  {
    if keys != [] {
      SumOverAtMost(filled, keys[..|keys| - 1]);
    }
  }

  lemma {:induction false} SumOverFull(filled: map<Slot, nat>, keys: seq<Slot>)
    requires forall k :: k in keys ==> k in filled && filled[k] <= 1
    requires SumOver(filled, keys) == |keys|
    ensures forall k :: k in keys ==> filled[k] == 1
  {
    if keys != [] {
      var n := |keys| - 1;
      SumOverAtMost(filled, keys[..n]);
      SumOverFull(filled, keys[..n]);
      assert forall k :: k in keys ==> k in keys[..n] || k == keys[n];
    }
  }

  lemma SlotsDistinct()
    ensures Distinct(Slots)
  {
  }

  lemma InitialValid<T>(cap: int, salary: T -> int)
    ensures Valid(cap, Initial<T>(), salary)
  {
    SumOverZero(Initial<T>().filled, Slots);
  }

  lemma ConsiderValid<T>(rules: Rules, cap: int, st: Roster<T>, p: T, position: T -> string, salary: T -> int)
    requires Valid(cap, st, salary) && |st.lineup| < RosterSize
    requires Consider(rules, cap, st, p, position, salary).Some?
    ensures Valid(cap, Consider(rules, cap, st, p, position, salary).value, salary)
  {
    if st.totalSalary + salary(p) <= cap {
      var place := Place(rules, st.filled, position(p));
      if place.Take? {
        TakeValid(cap, st, p, place.slot, salary);
      }
    }
  }

  /** Taking an open slot within the cap keeps the invariant. */
  lemma TakeValid<T>(cap: int, st: Roster<T>, p: T, slot: Slot, salary: T -> int)
    requires Valid(cap, st, salary) && |st.lineup| < RosterSize
    requires st.filled[slot] < 1 && st.totalSalary + salary(p) <= cap
    ensures Valid(cap, Roster(st.lineup + [p], st.totalSalary + salary(p), st.filled[slot := st.filled[slot] + 1]),
                  salary)
  {
    var filled := st.filled[slot := st.filled[slot] + 1];
    SlotsDistinct();
    SumOverUpdate(st.filled, Slots, slot, st.filled[slot] + 1);
    SlotInSlots(slot);
    SalariesSnoc(st.lineup, p, salary);
    assert forall s :: s in filled ==> filled[s] <= 1;
  }

  lemma SlotInSlots(s: Slot)
    ensures s in Slots
  {
    match s
    case PG => case SG => case SF => case PF => case C => case G => case F => case UTIL =>
  }

  lemma SalariesSnoc<T>(ps: seq<T>, p: T, salary: T -> int)
    ensures Salaries(ps + [p], salary) == Salaries(ps, salary) + salary(p)
  {
    assert (ps + [p])[..|ps|] == ps;
  }

  lemma {:induction false} GreedyValid<T>(rules: Rules, cap: int, st: Roster<T>, ps: seq<T>,
                                          position: T -> string, salary: T -> int)
    requires Valid(cap, st, salary)
    ensures var r := Greedy(rules, cap, st, ps, position, salary);
      r.Some? ==> Valid(cap, r.value, salary)
    decreases |ps|
  {
    if ps != [] && |st.lineup| < RosterSize {
      var next := Consider(rules, cap, st, ps[0], position, salary);
      if next.Some? {
        ConsiderValid(rules, cap, st, ps[0], position, salary);
        GreedyValid(rules, cap, next.value, ps[1..], position, salary);
      }
    }
  }

  /** Every player the greedy pass holds was held before or comes from the input. */
  lemma {:induction false} GreedyFromInput<T>(rules: Rules, cap: int, st: Roster<T>, ps: seq<T>,
                                              position: T -> string, salary: T -> int)
    requires SlotKeys(st.filled)
    ensures var r := Greedy(rules, cap, st, ps, position, salary);
      r.Some? ==> forall p :: p in r.value.lineup ==> p in st.lineup || p in ps
    decreases |ps|
  {
    if ps != [] && |st.lineup| < RosterSize {
      var next := Consider(rules, cap, st, ps[0], position, salary);
      if next.Some? {
        assert forall p :: p in next.value.lineup ==> p in st.lineup || p == ps[0];
        GreedyFromInput(rules, cap, next.value, ps[1..], position, salary);
        assert forall p :: p in ps[1..] ==> p in ps;
      }
    }
  }

  /** The WNBA rules never raise. */
  lemma {:induction false} WnbaNeverRaises<T>(cap: int, st: Roster<T>, ps: seq<T>, position: T -> string, salary: T -> int)
    requires SlotKeys(st.filled)
    ensures Greedy(Wnba, cap, st, ps, position, salary).Some?
    decreases |ps|
  {
    if ps != [] && |st.lineup| < RosterSize {
      WnbaNeverRaises(cap, Consider(Wnba, cap, st, ps[0], position, salary).value, ps[1..], position, salary);
    }
  }

  /** Neither do the demo rules when every position is a slot name. */
  lemma {:induction false} KnownPositionsNeverRaise<T>(rules: Rules, cap: int, st: Roster<T>, ps: seq<T>,
                                                       position: T -> string, salary: T -> int)
    requires SlotKeys(st.filled)
    requires forall p :: p in ps ==> SlotNamed(position(p)).Some?
    ensures Greedy(rules, cap, st, ps, position, salary).Some?
    decreases |ps|
  {
    if ps != [] && |st.lineup| < RosterSize {
      assert forall p :: p in ps[1..] ==> p in ps;
      KnownPositionsNeverRaise(rules, cap, Consider(rules, cap, st, ps[0], position, salary).value, ps[1..], position, salary);
    }
  }

  // ---------------------------------------------------------------------------
  // The result.

  /** The returned dict. */
  datatype FlexResult<T> = FlexResult(lineup: seq<T>, totalSalary: int, remainingSalary: int,
                                      projectedPoints: real, valueScore: real)

  /** The demo tool's `KeyError`, no full lineup (`None` or `{}`), or the lineup. */
  datatype Outcome<T> = Raised | NoLineup | Built(result: FlexResult<T>)

  ghost predicate PositiveSalaries<T>(ps: seq<T>, salary: T -> int)
  {
    forall p :: p in ps ==> salary(p) > 0
  }

  lemma {:induction false} SalariesPositive<T>(ps: seq<T>, salary: T -> int)
    requires ps != [] && PositiveSalaries(ps, salary)
    ensures Salaries(ps, salary) > 0
  {
    var n := |ps| - 1;
    if n > 0 {
      assert forall p :: p in ps[..n] ==> p in ps;
      SalariesPositive(ps[..n], salary);
    }
  }

  /** The greedy pass keeps `Valid` and draws its players from the input. */
  lemma GreedyFacts<T>(rules: Rules, cap: int, ordered: seq<T>, position: T -> string, salary: T -> int)
    ensures var g := Greedy(rules, cap, Initial(), ordered, position, salary);
      g.Some? ==> Valid(cap, g.value, salary) && (forall p :: p in g.value.lineup ==> p in ordered)
  {
    InitialValid<T>(cap, salary);
    GreedyValid(rules, cap, Initial(), ordered, position, salary);
    GreedyFromInput(rules, cap, Initial(), ordered, position, salary);
  }

  /** The greedy pass and its result: the lineup, with the remaining salary and the average
      value, when exactly eight players were chosen; a zero total salary makes the average
      divide by zero. */
  function Build<T>(rules: Rules, cap: int, ordered: seq<T>, position: T -> string, salary: T -> int,
                    projected: T -> real): Outcome<T>
  {
    var g := Greedy(rules, cap, Initial(), ordered, position, salary);
    if g.None? then Raised
    else if |g.value.lineup| == RosterSize then
      if g.value.totalSalary == 0 then Raised else Built(Result(cap, g.value, projected))
    else NoLineup
  }

  /** The lineup dict of a full roster. */
  function Result<T>(cap: int, st: Roster<T>, projected: T -> real): FlexResult<T>
    requires st.totalSalary != 0
  {
    var total := Projected(st.lineup, projected);
    FlexResult(st.lineup, st.totalSalary, cap - st.totalSalary, total, total / ((st.totalSalary as real) / 1000.0))
  }

  /** One pass of the loop body: skip a player past the cap (`continue`), raise, or take the
      slot `Place` finds. */
  method ConsiderPlayer<T>(rules: Rules, cap: int, st: Roster<T>, p: T, position: T -> string, salary: T -> int)
    returns (r: Option<Roster<T>>)
    requires SlotKeys(st.filled)
    ensures r == Consider(rules, cap, st, p, position, salary)
  {
    if st.totalSalary + salary(p) > cap {
      return Some(st);
    }
    var place := Place(rules, st.filled, position(p));
    if place.UnknownPosition? {
      return None;
    }
    var filled := st.filled;
    var lineup := st.lineup;
    var totalSalary := st.totalSalary;
    if place.Take? {
      filled := filled[place.slot := filled[place.slot] + 1];
      lineup := lineup + [p];
      totalSalary := totalSalary + salary(p);
    }
    return Some(Roster(lineup, totalSalary, filled));
  }

  /** The loop of `create_optimal_lineup`, which updates `lineup`, `total_salary` and
      `position_filled` player by player until eight are chosen; `None` when the demo tool
      raises. */
  method SelectPlayers<T>(rules: Rules, cap: int, ordered: seq<T>, position: T -> string, salary: T -> int)
    returns (r: Option<Roster<T>>)
    ensures r == Greedy(rules, cap, Initial(), ordered, position, salary)
  {
    var st: Roster<T> := Initial();
    var i := 0;
    while i < |ordered|
      invariant 0 <= i <= |ordered|
      invariant SlotKeys(st.filled)
      invariant Greedy(rules, cap, Initial(), ordered, position, salary)
                == Greedy(rules, cap, st, ordered[i..], position, salary)
    {
      if |st.lineup| >= RosterSize {
        break;
      }
      GreedyStep(rules, cap, st, ordered[i..], position, salary);
      assert ordered[i..][1..] == ordered[i + 1..];
      var next := ConsiderPlayer(rules, cap, st, ordered[i], position, salary);
      if next.None? {
        return None;
      }
      st := next.value;
      i := i + 1;
    }
    return Some(st);
  }

  /** `create_optimal_lineup` after the players have been ordered: the greedy pass, then the
      lineup dict when exactly eight players were chosen. */
  method FillLineup<T>(rules: Rules, cap: int, ordered: seq<T>, position: T -> string, salary: T -> int,
                       projected: T -> real) returns (out: Outcome<T>)
    ensures out == Build(rules, cap, ordered, position, salary, projected)
  {
    var g := SelectPlayers(rules, cap, ordered, position, salary);
    if g.None? {
      return Raised;
    }
    var st := g.value;
    if |st.lineup| == RosterSize {
      if st.totalSalary == 0 {
        return Raised;
      }
      var total := Projected(st.lineup, projected);
      var value := total / ((st.totalSalary as real) / 1000.0);
      return Built(FlexResult(st.lineup, st.totalSalary, cap - st.totalSalary, total, value));
    }
    return NoLineup;
  }

  /** A built lineup has eight players from the input, stays within the cap (the remaining
      salary is never negative), and each of its eight slots was taken exactly once; with
      positive salaries its total is positive. */
  lemma BuiltProperties<T>(rules: Rules, cap: int, ordered: seq<T>, position: T -> string, salary: T -> int,
                           projected: T -> real)
    ensures var out := Build(rules, cap, ordered, position, salary, projected);
      out.Built? ==>
        && |out.result.lineup| == RosterSize
        && (forall p :: p in out.result.lineup ==> p in ordered)
        && out.result.totalSalary <= cap
        && out.result.remainingSalary == cap - out.result.totalSalary >= 0
        && out.result.totalSalary == Salaries(out.result.lineup, salary)
        && out.result.projectedPoints == Projected(out.result.lineup, projected)
        && out.result.valueScore * (out.result.totalSalary as real / 1000.0) == out.result.projectedPoints
        && (PositiveSalaries(ordered, salary) ==> out.result.totalSalary > 0)
    ensures var g := Greedy(rules, cap, Initial(), ordered, position, salary);
      Build(rules, cap, ordered, position, salary, projected).Built? ==>
        forall s :: s in Slots ==> g.value.filled[s] == 1
  {
    GreedyFacts(rules, cap, ordered, position, salary);
    var g := Greedy(rules, cap, Initial(), ordered, position, salary);
    if g.Some? && |g.value.lineup| == RosterSize && g.value.totalSalary != 0 {
      FullRoster(cap, g.value, ordered, salary, projected);
    }
  }

  /** The facts about a full roster that the loop's invariant gives. */
  lemma FullRoster<T>(cap: int, st: Roster<T>, ordered: seq<T>, salary: T -> int, projected: T -> real)
    requires Valid(cap, st, salary) && |st.lineup| == RosterSize && st.totalSalary != 0
    requires forall p :: p in st.lineup ==> p in ordered
    ensures var r := Result(cap, st, projected);
      && |r.lineup| == RosterSize
      && (forall p :: p in r.lineup ==> p in ordered)
      && r.totalSalary <= cap
      && r.remainingSalary == cap - r.totalSalary >= 0
      && r.totalSalary == Salaries(r.lineup, salary)
      && r.projectedPoints == Projected(r.lineup, projected)
      && r.valueScore * (r.totalSalary as real / 1000.0) == r.projectedPoints
      && (PositiveSalaries(ordered, salary) ==> r.totalSalary > 0)
    ensures forall s :: s in Slots ==> st.filled[s] == 1
  {
    SumOverFull(st.filled, Slots);
    var total := Projected(st.lineup, projected);
    QuotientTimesDivisor(total, st.totalSalary as real / 1000.0);
    if PositiveSalaries(ordered, salary) {
      SalariesPositive(st.lineup, salary);
    }
  }

  /** Full lineup or nothing: without a raise, the result is a lineup exactly when the greedy
      pass chose eight players, and otherwise it chose fewer. */
  lemma FullOrNothing<T>(rules: Rules, cap: int, ordered: seq<T>, position: T -> string, salary: T -> int,
                         projected: T -> real)
    ensures var out := Build(rules, cap, ordered, position, salary, projected);
      var g := Greedy(rules, cap, Initial(), ordered, position, salary);
      && (out.NoLineup? <==> g.Some? && |g.value.lineup| < RosterSize)
      && (out.Built? <==> g.Some? && |g.value.lineup| == RosterSize && g.value.totalSalary != 0)
  {
    GreedyFacts(rules, cap, ordered, position, salary);
  }

}
