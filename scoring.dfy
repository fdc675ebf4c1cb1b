/** `_calculate_dfs_points` of the NBA demo tool and of the WNBA data source: the stats dict
    weighted by a scoring table (a stat the table lacks weighs 0), rounded to cents. */
module Scoring {
  import opened Numeric

  /** One entry of a stats dict, in the dict's order. */
  datatype Stat = Stat(name: string, value: real)

  /** The demo tool's NBA table. */
  const DemoScoring: map<string, real> := map[
    "points" := 1.0, "rebounds" := 1.2, "assists" := 1.5, "steals" := 3.0,
    "blocks" := 3.0, "turnovers" := -1.0, "three_pointers" := 0.5]

  /** The WNBA table, which has no entry for three-pointers. */
  const WnbaScoring: map<string, real> := map[
    "points" := 1.0, "rebounds" := 1.2, "assists" := 1.5, "steals" := 3.0,
    "blocks" := 3.0, "turnovers" := -1.0]

  /** `dfs_scoring.get(stat, 0)`. */
  function Multiplier(table: map<string, real>, stat: string): (w: real)
    ensures stat !in table ==> w == 0.0
  {
    if stat in table then table[stat] else 0.0
  }

  /** The unrounded total. */
  function Weighted(stats: seq<Stat>, table: map<string, real>): real
  {
    if stats == [] then 0.0
    else Weighted(stats[..|stats| - 1], table) + stats[|stats| - 1].value * Multiplier(table, stats[|stats| - 1].name)
  }

  /** The rounded total, within half a cent of the unrounded one. */
  function DfsPoints(stats: seq<Stat>, table: map<string, real>): (points: real)
    ensures -0.005 < points - Weighted(stats, table) <= 0.005
  {
    assert Pow10(2) == 100;
    Round(Weighted(stats, table), 2)
  }

  /** The accumulator loop. */
  method CalculateDfsPoints(stats: seq<Stat>, table: map<string, real>) returns (points: real)
    ensures points == DfsPoints(stats, table)
  {
    var total := 0.0;
    var i := 0;
    while i < |stats|
      invariant 0 <= i <= |stats|
      invariant total == Weighted(stats[..i], table)
    {
      assert stats[..i + 1][..i] == stats[..i];
      var multiplier := Multiplier(table, stats[i].name);
      total := total + stats[i].value * multiplier;
      i := i + 1;
    }
    assert stats[..i] == stats;
    points := Round(total, 2);
  }

  /** The total splits over a concatenation of stats dicts. */
  lemma {:induction false} WeightedAppend(a: seq<Stat>, b: seq<Stat>, table: map<string, real>)
    ensures Weighted(a + b, table) == Weighted(a, table) + Weighted(b, table)
  {
    if b != [] {
      var n := |b| - 1;
      assert (a + b)[..|a + b| - 1] == a + b[..n];
      WeightedAppend(a, b[..n], table);
    } else {
      assert a + b == a;
    }
  }

  /** So the order of the stats does not matter. */
  lemma WeightedOrderFree(a: seq<Stat>, b: seq<Stat>, table: map<string, real>)
    ensures Weighted(a + b, table) == Weighted(b + a, table)
  {
    WeightedAppend(a, b, table);
    WeightedAppend(b, a, table);
  }

  /** Stats the table does not know add nothing. */
  lemma {:induction false} UnknownStatsIgnored(stats: seq<Stat>, table: map<string, real>)
    requires forall i :: 0 <= i < |stats| ==> stats[i].name !in table
    ensures Weighted(stats, table) == 0.0
  {
    if stats != [] {
      UnknownStatsIgnored(stats[..|stats| - 1], table);
    }
  }

  /** The WNBA table gives three-pointers no weight; the demo table gives them 0.5. */
  lemma ThreePointersOnlyInDemo(stats: seq<Stat>, v: real)
    ensures Weighted(stats + [Stat("three_pointers", v)], WnbaScoring) == Weighted(stats, WnbaScoring)
    ensures Weighted(stats + [Stat("three_pointers", v)], DemoScoring) == Weighted(stats, DemoScoring) + 0.5 * v
  {
    var s := stats + [Stat("three_pointers", v)];
    assert s[..|s| - 1] == stats;
  }
}
