/** The value and prop-confidence rules of the real-data WNBA analyzer. The form and
    consistency factors, drawn uniformly in the source, arrive as parameters. */
module RealWnba {
  import opened Numeric

  /** The fields of a player record that the rules read. */
  datatype PlayerData = PlayerData(ppg: real, rpg: real, apg: real, status: string, salary: int)

  /** One entry of `confidence_scores`, in the table's order. */
  datatype PropConfidence = PropConfidence(propType: string, score: real)

  /** The returned analysis. */
  datatype Analysis = Analysis(projection: real, valueScore: real, formFactor: real, status: string,
                               confidenceScores: seq<PropConfidence>)

  // ---------------------------------------------------------------------------
  // Projection and value.

  /** `status_multiplier.get(status, 1.0)`. */
  function StatusMultiplier(status: string): (m: real)
    ensures 0.0 <= m <= 1.0
    ensures status == "Out" <==> m == 0.0
    ensures status != "Questionable" && status != "Doubtful" && status != "Out" ==> m == 1.0
  {
    if status == "Healthy" then 1.0
    else if status == "Questionable" then 0.85
    else if status == "Doubtful" then 0.6
    else if status == "Out" then 0.0
    else 1.0
  }

  /** The matchup adjustment: `matchup_info.get('pace_factor', 1.0)` when the matchup dict
      is present and not empty, otherwise no adjustment. */
  function PaceFactor(matchup: Option<map<string, real>>): (f: real)
    ensures matchup.None? || matchup.value == map[] ==> f == 1.0
    ensures matchup.Some? && "pace_factor" in matchup.value ==> f == matchup.value["pace_factor"]
  {
    if matchup.None? || matchup.value == map[] then 1.0
    else if "pace_factor" in matchup.value then matchup.value["pace_factor"]
    else 1.0
  }

  function BaseProjection(d: PlayerData): real
  {
    d.ppg * 1.0 + d.rpg * 1.2 + d.apg * 1.5
  }

  /** The projection before rounding: base, status, form and pace multiplied together. */
  function RawProjection(d: PlayerData, form: real, matchup: Option<map<string, real>>): (p: real)
    ensures d.status == "Out" ==> p == 0.0
  {
    BaseProjection(d) * StatusMultiplier(d.status) * form * PaceFactor(matchup)
  }

  // ---------------------------------------------------------------------------
  // Prop confidence.

  /** The base confidence per prop type, in the dict's order. */
  const BaseConfidence: seq<PropConfidence> := [
    PropConfidence("points", 0.75), PropConfidence("rebounds", 0.70), PropConfidence("assists", 0.65),
    PropConfidence("steals", 0.60), PropConfidence("blocks", 0.55), PropConfidence("turnovers", 0.50)]

  /** `min(max(form, 0.7), 1.3)`. */
  function FormAdjustment(form: real): (a: real)
    ensures 0.7 <= a <= 1.3
    ensures 0.7 <= form <= 1.3 ==> a == form
  {
    Clamp(form, 0.7, 1.3)
  }

  /** The percentage before rounding, capped at 95. */
  function CappedPercent(base: real, consistency: real, form: real): (c: real)
    ensures c <= 95.0
    ensures base >= 0.0 && consistency >= 0.0 ==> c >= 0.0
  {
    var adjusted := base * consistency * FormAdjustment(form);
    ProductNonNegative(base, consistency, FormAdjustment(form));
    if adjusted * 100.0 < 95.0 then adjusted * 100.0 else 95.0
  }

  /** One prop type's score: the capped percentage rounded to one decimal, which stays at
      most 95 and, for a non-negative consistency draw, at least 0. */
  function Confidence(base: real, consistency: real, form: real): (score: real)
    ensures score <= 95.0
    ensures base >= 0.0 && consistency >= 0.0 ==> score >= 0.0
  {
    var c := CappedPercent(base, consistency, form);
    RoundWithin(c);
    Round(c, 1)
  }

  lemma ProductNonNegative(a: real, b: real, c: real)
    ensures a >= 0.0 && b >= 0.0 && c >= 0.0 ==> a * b * c >= 0.0
  {
    if a >= 0.0 && b >= 0.0 && c >= 0.0 {
      assert a * b >= 0.0;
    }
  }

  /** Rounding to one decimal keeps a percentage capped at 95 within [0, 95]. */
  lemma RoundWithin(c: real)
    requires c <= 95.0
    ensures Round(c, 1) <= 95.0
    ensures c >= 0.0 ==> Round(c, 1) >= 0.0
  {
    RoundMonotone(c, 95.0, 1);
    RoundExact(95.0, 950, 1);
    if c >= 0.0 {
      RoundMonotone(0.0, c, 1);
      RoundExact(0.0, 0, 1);
    }
  }

  function PropConfidences(form: real, consistency: real): (r: seq<PropConfidence>)
    ensures |r| == |BaseConfidence|
    ensures forall i :: 0 <= i < |r| ==> r[i].propType == BaseConfidence[i].propType
  {
    seq(|BaseConfidence|, i requires 0 <= i < |BaseConfidence| =>
      PropConfidence(BaseConfidence[i].propType, Confidence(BaseConfidence[i].score, consistency, form)))
  }

  /** The loop of `calculate_prop_confidence` filling `confidence_scores`. */
  method CalculatePropConfidence(form: real, consistency: real) returns (scores: seq<PropConfidence>)
    ensures scores == PropConfidences(form, consistency)
  {
    scores := [];
    var i := 0;
    while i < |BaseConfidence|
      invariant 0 <= i <= |BaseConfidence|
      invariant scores == PropConfidences(form, consistency)[..i]
    {
      var entry := BaseConfidence[i];
      scores := scores + [PropConfidence(entry.propType, Confidence(entry.score, consistency, form))];
      i := i + 1;
    }
  }

  /** Six scores, one per prop type in the table's order, each at most 95 and, for a
      non-negative consistency draw, between 0 and 100. */
  lemma PropConfidenceBounds(form: real, consistency: real)
    ensures var r := PropConfidences(form, consistency);
      && |r| == 6
      && r[0].propType == "points" && r[1].propType == "rebounds" && r[2].propType == "assists"
      && r[3].propType == "steals" && r[4].propType == "blocks" && r[5].propType == "turnovers"
      && (forall i :: 0 <= i < |r| ==> r[i].score <= 95.0)
      && (consistency >= 0.0 ==> forall i :: 0 <= i < |r| ==> 0.0 <= r[i].score <= 100.0)
  {
    var r := PropConfidences(form, consistency);
    forall i | 0 <= i < |r|
      ensures r[i].score <= 95.0
      ensures consistency >= 0.0 ==> 0.0 <= r[i].score
    {
      assert r[i].score == Confidence(BaseConfidence[i].score, consistency, form);
      assert BaseConfidence[i].score >= 0.0;
    }
  }

  /** The cap binds within the draw ranges: the most consistent points prop in top form
      scores exactly 95. */
  lemma CapBinds()
    ensures Confidence(0.75, 1.2, 1.3) == 95.0
  {
    assert FormAdjustment(1.3) == 1.3;
    assert CappedPercent(0.75, 1.2, 1.3) == 95.0;
    RoundExact(95.0, 950, 1);
  }

  /** The form factor is clamped before it adjusts the confidence: any form above 1.3 scores
      like 1.3, and any below 0.7 like 0.7. */
  lemma FormClamped(base: real, consistency: real, form: real)
    ensures form > 1.3 ==> Confidence(base, consistency, form) == Confidence(base, consistency, 1.3)
    ensures form < 0.7 ==> Confidence(base, consistency, form) == Confidence(base, consistency, 0.7)
  {
    if form > 1.3 {
      assert FormAdjustment(form) == FormAdjustment(1.3);
      assert CappedPercent(base, consistency, form) == CappedPercent(base, consistency, 1.3);
    }
    if form < 0.7 {
      assert FormAdjustment(form) == FormAdjustment(0.7);
      assert CappedPercent(base, consistency, form) == CappedPercent(base, consistency, 0.7);
    }
  }

  // ---------------------------------------------------------------------------
  // The analysis.

  /** `analyze_player_value` for the form draw `form` and the consistency draw
      `consistency`. */
  function AnalyzePlayerValue(d: PlayerData, form: real, consistency: real, matchup: Option<map<string, real>>)
    : (a: Analysis)
    ensures var raw := RawProjection(d, form, matchup);
      -0.05 < a.projection - raw <= 0.05
    ensures var value := ValueScore(RawProjection(d, form, matchup), d.salary);
      -0.005 < a.valueScore - value <= 0.005
    ensures d.status == "Out" ==> a.projection == 0.0 && a.valueScore == 0.0
    ensures d.salary <= 0 ==> a.valueScore == 0.0
    ensures a.formFactor == form && a.status == d.status
    ensures a.confidenceScores == PropConfidences(form, consistency)
  {
    var raw := RawProjection(d, form, matchup);
    var value := ValueScore(raw, d.salary);
    assert Pow10(1) == 10 && Pow10(2) == 100;
    RoundExact(0.0, 0, 1);
    RoundExact(0.0, 0, 2);
    Analysis(Round(raw, 1), Round(value, 2), form, d.status, PropConfidences(form, consistency))
  }
}
