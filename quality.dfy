/** The quality label derived from the achieved and maximum score. */
module Quality {

  import opened Wrappers
  import opened Checklist
  import opened Responses
  import Scoring

  datatype Quality = Incomplete | VeryLow | Low | Moderate | High | Excellent
  {
    /** The text shown to the user. */
    function Label(): string
    {
      match this
      case Incomplete => "Incomplete"
      case VeryLow => "Very Low"
      case Low => "Low"
      case Moderate => "Moderate"
      case High => "High"
      case Excellent => "Excellent"
    }

    /** The CSS class of the badge that shows the label. */
    function Badge(): string
    {
      match this
      case Incomplete => "csp-badge-incomplete"
      case VeryLow => "csp-badge-verylow"
      case Low => "csp-badge-low"
      case Moderate => "csp-badge-moderate"
      case High => "csp-badge-high"
      case Excellent => "csp-badge-excellent"
    }

    /** Position in the order of the thresholds, lowest first. */
    function Rank(): nat
    {
      match this
      case Incomplete => 0
      case VeryLow => 1
      case Low => 2
      case Moderate => 3
      case High => 4
      case Excellent => 5
    }
  }

  /**
   * `qualityFromScore`: `pct = score / max * 100`, then the first threshold
   * that matches wins. With `max == 0` the JavaScript quotient is NaN or
   * +Infinity (every comparison fails, so "Excellent") or -Infinity (below 30,
   * so "Very Low").
   */
  function QualityFromScore(score: real, max: real): (q: Quality)
    ensures max != 0.0 ==> (q == Incomplete <==> score == 0.0)
    ensures max != 0.0 && 0.0 < score / max && score / max < 0.3 ==> q == VeryLow
    ensures max != 0.0 && 0.85 <= score / max ==> q == Excellent
    ensures max == 0.0 ==> (q == VeryLow <==> score < 0.0)
    ensures max == 0.0 ==> (q == Excellent <==> 0.0 <= score)
  {
    if max == 0.0 then
      (if score < 0.0 then VeryLow else Excellent)
    else
      var pct := score / max * 100.0;
      if pct == 0.0 then Incomplete
      else if pct < 30.0 then VeryLow
      else if pct < 50.0 then Low
      else if pct < 70.0 then Moderate
      else if pct < 85.0 then High
      else Excellent
  }

  /** The score panel's call `qualityFromScore(score, max || 1)`. */
  function PanelQuality(score: real, max: nat): (q: Quality)
    ensures 0.0 <= score ==> (q == Incomplete <==> score == 0.0)
    ensures 0 < max && max as real <= score ==> q == Excellent
    ensures 0 < max ==> q == QualityFromScore(score, max as real)
  {
    var divisor := if max == 0 then 1.0 else max as real;
    QualityBands(score, divisor);
    QualityFromScore(score, divisor)
  }

  /**
   * The bands of `qualityFromScore` for a positive maximum, stated without
   * division: a score of exactly 0 is "Incomplete", any other score below 30%
   * is "Very Low", and so on up to 85% and beyond for "Excellent".
   */
  lemma QualityBands(score: real, max: real)
    requires max > 0.0
    ensures QualityFromScore(score, max) == Incomplete <==> score == 0.0
    ensures QualityFromScore(score, max) == VeryLow <==> score != 0.0 && 100.0 * score < 30.0 * max
    ensures QualityFromScore(score, max) == Low <==> 30.0 * max <= 100.0 * score < 50.0 * max
    ensures QualityFromScore(score, max) == Moderate <==> 50.0 * max <= 100.0 * score < 70.0 * max
    ensures QualityFromScore(score, max) == High <==> 70.0 * max <= 100.0 * score < 85.0 * max
    ensures QualityFromScore(score, max) == Excellent <==> 85.0 * max <= 100.0 * score
  {
    var pct := score / max * 100.0;
    assert pct * max == 100.0 * score;
    assert pct == 0.0 <==> score == 0.0;
    BelowBound(score, max, 30.0);
    BelowBound(score, max, 50.0);
    BelowBound(score, max, 70.0);
    BelowBound(score, max, 85.0);
  }

  /** `score / max * 100 < bound` without the division. */
  lemma BelowBound(score: real, max: real, bound: real)
    requires max > 0.0
    ensures score / max * 100.0 < bound <==> 100.0 * score < bound * max
  {
  }

  /** For non-negative scores the label never drops as the score grows. */
  lemma QualityMonotone(s1: real, s2: real, max: real)
    requires max > 0.0 && 0.0 <= s1 <= s2
    ensures QualityFromScore(s1, max).Rank() <= QualityFromScore(s2, max).Rank()
  {
    QualityBands(s1, max);
    QualityBands(s2, max);
  }

  /** The boundary cases: 0, 1, 29, 30 and 85 out of 100, and 2.5 out of 3. */
  lemma QualityExamples()
    ensures QualityFromScore(0.0, 100.0) == Incomplete
    ensures QualityFromScore(1.0, 100.0) == VeryLow
    ensures QualityFromScore(29.0, 100.0) == VeryLow
    ensures QualityFromScore(30.0, 100.0) == Low
    ensures QualityFromScore(85.0, 100.0) == Excellent
    ensures QualityFromScore(2.5, 3.0) == High
  {
  }

  /** An unloaded or empty definition shows "Incomplete" for its score of 0. */
  lemma EmptyPanelIsIncomplete()
    ensures PanelQuality(0.0, 0) == Incomplete
  {
  }

  /**
   * The score panel's label for a store: "Incomplete" exactly when nothing
   * scores, and an author's answer never changes it.
   */
  lemma PanelLabelOfStore(data: Option<Definition>, scores: map<string, Entry>, code: string, choice: string)
    ensures PanelQuality(Scoring.TotalScore(data, scores), Scoring.MaxScore(data)) == Incomplete
        <==> Scoring.TotalScore(data, scores) == 0.0
    ensures var answered := scores[code := WithChoice(Lookup(scores, code), Author, choice)];
      PanelQuality(Scoring.TotalScore(data, answered), Scoring.MaxScore(data))
        == PanelQuality(Scoring.TotalScore(data, scores), Scoring.MaxScore(data))
  {
    Scoring.TotalScoreBounds(data, scores);
    Scoring.AuthorAnswerKeepsScore(data, scores, code, choice);
  }
}
