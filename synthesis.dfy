/**
 * Cross-domain synthesis helpers of the prompt builders
 * (backend/prompts/professional_summary_prompts.py,
 * clinical_observations_prompts.py, caregiver_concerns_prompts.py; the same
 * helpers appear verbatim in openai_report_generator.py).  Each reads the
 * Bayley-4 cognitive and social-emotional scaled scores, a dictionary kept
 * here as its (domain, score) items in insertion order; an absent or empty
 * dictionary is the empty sequence.
 */
module Synthesis {
  import opened Text

  type ScaledScores = seq<(string, int)>

  /** Which scores a helper keeps. */
  datatype Cut = AtLeast(t: int) | Under(t: int) | Between(lo: int, hi: int)
  {
    predicate Passes(score: int) {
      match this
      case AtLeast(t) => score >= t
      case Under(t) => score < t
      case Between(lo, hi) => lo <= score < hi
    }
  }

  /** The lower-cased domain names, each followed by `suffix`, of the scores the cut keeps, in order. */
  function Picked(scores: ScaledScores, cut: Cut, suffix: string): (r: seq<string>)
    ensures |r| <= |scores|
    decreases |scores|
  {
    if |scores| == 0 then []
    else
      var last := scores[|scores| - 1];
      Picked(scores[..|scores| - 1], cut, suffix)
        + (if cut.Passes(last.1) then [Lower(last.0) + suffix] else [])
  }

  /**
   * Every entry is a strength (10 and up), a need (under 8) or neither (8 or
   * 9), and never two of these: the three lists together are as long as the
   * scores.
   */
  lemma {:induction false} StrengthNeedPartition(scores: ScaledScores)
    ensures |Picked(scores, AtLeast(10), "")| + |Picked(scores, Under(8), "")|
          + |Picked(scores, Between(8, 10), "")| == |scores|
    decreases |scores|
  {
    if |scores| > 0 {
      StrengthNeedPartition(scores[..|scores| - 1]);
    }
  }

  /** A name is picked exactly when some entry with that name passes the cut. */
  lemma {:induction false} PickedMembership(scores: ScaledScores, cut: Cut, suffix: string, x: string)
    ensures x in Picked(scores, cut, suffix)
        <==> exists i :: 0 <= i < |scores| && cut.Passes(scores[i].1) && x == Lower(scores[i].0) + suffix
    decreases |scores|
  {
    if |scores| > 0 {
      var init := scores[..|scores| - 1];
      PickedMembership(init, cut, suffix, x);
      if x in Picked(init, cut, suffix) {
        var i :| 0 <= i < |init| && cut.Passes(init[i].1) && x == Lower(init[i].0) + suffix;
        assert scores[i] == init[i];
      }
      if exists i :: 0 <= i < |scores| && cut.Passes(scores[i].1) && x == Lower(scores[i].0) + suffix {
        var i :| 0 <= i < |scores| && cut.Passes(scores[i].1) && x == Lower(scores[i].0) + suffix;
        if i < |init| {
          assert init[i] == scores[i];
        }
      }
    }
  }

  /** Appends the picked names of one dictionary, in the source's loop order. */
  method AppendPicked(acc: seq<string>, scores: ScaledScores, cut: Cut, suffix: string)
    returns (r: seq<string>)
    ensures r == acc + Picked(scores, cut, suffix)
  {
    r := acc;
    var i := 0;
    while i < |scores|
      invariant 0 <= i <= |scores|
      invariant r == acc + Picked(scores[..i], cut, suffix)
    {
      assert scores[..i + 1][..i] == scores[..i];
      if cut.Passes(scores[i].1) {
        r := r + [Lower(scores[i].0) + suffix];
      }
      i := i + 1;
    }
    assert scores[..i] == scores;
  }

  const DefaultStrengths := "emerging developmental skills, social engagement, learning potential"
  const DefaultNeeds := "fine motor coordination, attention and focus, communication skills, behavioral regulation"
  const DefaultConcerns := ["fine motor development", "attention and focus", "speech and language development", "behavioral regulation"]

  /** `_identify_assessment_strengths`: domains scoring 10 or more, cognitive first, the first three. */
  method IdentifyAssessmentStrengths(cognitive: ScaledScores, social: ScaledScores) returns (r: string)
    ensures var all := Picked(cognitive, AtLeast(10), "") + Picked(social, AtLeast(10), "");
      r == if all == [] then DefaultStrengths else Join(", ", Take(all, 3))
  {
    var strengths := AppendPicked([], cognitive, AtLeast(10), "");
    strengths := AppendPicked(strengths, social, AtLeast(10), "");
    assert strengths == Picked(cognitive, AtLeast(10), "") + Picked(social, AtLeast(10), "");
    r := if |strengths| > 0 then Join(", ", Take(strengths, 3)) else DefaultStrengths;
  }

  /** `_identify_assessment_needs`: domains scoring under 8, cognitive first, the first four. */
  method IdentifyAssessmentNeeds(cognitive: ScaledScores, social: ScaledScores) returns (r: string)
    ensures var all := Picked(cognitive, Under(8), "") + Picked(social, Under(8), "");
      r == if all == [] then DefaultNeeds else Join(", ", Take(all, 4))
  {
    var needs := AppendPicked([], cognitive, Under(8), "");
    needs := AppendPicked(needs, social, Under(8), "");
    assert needs == Picked(cognitive, Under(8), "") + Picked(social, Under(8), "");
    r := if |needs| > 0 then Join(", ", Take(needs, 4)) else DefaultNeeds;
  }

  /**
   * `_analyze_assessment_concerns`: cognitive domains under 7 as
   * "<domain> development", then social domains under 7 as "<domain> skills";
   * the four default concerns when none qualify; at most four, joined by ", ".
   */
  method AnalyzeAssessmentConcerns(cognitive: ScaledScores, social: ScaledScores)
    returns (concerns: seq<string>, r: string)
    ensures var found := Picked(cognitive, Under(7), " development") + Picked(social, Under(7), " skills");
      concerns == if found == [] then DefaultConcerns else found
    ensures r == Join(", ", Take(concerns, 4))
    ensures 1 <= |Take(concerns, 4)| <= 4
  {
    concerns := AppendPicked([], cognitive, Under(7), " development");
    concerns := AppendPicked(concerns, social, Under(7), " skills");
    assert concerns == Picked(cognitive, Under(7), " development") + Picked(social, Under(7), " skills");
    if |concerns| == 0 {
      concerns := DefaultConcerns;
    }
    r := Join(", ", Take(concerns, 4));
  }

  function Sum(scores: ScaledScores): int
    decreases |scores|
  {
    if |scores| == 0 then 0 else Sum(scores[..|scores| - 1]) + scores[|scores| - 1].1
  }

  /** Where the mean of a non-empty score list falls: under 7, over 13 or in between. */
  datatype AverageBand = BelowSeven | AboveThirteen | InBetween

  function AverageBandOf(scores: ScaledScores): (b: AverageBand)
    requires |scores| > 0
    ensures b == BelowSeven <==> (Sum(scores) as real) / (|scores| as real) < 7.0
    ensures b == AboveThirteen <==> (Sum(scores) as real) / (|scores| as real) > 13.0
  {
    DivideCompare(Sum(scores) as real, |scores| as real, 7.0);
    DivideCompare(Sum(scores) as real, |scores| as real, 13.0);
    if Sum(scores) < 7 * |scores| then BelowSeven
    else if Sum(scores) > 13 * |scores| then AboveThirteen
    else InBetween
  }

  /** Comparing a mean with a bound is comparing the sum with bound times count. */
  lemma DivideCompare(a: real, n: real, c: real)
    requires n > 0.0
    ensures a / n < c <==> a < c * n
    ensures a / n > c <==> a > c * n
  {
    var q := a / n;
    assert q * n == a;
    assert (c - q) * n == c * n - a;
  }

  function OverallCognitiveText(b: AverageBand): string {
    match b
    case BelowSeven => "significant delays in cognitive-motor domains"
    case AboveThirteen => "above-average cognitive-motor abilities"
    case InBetween => "mixed cognitive-motor profile with areas of both strength and need"
  }

  function OverallSocialText(b: AverageBand): string {
    match b
    case BelowSeven => "challenges in social-emotional and adaptive behavior development"
    case AboveThirteen => "strengths in social-emotional functioning"
    case InBetween => "typical social-emotional development with some areas for growth"
  }

  const OverallDefault := "comprehensive developmental evaluation across multiple domains"

  /**
   * `_generate_overall_performance_analysis`: one phrase per record that has
   * scores, cognitive first, joined by "; "; the default when neither has.
   */
  method GenerateOverallPerformanceAnalysis(cognitive: ScaledScores, social: ScaledScores) returns (r: string)
    ensures cognitive == [] && social == [] ==> r == OverallDefault
    ensures cognitive != [] && social == [] ==> r == OverallCognitiveText(AverageBandOf(cognitive))
    ensures cognitive == [] && social != [] ==> r == OverallSocialText(AverageBandOf(social))
    ensures cognitive != [] && social != [] ==>
      r == OverallCognitiveText(AverageBandOf(cognitive)) + "; " + OverallSocialText(AverageBandOf(social))
  {
    var points: seq<string> := [];
    if |cognitive| > 0 {
      points := points + [OverallCognitiveText(AverageBandOf(cognitive))];
    }
    if |social| > 0 {
      points := points + [OverallSocialText(AverageBandOf(social))];
    }
    if |points| == 2 {
      assert points[1..] == [points[1]];
      assert Join("; ", points) == points[0] + "; " + points[1];
    }
    r := if |points| > 0 then Join("; ", points) else OverallDefault;
  }

  function PatternCognitiveText(b: AverageBand): string {
    match b
    case BelowSeven => "below average cognitive-motor performance"
    case AboveThirteen => "above average cognitive-motor abilities"
    case InBetween => "mixed cognitive-motor profile"
  }

  function PatternSocialText(b: AverageBand): string {
    match b
    case BelowSeven => "challenges in social-emotional development"
    case AboveThirteen => "strengths in social-emotional areas"
    case InBetween => "typical social-emotional functioning"
  }

  const PatternDefault := "varied performance across developmental domains"

  /** `_analyze_performance_patterns`: the same shape with its own phrases. */
  method AnalyzePerformancePatterns(cognitive: ScaledScores, social: ScaledScores) returns (r: string)
    ensures cognitive == [] && social == [] ==> r == PatternDefault
    ensures cognitive != [] && social == [] ==> r == PatternCognitiveText(AverageBandOf(cognitive))
    ensures cognitive == [] && social != [] ==> r == PatternSocialText(AverageBandOf(social))
    ensures cognitive != [] && social != [] ==>
      r == PatternCognitiveText(AverageBandOf(cognitive)) + "; " + PatternSocialText(AverageBandOf(social))
  {
    var patterns: seq<string> := [];
    if |cognitive| > 0 {
      patterns := patterns + [PatternCognitiveText(AverageBandOf(cognitive))];
    }
    if |social| > 0 {
      patterns := patterns + [PatternSocialText(AverageBandOf(social))];
    }
    if |patterns| == 2 {
      assert patterns[1..] == [patterns[1]];
      assert Join("; ", patterns) == patterns[0] + "; " + patterns[1];
    }
    r := if |patterns| > 0 then Join("; ", patterns) else PatternDefault;
  }

  const StandardObservations := "Standard pediatric assessment observations"

  /** The observations excerpt placed in the clinical-observations prompt. */
  function ObservationsExcerpt(observations: seq<string>): (r: string)
    ensures observations == [] ==> r == StandardObservations
    ensures observations != [] ==> r == Join("; ", Take(observations, 3))
  {
    if |observations| > 0 then Join("; ", Take(observations, 3)) else StandardObservations
  }

  /** Only the first three observations reach the prompt. */
  lemma ExcerptUsesFirstThree(observations: seq<string>, more: seq<string>)
    requires |observations| >= 3
    ensures ObservationsExcerpt(observations + more) == ObservationsExcerpt(observations)
  {
    assert (observations + more)[..3] == observations[..3];
  }
}
