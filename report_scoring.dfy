/**
 * Age arithmetic and Bayley-4 scaled-score interpretation of the
 * OpenAI-backed report generator (openai_report_generator.py).
 */
module ReportScoring {
  import opened Text

  /**
   * The age record: a day difference broken into 365-day years and 30-day
   * months.  `formatted` is the text the report prints.
   */
  datatype ChronologicalAge = ChronologicalAge(
    years: int, months: int, days: int, totalDays: int, totalMonths: int, formatted: string)

  const AgeUnavailable := ChronologicalAge(0, 0, 0, 0, 0, "Age calculation unavailable")

  /**
   * `_calculate_chronological_age`, starting from the day difference between
   * the parsed encounter date and the parsed date of birth; `None` stands for
   * a date that could not be parsed, which the source catches.
   * Python's `//` and `%` by a positive constant agree with Dafny's.
   */
  function CalculateChronologicalAge(dayDifference: Option<int>): (a: ChronologicalAge)
    ensures dayDifference.None? ==> a == AgeUnavailable
    ensures dayDifference.Some? ==>
      var d := dayDifference.value;
      && a.totalDays == d
      && a.years * 365 + a.months * 30 + a.days == d
      && 0 <= a.days < 30
      && 0 <= a.months <= 12
      && (a.months == 12 <==> d % 365 >= 360)
      && a.totalMonths == 12 * a.years + a.months
      && (d >= 0 ==> (a.years == 0 <==> d < 365))
      && (a.years > 0 ==> a.formatted == IntToString(a.years) + " years, " + IntToString(a.months) + " months")
      && (a.years <= 0 ==> a.formatted == IntToString(a.totalMonths) + " months")
  {
    match dayDifference
    case None => AgeUnavailable
    case Some(totalDays) =>
      var years := totalDays / 365;
      var remainingDays := totalDays % 365;
      var months := remainingDays / 30;
      var days := remainingDays % 30;
      var totalMonths := years * 12 + months;
      ChronologicalAge(years, months, days, totalDays, totalMonths,
        if years > 0 then IntToString(years) + " years, " + IntToString(months) + " months"
        else IntToString(totalMonths) + " months")
  }

  /** Total months never decrease as the day difference grows. */
  lemma TotalMonthsMonotone(d1: int, d2: int)
    requires d1 <= d2
    ensures CalculateChronologicalAge(Some(d1)).totalMonths <= CalculateChronologicalAge(Some(d2)).totalMonths
  {
    var y1, y2 := d1 / 365, d2 / 365;
    var r1, r2 := d1 % 365, d2 % 365;
    assert y1 <= y2;
    if y1 == y2 {
      assert r1 <= r2;
      assert r1 / 30 <= r2 / 30;
    } else {
      assert 12 * y1 + 12 <= 12 * y2;
    }
  }


  /** The four bands of a Bayley-4 scaled score. */
  datatype ScaledBand = AboveAverage | Average | BelowAverage | ExtremelyLow
  {
    function Label(): string {
      match this
      case AboveAverage => "Above Average"
      case Average => "Average"
      case BelowAverage => "Below Average"
      case ExtremelyLow => "Extremely Low"
    }

    /** Position of the band from the bottom. */
    function Rank(): nat {
      match this
      case AboveAverage => 3
      case Average => 2
      case BelowAverage => 1
      case ExtremelyLow => 0
    }
  }

  /** The band chosen by `_get_bayley_score_interpretation`: 13 / 8 / 4, a tie goes up. */
  function InterpretationBand(scaledScore: int): (b: ScaledBand)
    ensures b == AboveAverage <==> scaledScore >= 13
    ensures b == Average <==> 8 <= scaledScore < 13
    ensures b == BelowAverage <==> 4 <= scaledScore < 8
    ensures b == ExtremelyLow <==> scaledScore < 4
  {
    if scaledScore >= 13 then AboveAverage
    else if scaledScore >= 8 then Average
    else if scaledScore >= 4 then BelowAverage
    else ExtremelyLow
  }

  lemma InterpretationBandMonotone(s1: int, s2: int)
    requires s1 <= s2
    ensures InterpretationBand(s1).Rank() <= InterpretationBand(s2).Rank()
  {
  }

  /** The interpretation record built for one domain. */
  datatype BayleyInterpretation = BayleyInterpretation(
    scaledScore: int,
    rangeClassification: string,
    percentileRange: string,
    clinicalDescription: string,
    functionalImplications: string)
  {
    /** The dictionary the source returns, with its key names; values as text. */
    function AsDict(): map<string, string> {
      map[
        "scaled_score" := IntToString(scaledScore),
        "range_classification" := rangeClassification,
        "percentile_range" := percentileRange,
        "clinical_description" := clinicalDescription,
        "functional_implications" := functionalImplications]
    }
  }

  function PercentileRangeText(b: ScaledBand): string {
    match b
    case AboveAverage => "84th percentile and above"
    case Average => "25th-75th percentile"
    case BelowAverage => "9th-24th percentile"
    case ExtremelyLow => "2nd percentile and below"
  }

  function ClinicalDescriptionText(b: ScaledBand): string {
    match b
    case AboveAverage => "significantly above expected developmental level"
    case Average => "within expected developmental range"
    case BelowAverage => "below expected developmental level"
    case ExtremelyLow => "significantly below expected developmental level"
  }

  /** `_get_bayley_score_interpretation` */
  function GetBayleyScoreInterpretation(domain: string, scaledScore: int): (r: BayleyInterpretation)
    ensures r.scaledScore == scaledScore
    ensures r.rangeClassification == InterpretationBand(scaledScore).Label()
    ensures r.percentileRange == PercentileRangeText(InterpretationBand(scaledScore))
    ensures r.clinicalDescription == ClinicalDescriptionText(InterpretationBand(scaledScore))
    ensures r.functionalImplications == GetDomainFunctionalImplications(domain, r.rangeClassification)
  {
    var band := InterpretationBand(scaledScore);
    BayleyInterpretation(scaledScore, band.Label(), PercentileRangeText(band),
      ClinicalDescriptionText(band), GetDomainFunctionalImplications(domain, band.Label()))
  }

  const ImplicationDomains: set<string> :=
    {"Cognitive", "Receptive Communication", "Expressive Communication", "Fine Motor", "Gross Motor"}

  const BandLabels: set<string> := {"Above Average", "Average", "Below Average", "Extremely Low"}

  function DefaultImplication(domain: string): string {
    "requires further assessment in " + domain + " domain"
  }

  /** The nested implications dictionary: domain, then band label. */
  const Implications: map<string, map<string, string>> := map[
    "Cognitive" := map[
      "Above Average" := "demonstrates advanced problem-solving, memory, and learning abilities with strong visual processing skills",
      "Average" := "shows age-appropriate cognitive processing, problem-solving, and learning capacity",
      "Below Average" := "experiences mild challenges in problem-solving and cognitive processing that may impact learning",
      "Extremely Low" := "demonstrates significant cognitive delays requiring intensive intervention support"],
    "Receptive Communication" := map[
      "Above Average" := "exceptional language comprehension with advanced understanding of instructions and vocabulary",
      "Average" := "age-appropriate understanding of spoken language and ability to follow instructions",
      "Below Average" := "mild difficulties understanding spoken language and following complex instructions",
      "Extremely Low" := "significant language comprehension delays affecting daily communication and learning"],
    "Expressive Communication" := map[
      "Above Average" := "advanced verbal expression with rich vocabulary and complex sentence formation",
      "Average" := "age-appropriate verbal expression and communication skills",
      "Below Average" := "limited verbal expression that may impact social communication",
      "Extremely Low" := "severe expressive language delays requiring intensive speech therapy intervention"],
    "Fine Motor" := map[
      "Above Average" := "exceptional hand-eye coordination and manipulation skills beyond age expectations",
      "Average" := "age-appropriate fine motor control and manipulation abilities",
      "Below Average" := "mild fine motor delays that may impact self-care and pre-academic skills",
      "Extremely Low" := "significant fine motor delays affecting daily living skills and academic readiness"],
    "Gross Motor" := map[
      "Above Average" := "advanced gross motor coordination, balance, and movement skills",
      "Average" := "age-appropriate gross motor development and movement patterns",
      "Below Average" := "mild gross motor delays that may impact mobility and play participation",
      "Extremely Low" := "significant gross motor delays requiring intensive physical therapy intervention"]]

  /**
   * `_get_domain_functional_implications`: the table's text for one of its
   * five domains and four band labels, the default text for any other pair.
   */
  function GetDomainFunctionalImplications(domain: string, rangeClass: string): (r: string)
    ensures domain in ImplicationDomains && rangeClass in BandLabels ==>
      domain in Implications && rangeClass in Implications[domain] && r == Implications[domain][rangeClass]
    ensures !(domain in ImplicationDomains && rangeClass in BandLabels) ==> r == DefaultImplication(domain)
  {
    if domain in Implications && rangeClass in Implications[domain] then Implications[domain][rangeClass]
    else DefaultImplication(domain)
  }

  /**
   * Every band the interpretation can produce has a table entry, so a listed
   * domain never receives the default text.
   */
  lemma InterpretationUsesTable(domain: string, scaledScore: int)
    requires domain in ImplicationDomains
    ensures domain in Implications
    ensures InterpretationBand(scaledScore).Label() in Implications[domain]
    ensures GetBayleyScoreInterpretation(domain, scaledScore).functionalImplications
      == Implications[domain][InterpretationBand(scaledScore).Label()]
  {
  }

  /** `_get_score_classification` of this module: 16 / 8 / 4, a tie goes up. */
  function GetScoreClassification(scaledScore: int): (b: ScaledBand)
    ensures b == AboveAverage <==> scaledScore >= 16
    ensures b == Average <==> 8 <= scaledScore < 16
    ensures b == BelowAverage <==> 4 <= scaledScore < 8
    ensures b == ExtremelyLow <==> scaledScore < 4
  {
    if scaledScore >= 16 then AboveAverage
    else if scaledScore >= 8 then Average
    else if scaledScore >= 4 then BelowAverage
    else ExtremelyLow
  }

  lemma ScoreClassificationMonotone(s1: int, s2: int)
    requires s1 <= s2
    ensures GetScoreClassification(s1).Rank() <= GetScoreClassification(s2).Rank()
  {
  }

  /** `_score_to_percentile` of this module. */
  function ScoreToPercentile(scaledScore: int): (p: int)
    ensures p in {5, 25, 50, 75, 85}
    ensures scaledScore >= 16 <==> p == 85
    ensures scaledScore < 4 <==> p == 5
  {
    if scaledScore >= 16 then 85
    else if scaledScore >= 13 then 75
    else if scaledScore >= 8 then 50
    else if scaledScore >= 4 then 25
    else 5
  }

  lemma ScoreToPercentileMonotone(s1: int, s2: int)
    requires s1 <= s2
    ensures ScoreToPercentile(s1) <= ScoreToPercentile(s2)
  {
  }
}
