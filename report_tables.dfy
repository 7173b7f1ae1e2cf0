/**
 * The table rows and recommendation paragraphs of the template-based report
 * generator (report_generator.py).  The ReportLab flowables are left out;
 * what is modelled is the cell text of each table and the numbered
 * recommendation lines.  Score dictionaries map a domain to the text shown
 * in its cell; an absent dictionary is the empty map.
 */
module ReportTables {
  import opened Text
  import PdfProcessor

  /** The standard-score label of this generator: seven bands, the lowest called "Well Below Average". */
  function GetScoreClassification(standardScore: int): (r: string)
    ensures r == "Very Superior" <==> standardScore >= 130
    ensures r == "Superior" <==> 120 <= standardScore < 130
    ensures r == "High Average" <==> 110 <= standardScore < 120
    ensures r == "Average" <==> 90 <= standardScore < 110
    ensures r == "Low Average" <==> 80 <= standardScore < 90
    ensures r == "Below Average" <==> 70 <= standardScore < 80
    ensures r == "Well Below Average" <==> standardScore < 70
  {
    if standardScore >= 130 then "Very Superior"
    else if standardScore >= 120 then "Superior"
    else if standardScore >= 110 then "High Average"
    else if standardScore >= 90 then "Average"
    else if standardScore >= 80 then "Low Average"
    else if standardScore >= 70 then "Below Average"
    else "Well Below Average"
  }

  /**
   * This table and the composite table of the PDF processor put every score
   * in the same band; only the name of the lowest band differs.
   */
  lemma ClassificationDiffersOnlyAtBottom(standardScore: int)
    ensures standardScore >= 70 ==>
      GetScoreClassification(standardScore) == PdfProcessor.CompositeBandOf(standardScore).Classification()
    ensures standardScore < 70 ==>
      GetScoreClassification(standardScore) == "Well Below Average"
      && PdfProcessor.CompositeBandOf(standardScore).Classification() == "Extremely Low"
  {
  }

  /** The position of a label in the seven-band order, from the bottom. */
  function ClassificationRank(standardScore: int): nat {
    PdfProcessor.CompositeBandOf(standardScore).Rank()
  }

  /** A higher score never gets a lower label. */
  lemma ClassificationMonotone(s1: int, s2: int)
    requires s1 <= s2
    ensures ClassificationRank(s1) <= ClassificationRank(s2)
    ensures GetScoreClassification(s1) == "Very Superior" ==> GetScoreClassification(s2) == "Very Superior"
    ensures GetScoreClassification(s2) == "Well Below Average" ==> GetScoreClassification(s1) == "Well Below Average"
  {
    PdfProcessor.CompositeBandMonotone(s1, s2);
  }

  /** `_standard_to_percentile`. */
  function StandardToPercentile(standardScore: int): (p: int)
    ensures 1 <= p <= 98
    ensures p == 98 <==> standardScore >= 130
    ensures p == 1 <==> standardScore < 70
  {
    if standardScore >= 130 then 98
    else if standardScore >= 120 then 91
    else if standardScore >= 110 then 75
    else if standardScore >= 100 then 50
    else if standardScore >= 90 then 25
    else if standardScore >= 80 then 9
    else if standardScore >= 70 then 2
    else 1
  }

  lemma StandardToPercentileMonotone(s1: int, s2: int)
    requires s1 <= s2
    ensures StandardToPercentile(s1) <= StandardToPercentile(s2)
  {
  }

  /** The percentile tables of the two generators are the same table. */
  lemma PercentileTablesAgree(standardScore: int)
    ensures StandardToPercentile(standardScore) == PdfProcessor.ScoreToPercentile(standardScore)
  {
  }

  /** A dictionary lookup with "N/A" for a missing key. */
  function CellOf(values: map<string, string>, key: string): (r: string)
    ensures key in values ==> r == values[key]
    ensures key !in values ==> r == "N/A"
  {
    GetOr(values, key, "N/A")
  }

  /** The four score dictionaries of one assessment record. */
  datatype ScoreData = ScoreData(
    rawScores: map<string, string>,
    scaledScores: map<string, string>,
    percentiles: map<string, string>,
    ageEquivalents: map<string, string>,
    compositeScores: seq<(string, string)>)

  const CognitiveDomains: seq<string> :=
    ["Cognitive", "Visual Reception", "Fine Motor", "Receptive Communication", "Expressive Communication", "Gross Motor"]

  const CognitiveHeader: seq<string> := ["Domain", "Raw Score", "Scaled Score", "Percentile", "Age Equivalent"]

  /** The five cells of one cognitive domain. */
  function CognitiveRow(data: ScoreData, domain: string): seq<string> {
    [domain, CellOf(data.rawScores, domain), CellOf(data.scaledScores, domain),
     CellOf(data.percentiles, domain), CellOf(data.ageEquivalents, domain)]
  }

  /** The rows of the cognitive and motor results table. */
  method CognitiveMotorRows(data: ScoreData) returns (rows: seq<seq<string>>)
    ensures |rows| == 1 + |CognitiveDomains| && rows[0] == CognitiveHeader
    ensures forall i :: 0 <= i < |CognitiveDomains| ==> rows[i + 1] == CognitiveRow(data, CognitiveDomains[i])
  {
    rows := [CognitiveHeader];
    var i := 0;
    while i < |CognitiveDomains|
      invariant 0 <= i <= |CognitiveDomains|
      invariant |rows| == 1 + i && rows[0] == CognitiveHeader
      invariant forall k :: 0 <= k < i ==> rows[k + 1] == CognitiveRow(data, CognitiveDomains[k])
    {
      var domain := CognitiveDomains[i];
      rows := rows + [[domain, CellOf(data.rawScores, domain), CellOf(data.scaledScores, domain),
                       CellOf(data.percentiles, domain), CellOf(data.ageEquivalents, domain)]];
      i := i + 1;
    }
  }

  /** Each cell of a domain row is the recorded value, or "N/A" exactly when nothing is recorded. */
  lemma CognitiveRowCells(data: ScoreData, domain: string)
    ensures |CognitiveRow(data, domain)| == |CognitiveHeader|
    ensures CognitiveRow(data, domain)[0] == domain
    ensures CognitiveRow(data, domain)[1] == "N/A" <==> domain !in data.rawScores || data.rawScores[domain] == "N/A"
    ensures domain in data.scaledScores ==> CognitiveRow(data, domain)[2] == data.scaledScores[domain]
  {
  }

  /** The number a composite score cell is read as: its value when all digits, otherwise 0. */
  function CompositeValue(score: string): (n: nat)
    ensures !IsDigitString(score) ==> n == 0
  {
    if IsDigitString(score) then DigitsValue(score) else 0
  }

  const CompositeHeader: seq<string> := ["Composite", "Standard Score", "Percentile", "Classification"]

  function CompositeRow(composite: string, score: string): seq<string> {
    [composite, score, IntToString(StandardToPercentile(CompositeValue(score))),
     GetScoreClassification(CompositeValue(score))]
  }

  /** The rows of the composite table: none when there are no composite scores. */
  method CompositeRows(data: ScoreData) returns (rows: seq<seq<string>>)
    ensures data.compositeScores == [] ==> rows == []
    ensures data.compositeScores != [] ==>
      |rows| == 1 + |data.compositeScores| && rows[0] == CompositeHeader
      && forall i :: 0 <= i < |data.compositeScores| ==>
           rows[i + 1] == CompositeRow(data.compositeScores[i].0, data.compositeScores[i].1)
  {
    rows := [];
    if |data.compositeScores| > 0 {
      rows := [CompositeHeader];
      var i := 0;
      while i < |data.compositeScores|
        invariant 0 <= i <= |data.compositeScores|
        invariant |rows| == 1 + i && rows[0] == CompositeHeader
        invariant forall k :: 0 <= k < i ==>
          rows[k + 1] == CompositeRow(data.compositeScores[k].0, data.compositeScores[k].1)
      {
        var (composite, score) := data.compositeScores[i];
        var value := if IsDigitString(score) then DigitsValue(score) else 0;
        rows := rows + [[composite, score, IntToString(StandardToPercentile(value)), GetScoreClassification(value)]];
        i := i + 1;
      }
    }
  }

  /** A score cell that is not all digits is classed as the lowest band at the first percentile. */
  lemma NonDigitScoreIsLowest(composite: string, score: string)
    requires !IsDigitString(score)
    ensures CompositeRow(composite, score)[2] == "1"
    ensures CompositeRow(composite, score)[3] == "Well Below Average"
  {
  }

  /** A digit cell is read as the number it spells, so a score printed by the processor reads back. */
  lemma PrintedScoreReadsBack(composite: string, score: nat)
    ensures CompositeRow(composite, NatToString(score))[3] == GetScoreClassification(score)
    ensures CompositeRow(composite, NatToString(score))[2] == IntToString(StandardToPercentile(score))
  {
    NatToStringRoundTrip(score);
  }

  const AdaptiveDomains: seq<string> := [
    "Communication", "Community Use", "Functional Pre-Academics",
    "Home Living", "Health and Safety", "Leisure", "Self-Care",
    "Self-Direction", "Social", "Motor"]

  const AdaptiveHeader: seq<string> := ["Domain", "Raw Score", "Scaled Score", "Percentile"]

  function AdaptiveRow(data: ScoreData, domain: string): seq<string> {
    [domain, CellOf(data.rawScores, domain), CellOf(data.scaledScores, domain), CellOf(data.percentiles, domain)]
  }

  /** The adaptive behaviour table: built only when some raw score is recorded. */
  method AdaptiveRows(data: ScoreData) returns (rows: seq<seq<string>>)
    ensures data.rawScores == map[] ==> rows == []
    ensures data.rawScores != map[] ==>
      |rows| == 1 + |AdaptiveDomains| && rows[0] == AdaptiveHeader
      && forall i :: 0 <= i < |AdaptiveDomains| ==> rows[i + 1] == AdaptiveRow(data, AdaptiveDomains[i])
  {
    rows := [];
    if data.rawScores != map[] {
      rows := [AdaptiveHeader];
      var i := 0;
      while i < |AdaptiveDomains|
        invariant 0 <= i <= |AdaptiveDomains|
        invariant |rows| == 1 + i && rows[0] == AdaptiveHeader
        invariant forall k :: 0 <= k < i ==> rows[k + 1] == AdaptiveRow(data, AdaptiveDomains[k])
      {
        var domain := AdaptiveDomains[i];
        rows := rows + [[domain, CellOf(data.rawScores, domain), CellOf(data.scaledScores, domain),
                         CellOf(data.percentiles, domain)]];
        i := i + 1;
      }
    }
  }

  const DefaultRecommendations: seq<string> := [
    "Individual occupational therapy services to address fine motor and sensory processing needs",
    "Physical therapy consultation for gross motor development and postural control",
    "Speech-language therapy for communication and language development",
    "Structured play activities to promote social-emotional development",
    "Parent training and education for home-based intervention strategies",
    "Environmental modifications to support development and safety",
    "Regular reassessment to monitor progress and adjust intervention plans"]

  /** The recommendations shown: the cognitive list then the social list, or the defaults when both are empty. */
  function AllRecommendations(cognitive: seq<string>, social: seq<string>): (r: seq<string>)
    ensures cognitive + social != [] ==> r == cognitive + social
    ensures cognitive + social == [] ==> r == DefaultRecommendations
    ensures |r| > 0
  {
    if cognitive + social == [] then DefaultRecommendations else cognitive + social
  }

  /** "<n>. <item>" */
  function Numbered(n: nat, item: string): string {
    NatToString(n) + ". " + item
  }

  /**
   * The recommendation paragraphs, numbered from 1.  A record that is
   * absent, or has no recommendation list, gives the empty list.
   */
  method RecommendationParagraphs(cognitive: seq<string>, social: seq<string>) returns (paragraphs: seq<string>)
    ensures |paragraphs| == |AllRecommendations(cognitive, social)|
    ensures forall i :: 0 <= i < |paragraphs| ==> paragraphs[i] == Numbered(i + 1, AllRecommendations(cognitive, social)[i])
  {
    var all := cognitive + social;
    if |all| == 0 {
      all := DefaultRecommendations;
    }
    paragraphs := [];
    var i := 0;
    while i < |all|
      invariant 0 <= i <= |all|
      invariant |paragraphs| == i
      invariant forall k :: 0 <= k < i ==> paragraphs[k] == Numbered(k + 1, all[k])
    {
      paragraphs := paragraphs + [NatToString(i + 1) + ". " + all[i]];
      i := i + 1;
    }
  }

  /** The numbers in front of the paragraphs read back as 1, 2, 3, ... in order. */
  lemma NumberingConsecutive(n: nat, item: string)
    requires n >= 1
    ensures StartsWith(Numbered(n, item), NatToString(n) + ". ")
    ensures DigitsValue(NatToString(n)) == n
  {
    NatToStringRoundTrip(n);
  }
}
