/**
 * Interpreters for the Sensory Profile 2 (SP2), ChOMPS and PediEAT scores in
 * openai_report_generator.py: band texts and the threshold-driven lists of
 * implications, risks, recommendations and concerns.
 */
module SensoryFeeding {

  /** `dict.get(key, 0)` on a score dictionary. */
  function ScoreOf(scores: map<string, int>, key: string): int {
    if key in scores then scores[key] else 0
  }

  // ----- Sensory Profile 2 -----------------------------------------------

  datatype Sp2Quadrant = Seeking | Avoiding | Sensitivity | Registration

  datatype Sp2Band = High | Typical | Low

  /** The shared thresholds of the four SP2 interpreters: above 60, above 40. */
  function Sp2BandOf(score: int): (b: Sp2Band)
    ensures b == High <==> score > 60
    ensures b == Typical <==> 40 < score <= 60
    ensures b == Low <==> score <= 40
  {
    if score > 60 then High else if score > 40 then Typical else Low
  }

  /** The texts of `_interpret_sp2_seeking/_avoiding/_sensitivity/_registration`. */
  function Sp2Text(q: Sp2Quadrant, b: Sp2Band): string {
    match (q, b)
    case (Seeking, High) => "High sensory seeking behaviors - actively seeks intense sensory input, may appear restless or constantly moving"
    case (Seeking, Typical) => "Typical sensory seeking - appropriate interest in sensory experiences"
    case (Seeking, Low) => "Low sensory seeking - limited interest in sensory exploration, may appear withdrawn from sensory experiences"
    case (Avoiding, High) => "High sensory avoiding - actively avoids sensory input, may be overwhelmed by everyday sensations"
    case (Avoiding, Typical) => "Typical sensory avoiding - appropriate behavioral responses to overwhelming sensory input"
    case (Avoiding, Low) => "Low sensory avoiding - tolerates most sensory experiences well"
    case (Sensitivity, High) => "High sensory sensitivity - notices sensory input others miss, easily distracted by background stimuli"
    case (Sensitivity, Typical) => "Typical sensory sensitivity - notices sensory input at expected levels"
    case (Sensitivity, Low) => "Low sensory sensitivity - may miss subtle sensory cues in environment"
    case (Registration, High) => "High registration challenges - misses important sensory information, appears unaware of sensory input"
    case (Registration, Typical) => "Typical sensory registration - notices relevant sensory information appropriately"
    case (Registration, Low) => "Good sensory registration - consistently notices and responds to sensory input"
  }

  /** One interpreter per quadrant: the text of the band the score falls in. */
  function InterpretSp2(q: Sp2Quadrant, score: int): (r: string)
    ensures score > 60 ==> r == Sp2Text(q, High)
    ensures 40 < score <= 60 ==> r == Sp2Text(q, Typical)
    ensures score <= 40 ==> r == Sp2Text(q, Low)
  {
    Sp2Text(q, Sp2BandOf(score))
  }

  /** The six real-world implications, in the order the source lists them. */
  datatype Sp2Implication =
    | GroomingDefensiveness | GroomingHygiene
    | PlayIntense | PlayMessy
    | FeedingSelective | FeedingAwareness
  {
    /** Position in the source's list. */
    function Rank(): nat {
      match this
      case GroomingDefensiveness => 0
      case GroomingHygiene => 1
      case PlayIntense => 2
      case PlayMessy => 3
      case FeedingSelective => 4
      case FeedingAwareness => 5
    }

    /** Grooming 0, play 1, feeding 2. */
    function Area(): nat {
      Rank() / 2
    }

    function Text(): string {
      match this
      case GroomingDefensiveness => "Grooming: May resist hairbrushing, teeth brushing, or face washing due to sensory defensiveness"
      case GroomingHygiene => "Grooming: May not notice when face or hands are dirty, requiring extra prompting for hygiene"
      case PlayIntense => "Play: Seeks intense physical play, may play roughly with toys and peers"
      case PlayMessy => "Play: May avoid messy play activities, prefers predictable sensory experiences"
      case FeedingSelective => "Feeding: May be highly selective about food textures, temperatures, or tastes"
      case FeedingAwareness => "Feeding: May not notice food around mouth, poor awareness of hunger/fullness cues"
    }
  }

  /** The condition under which the source adds an implication. */
  predicate Fires(i: Sp2Implication, seeking: int, avoiding: int, sensitivity: int, registration: int) {
    match i
    case GroomingDefensiveness => avoiding > 60 || sensitivity > 60
    case GroomingHygiene => registration > 60
    case PlayIntense => seeking > 60
    case PlayMessy => avoiding > 60
    case FeedingSelective => sensitivity > 60
    case FeedingAwareness => registration > 60
  }

  /** `_get_sp2_real_world_implications` */
  method GetSp2RealWorldImplications(seeking: int, avoiding: int, sensitivity: int, registration: int)
    returns (implications: seq<Sp2Implication>)
    ensures forall i: Sp2Implication :: i in implications <==> Fires(i, seeking, avoiding, sensitivity, registration)
    ensures forall j, k :: 0 <= j < k < |implications| ==> implications[j].Rank() < implications[k].Rank()
    ensures forall j, k :: 0 <= j < k < |implications| ==> implications[j].Area() <= implications[k].Area()
    ensures |implications| <= 6
    ensures implications == [] <==> seeking <= 60 && avoiding <= 60 && sensitivity <= 60 && registration <= 60
  {
    implications := [];
    if avoiding > 60 || sensitivity > 60 {
      implications := implications + [GroomingDefensiveness];
    }
    if registration > 60 {
      implications := implications + [GroomingHygiene];
    }
    if seeking > 60 {
      implications := implications + [PlayIntense];
    }
    if avoiding > 60 {
      implications := implications + [PlayMessy];
    }
    if sensitivity > 60 {
      implications := implications + [FeedingSelective];
    }
    if registration > 60 {
      implications := implications + [FeedingAwareness];
    }
  }

  // ----- ChOMPS ----------------------------------------------------------

  datatype ChompsConcern = HighConcern | ModerateConcern | MildConcern | NoConcern
  {
    function Text(): string {
      match this
      case HighConcern => "High concern - significant feeding difficulties requiring immediate intervention"
      case ModerateConcern => "Moderate concern - feeding challenges that warrant monitoring and intervention"
      case MildConcern => "Mild concern - minor feeding difficulties that may benefit from strategies"
      case NoConcern => "No concern - typical feeding behaviors for age"
    }

    function Rank(): nat {
      match this
      case HighConcern => 3
      case ModerateConcern => 2
      case MildConcern => 1
      case NoConcern => 0
    }
  }

  /** `_get_chomps_concern_level`: 7 / 4 / 2, a tie goes up. */
  function GetChompsConcernLevel(score: int): (c: ChompsConcern)
    ensures c == HighConcern <==> score >= 7
    ensures c == ModerateConcern <==> 4 <= score < 7
    ensures c == MildConcern <==> 2 <= score < 4
    ensures c == NoConcern <==> score < 2
  {
    if score >= 7 then HighConcern
    else if score >= 4 then ModerateConcern
    else if score >= 2 then MildConcern
    else NoConcern
  }

  lemma ChompsConcernMonotone(s1: int, s2: int)
    requires s1 <= s2
    ensures GetChompsConcernLevel(s1).Rank() <= GetChompsConcernLevel(s2).Rank()
  {
  }

  datatype ChompsRisk = BolusControl | Gagging | FoodHoarding | SwallowingSafety
  {
    function Rank(): nat {
      match this
      case BolusControl => 0
      case Gagging => 1
      case FoodHoarding => 2
      case SwallowingSafety => 3
    }

    /** The score key that raises the risk. */
    function Domain(): string {
      match this
      case BolusControl => "oral_motor"
      case Gagging => "oral_sensory"
      case FoodHoarding => "behavioral"
      case SwallowingSafety => "pharyngeal"
    }

    function Text(): string {
      match this
      case BolusControl => "Bolus control: Difficulty managing food bolus, risk of pocketing or spillage"
      case Gagging => "Gagging: Heightened gag response to textures, limiting food variety and intake"
      case FoodHoarding => "Food hoarding: Behavioral feeding patterns including food refusal or hoarding behaviors"
      case SwallowingSafety => "Swallowing safety: Potential aspiration risk requiring modified textures and positioning"
    }
  }

  /** `_assess_chomps_feeding_risks`: one risk per domain scoring 4 or more, in domain order. */
  method AssessChompsFeedingRisks(scores: map<string, int>) returns (risks: seq<ChompsRisk>)
    ensures forall r: ChompsRisk :: r in risks <==> ScoreOf(scores, r.Domain()) >= 4
    ensures forall j, k :: 0 <= j < k < |risks| ==> risks[j].Rank() < risks[k].Rank()
    ensures |risks| <= 4
  {
    risks := [];
    if ScoreOf(scores, "oral_motor") >= 4 {
      risks := risks + [BolusControl];
    }
    if ScoreOf(scores, "oral_sensory") >= 4 {
      risks := risks + [Gagging];
    }
    if ScoreOf(scores, "behavioral") >= 4 {
      risks := risks + [FoodHoarding];
    }
    if ScoreOf(scores, "pharyngeal") >= 4 {
      risks := risks + [SwallowingSafety];
    }
  }

  datatype ChompsRecommendation = FeedingTherapy | ModifiedTextures | CaregiverEducation | SwallowStudy
  {
    function Text(): string {
      match this
      case FeedingTherapy => "Feeding therapy with licensed speech-language pathologist"
      case ModifiedTextures => "Modified food textures and positioning strategies"
      case CaregiverEducation => "Caregiver education on safe feeding practices"
      case SwallowStudy => "Video fluoroscopic swallow study (VFSS) evaluation"
    }
  }

  const GeneralChompsRecommendations := [FeedingTherapy, ModifiedTextures, CaregiverEducation]

  /** Some score of the dictionary, under any key, is 4 or more. */
  predicate AnyScoreAtLeastFour(scores: map<string, int>) {
    exists k :: k in scores && scores[k] >= 4
  }

  /**
   * `_get_chomps_recommendations`: the three general items when any score is
   * 4 or more, then the swallow study when the pharyngeal score is 6 or more.
   */
  method GetChompsRecommendations(scores: map<string, int>) returns (recs: seq<ChompsRecommendation>)
    ensures |recs| == 0 || |recs| == 3 || |recs| == 4
    ensures recs == [] <==> !AnyScoreAtLeastFour(scores)
    ensures |recs| >= 3 ==> recs[..3] == GeneralChompsRecommendations
    ensures SwallowStudy in recs <==> ScoreOf(scores, "pharyngeal") >= 6
    ensures SwallowStudy in recs ==> |recs| == 4 && recs[3] == SwallowStudy
    ensures |recs| == 4 ==> recs[3] == SwallowStudy
  {
    recs := [];
    if exists k :: k in scores && scores[k] >= 4 {
      recs := recs + GeneralChompsRecommendations;
    }
    if ScoreOf(scores, "pharyngeal") >= 6 {
      assert "pharyngeal" in scores && scores["pharyngeal"] >= 4;
      recs := recs + [SwallowStudy];
    }
  }

  // ----- PediEAT ---------------------------------------------------------

  datatype PediEatDomain = Physiology | Processing | MealtimeBehavior | Selectivity

  datatype PediEatBand = Elevated | Moderate | TypicalEating

  /** The shared thresholds of the four PediEAT interpreters: above 14, above 7. */
  function PediEatBandOf(score: int): (b: PediEatBand)
    ensures b == Elevated <==> score > 14
    ensures b == Moderate <==> 7 < score <= 14
    ensures b == TypicalEating <==> score <= 7
  {
    if score > 14 then Elevated else if score > 7 then Moderate else TypicalEating
  }

  /** The texts of `_interpret_pedieat_physiology/_processing/_behavior/_selectivity`. */
  function PediEatText(d: PediEatDomain, b: PediEatBand): string {
    match (d, b)
    case (Physiology, Elevated) => "Elevated physiological symptoms - significant concerns with growth, medical complexity, or physical function during meals"
    case (Physiology, Moderate) => "Moderate physiological symptoms - some concerns with physical aspects of eating and growth"
    case (Physiology, TypicalEating) => "Typical physiological function - no significant concerns with physical eating processes"
    case (Processing, Elevated) => "Elevated processing symptoms - significant sensory processing challenges affecting eating and mealtime participation"
    case (Processing, Moderate) => "Moderate processing symptoms - some sensory processing differences impacting food acceptance"
    case (Processing, TypicalEating) => "Typical sensory processing - appropriate sensory responses during eating"
    case (MealtimeBehavior, Elevated) => "Elevated behavioral symptoms - significant challenging behaviors during mealtimes affecting family dynamics"
    case (MealtimeBehavior, Moderate) => "Moderate behavioral symptoms - some challenging mealtime behaviors requiring strategies"
    case (MealtimeBehavior, TypicalEating) => "Typical mealtime behaviors - appropriate social engagement and cooperation during meals"
    case (Selectivity, Elevated) => "Elevated selectivity symptoms - severe food selectivity limiting nutritional intake and food variety"
    case (Selectivity, Moderate) => "Moderate selectivity symptoms - some food preferences and limitations affecting meal planning"
    case (Selectivity, TypicalEating) => "Typical food selectivity - age-appropriate food preferences and acceptance"
  }

  function InterpretPediEat(d: PediEatDomain, score: int): (r: string)
    ensures score > 14 ==> r == PediEatText(d, Elevated)
    ensures 7 < score <= 14 ==> r == PediEatText(d, Moderate)
    ensures score <= 7 ==> r == PediEatText(d, TypicalEating)
  {
    PediEatText(d, PediEatBandOf(score))
  }

  datatype PediEatConcern = NutritionalSafety | GrowthConcerns | MealtimeSafety | FeedingEndurance | EnergyConservation
  {
    function Text(): string {
      match this
      case NutritionalSafety => "Nutritional safety: Risk of inadequate caloric or nutrient intake"
      case GrowthConcerns => "Growth concerns: May require nutritional monitoring and intervention"
      case MealtimeSafety => "Mealtime safety: Behavioral challenges may impact safe food consumption"
      case FeedingEndurance => "Feeding endurance: May fatigue quickly during meals, requiring shorter feeding sessions"
      case EnergyConservation => "Energy conservation: Strategies needed to optimize energy during eating"
    }
  }

  /** `_assess_pedieat_safety`: physiology above 12 adds two items, mealtime behaviour above 12 one. */
  method AssessPediEatSafety(scores: map<string, int>) returns (concerns: seq<PediEatConcern>)
    ensures |concerns| == (if ScoreOf(scores, "physiology") > 12 then 2 else 0)
                        + (if ScoreOf(scores, "mealtime_behavior") > 12 then 1 else 0)
    ensures ScoreOf(scores, "physiology") > 12 ==> concerns[..2] == [NutritionalSafety, GrowthConcerns]
    ensures (NutritionalSafety in concerns || GrowthConcerns in concerns) <==> ScoreOf(scores, "physiology") > 12
    ensures MealtimeSafety in concerns <==> ScoreOf(scores, "mealtime_behavior") > 12
    ensures MealtimeSafety in concerns ==> concerns[|concerns| - 1] == MealtimeSafety
    ensures FeedingEndurance !in concerns && EnergyConservation !in concerns
  {
    concerns := [];
    if ScoreOf(scores, "physiology") > 12 {
      concerns := concerns + [NutritionalSafety, GrowthConcerns];
    }
    if ScoreOf(scores, "mealtime_behavior") > 12 {
      concerns := concerns + [MealtimeSafety];
    }
  }

  /** `_assess_pedieat_endurance`: physiology above 10 adds both endurance items. */
  method AssessPediEatEndurance(scores: map<string, int>) returns (concerns: seq<PediEatConcern>)
    ensures ScoreOf(scores, "physiology") > 10 ==> concerns == [FeedingEndurance, EnergyConservation]
    ensures ScoreOf(scores, "physiology") <= 10 ==> concerns == []
  {
    concerns := [];
    if ScoreOf(scores, "physiology") > 10 {
      concerns := concerns + [FeedingEndurance, EnergyConservation];
    }
  }
}
