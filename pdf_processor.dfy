/**
 * The deterministic parts of the PDF processor (pdf_processor.py): the age
 * record, the composite-score interpretation, the bullet-to-narrative
 * rewriting, the composite-score scan and the per-file dispatch loop.  PDF
 * text extraction and the regular-expression searches are inputs.
 */
module PdfProcessor {
  import opened Text

  // ----- Age -----------------------------------------------------------------

  datatype AgeRecord = AgeRecord(years: int, months: int, days: int, totalMonths: int, formatted: string)

  /**
   * `calculate_chronological_age`, from the day difference of the two
   * dates: 365-day years and 30-day months by floor division, which agrees
   * with Dafny's for a positive divisor.
   */
  function CalculateChronologicalAge(dayDifference: int): (a: AgeRecord)
    ensures a.years * 365 + a.months * 30 + a.days == dayDifference
    ensures 0 <= a.days < 30 && 0 <= a.months <= 12
    ensures a.months * 30 + a.days < 365
    ensures a.totalMonths == 12 * a.years + a.months
    ensures dayDifference >= 0 ==> a.years >= 0
    ensures a.formatted == IntToString(a.years) + " years, " + IntToString(a.months) + " months, " + IntToString(a.days) + " days"
  {
    var years := dayDifference / 365;
    var remaining := dayDifference % 365;
    AgeRecord(years, remaining / 30, remaining % 30, years * 12 + remaining / 30,
      IntToString(years) + " years, " + IntToString(remaining / 30) + " months, " + IntToString(remaining % 30) + " days")
  }

  /** The day remainder is the remainder modulo 30 of the remainder modulo 365. */
  lemma AgeDaysDetermined(d1: int, d2: int)
    requires d1 % 365 == d2 % 365
    ensures CalculateChronologicalAge(d1).months == CalculateChronologicalAge(d2).months
    ensures CalculateChronologicalAge(d1).days == CalculateChronologicalAge(d2).days
  {
  }

  // ----- Composite scores --------------------------------------------------------

  /** The seven composite bands, from the bottom. */
  datatype CompositeBand = ExtremelyLow | BelowAverage | LowAverage | Average | HighAverage | Superior | VerySuperior
  {
    function Rank(): nat {
      match this
      case ExtremelyLow => 0
      case BelowAverage => 1
      case LowAverage => 2
      case Average => 3
      case HighAverage => 4
      case Superior => 5
      case VerySuperior => 6
    }

    function Classification(): string {
      match this
      case VerySuperior => "Very Superior"
      case Superior => "Superior"
      case HighAverage => "High Average"
      case Average => "Average"
      case LowAverage => "Low Average"
      case BelowAverage => "Below Average"
      case ExtremelyLow => "Extremely Low"
    }

    function RangeDescription(): string {
      match this
      case VerySuperior => "Well above average"
      case Superior => "Above average"
      case HighAverage => "Slightly above average"
      case Average => "Within normal limits"
      case LowAverage => "Slightly below average"
      case BelowAverage => "Below average, may indicate delay"
      case ExtremelyLow => "Significantly below average, indicates significant delay"
    }
  }

  /** The band of a composite score: 130 / 120 / 110 / 90 / 80 / 70, a tie goes up. */
  function CompositeBandOf(score: int): (b: CompositeBand)
    ensures b == VerySuperior <==> score >= 130
    ensures b == Superior <==> 120 <= score < 130
    ensures b == HighAverage <==> 110 <= score < 120
    ensures b == Average <==> 90 <= score < 110
    ensures b == LowAverage <==> 80 <= score < 90
    ensures b == BelowAverage <==> 70 <= score < 80
    ensures b == ExtremelyLow <==> score < 70
  {
    if score >= 130 then VerySuperior
    else if score >= 120 then Superior
    else if score >= 110 then HighAverage
    else if score >= 90 then Average
    else if score >= 80 then LowAverage
    else if score >= 70 then BelowAverage
    else ExtremelyLow
  }

  lemma CompositeBandMonotone(s1: int, s2: int)
    requires s1 <= s2
    ensures CompositeBandOf(s1).Rank() <= CompositeBandOf(s2).Rank()
  {
  }

  /** `_score_to_percentile` of the PDF processor. */
  function ScoreToPercentile(score: int): (p: int)
    ensures p in {1, 2, 9, 25, 50, 75, 91, 98}
    ensures p == 98 <==> score >= 130
    ensures p == 1 <==> score < 70
  {
    if score >= 130 then 98
    else if score >= 120 then 91
    else if score >= 110 then 75
    else if score >= 100 then 50
    else if score >= 90 then 25
    else if score >= 80 then 9
    else if score >= 70 then 2
    else 1
  }

  lemma ScoreToPercentileMonotone(s1: int, s2: int)
    requires s1 <= s2
    ensures ScoreToPercentile(s1) <= ScoreToPercentile(s2)
  {
  }

  datatype Significance = SignificantDelay | MildDelay | Borderline | WithinNormalLimits
  {
    function Text(): string {
      match this
      case SignificantDelay => "Significant delay requiring intervention"
      case MildDelay => "Mild delay, monitor and consider support"
      case Borderline => "Borderline, continue monitoring"
      case WithinNormalLimits => "Within normal limits"
    }

    function Rank(): nat {
      match this
      case SignificantDelay => 0
      case MildDelay => 1
      case Borderline => 2
      case WithinNormalLimits => 3
    }
  }

  /** `_get_clinical_significance`: under 70, under 85, 90 and up, and 85 to 89 last. */
  function GetClinicalSignificance(score: int): (s: Significance)
    ensures s == SignificantDelay <==> score < 70
    ensures s == MildDelay <==> 70 <= score < 85
    ensures s == Borderline <==> 85 <= score < 90
    ensures s == WithinNormalLimits <==> score >= 90
  {
    if score < 70 then SignificantDelay
    else if score < 85 then MildDelay
    else if score >= 90 then WithinNormalLimits
    else Borderline
  }

  lemma ClinicalSignificanceMonotone(s1: int, s2: int)
    requires s1 <= s2
    ensures GetClinicalSignificance(s1).Rank() <= GetClinicalSignificance(s2).Rank()
  {
  }

  datatype CompositeInterpretation = CompositeInterpretation(
    classification: string, rangeDescription: string, percentile: int, clinicalSignificance: string)

  /** `_interpret_composite_score`: band, percentile and significance of one score. */
  function InterpretCompositeScore(score: int): (r: CompositeInterpretation)
    ensures r.classification == CompositeBandOf(score).Classification()
    ensures r.rangeDescription == CompositeBandOf(score).RangeDescription()
    ensures r.percentile == ScoreToPercentile(score)
    ensures r.clinicalSignificance == GetClinicalSignificance(score).Text()
  {
    var band := CompositeBandOf(score);
    CompositeInterpretation(band.Classification(), band.RangeDescription(),
      ScoreToPercentile(score), GetClinicalSignificance(score).Text())
  }

  /** The three views of one score agree: an average band is never read as a delay. */
  lemma InterpretationAgrees(score: int)
    ensures CompositeBandOf(score) == Average ==> GetClinicalSignificance(score) == WithinNormalLimits
    ensures CompositeBandOf(score) == ExtremelyLow <==> GetClinicalSignificance(score) == SignificantDelay
    ensures CompositeBandOf(score) == ExtremelyLow <==> ScoreToPercentile(score) == 1
  {
  }

  /**
   * The composite scan of `_extract_bayley4_data`: for each composite name,
   * in order, a score found after the name is stored together with its
   * interpretation.  `found` is what the search after each name yields.
   */
  method ScanComposites(composites: seq<string>, found: map<string, int>)
    returns (scores: map<string, int>, interpretations: map<string, CompositeInterpretation>)
    ensures scores.Keys == interpretations.Keys
    ensures forall c :: c in scores <==> c in composites && c in found
    ensures forall c :: c in scores ==> scores[c] == found[c] && interpretations[c] == InterpretCompositeScore(found[c])
  {
    scores, interpretations := map[], map[];
    var i := 0;
    while i < |composites|
      invariant 0 <= i <= |composites|
      invariant scores.Keys == interpretations.Keys
      invariant forall c :: c in scores <==> c in composites[..i] && c in found
      invariant forall c :: c in scores ==> scores[c] == found[c] && interpretations[c] == InterpretCompositeScore(found[c])
    {
      var composite := composites[i];
      if composite in found {
        var score := found[composite];
        scores := scores[composite := score];
        interpretations := interpretations[composite := InterpretCompositeScore(score)];
      }
      assert composites[..i + 1] == composites[..i] + [composite];
      i := i + 1;
    }
    assert composites[..i] == composites;
  }

  // ----- Bullet to narrative --------------------------------------------------------

  /** The length of the run of word characters at the front of `s`. */
  function WordRun(s: string): (n: nat)
    ensures n <= |s|
    ensures forall i :: 0 <= i < n ==> IsWordChar(s[i])
    ensures n < |s| ==> !IsWordChar(s[n])
    decreases |s|
  {
    if |s| > 0 && IsWordChar(s[0]) then 1 + WordRun(s[1..]) else 0
  }

  const Required := "required "
  const Assistance := " assistance"
  const Appeared := "appeared "

  /**
   * `re.sub(r"required (\w+) assistance", r"required \1 level of assistance", s)`:
   * a greedy word run can only be followed by the space when it is maximal.
   */
  function SubRequired(s: string): string
    decreases |s|
  {
    if StartsWith(s, Required) && 0 < WordRun(s[|Required|..]) && StartsWith(s[|Required| + WordRun(s[|Required|..])..], Assistance) then
      var w := WordRun(s[|Required|..]);
      Required + s[|Required|..|Required| + w] + " level of assistance" + SubRequired(s[|Required| + w + |Assistance|..])
    else if |s| == 0 then ""
    else [s[0]] + SubRequired(s[1..])
  }

  /** `re.sub(r"appeared (\w+)", r"appeared \1 throughout the session", s)`. */
  function SubAppeared(s: string): string
    decreases |s|
  {
    if StartsWith(s, Appeared) && 0 < WordRun(s[|Appeared|..]) then
      var w := WordRun(s[|Appeared|..]);
      Appeared + s[|Appeared|..|Appeared| + w] + " throughout the session" + SubAppeared(s[|Appeared| + w..])
    else if |s| == 0 then ""
    else [s[0]] + SubAppeared(s[1..])
  }

  /** One entry of the conversion table: a fixed phrase, or one of the two word patterns. */
  datatype Conversion = Phrase(pattern: string, replacement: string) | RequiredLevel | AppearedThroughout
  {
    predicate Valid() {
      Phrase? ==> |pattern| > 0
    }

    function ApplyTo(s: string): string
      requires Valid()
    {
      match this
      case Phrase(pattern, replacement) => Replace(s, pattern, replacement)
      case RequiredLevel => SubRequired(s)
      case AppearedThroughout => SubAppeared(s)
    }
  }

  /** The conversion table, in its order. */
  const Conversions: seq<Conversion> := [
    Phrase("overstuffed mouth", "overstuffed his/her mouth"),
    Phrase("gagged several times", "gagged in response to large bolus sizes"),
    Phrase("used both hands", "used both hands during self-feeding, demonstrating"),
    Phrase("limited oral control", "but showed limited oral motor control"),
    Phrase("refused", "demonstrated refusal behaviors when presented with"),
    RequiredLevel,
    AppearedThroughout]

  /** The first `n` conversions applied in turn. */
  function Converted(s: string, n: nat): string
    requires n <= |Conversions|
  {
    if n == 0 then s
    else
      assert Conversions[n - 1].Valid();
      Conversions[n - 1].ApplyTo(Converted(s, n - 1))
  }

  /** The closing steps: a full stop if missing, the first letter upper-cased, "Child " in front. */
  function Finish(narrative: string): (r: string)
    ensures StartsWith(r, "Child ") && EndsWith(r, ".")
  {
    var stopped := if EndsWith(narrative, ".") then narrative else narrative + ".";
    var capitalised := [UpperChar(stopped[0])] + stopped[1..];
    assert capitalised[|capitalised| - 1] == stopped[|stopped| - 1];
    "Child " + capitalised
  }

  /**
   * `_convert_bullet_to_narrative`: the bullet lower-cased, the conversion
   * table applied entry by entry, then finished as a sentence.
   */
  method ConvertBulletToNarrative(bullet: string) returns (r: string)
    ensures r == Finish(Converted(Lower(bullet), |Conversions|))
    ensures StartsWith(r, "Child ") && EndsWith(r, ".")
  {
    var narrative := Lower(bullet);
    var i := 0;
    while i < |Conversions|
      invariant 0 <= i <= |Conversions|
      invariant narrative == Converted(Lower(bullet), i)
    {
      assert Conversions[i].Valid();
      narrative := Conversions[i].ApplyTo(narrative);
      i := i + 1;
    }
    r := Finish(narrative);
  }

  /** The bullet is lower-cased first, so its letter case never changes the narrative. */
  lemma NarrativeIgnoresCase(bullet: string)
    ensures Finish(Converted(Lower(Lower(bullet)), |Conversions|)) == Finish(Converted(Lower(bullet), |Conversions|))
  {
    LowerIdempotent(bullet);
  }

  // ----- The per-file loop ---------------------------------------------------------

  /** What the file system and text extraction give for one path. */
  datatype PdfFile = Missing | Present(text: string)

  /** Which extractor a tag selects. */
  datatype Extractor = Bayley4 | Sp2 | Chomps | PediEat | Facesheet | ClinicalNotes | RawText

  function ExtractorFor(tag: string): (e: Extractor)
    ensures e == Bayley4 <==> tag in {"bayley4_cognitive", "bayley4_social"}
    ensures e == RawText <==> tag !in {"bayley4_cognitive", "bayley4_social", "sp2", "chomps", "pedieat", "facesheet", "clinical_notes"}
  {
    if tag in {"bayley4_cognitive", "bayley4_social"} then Bayley4
    else if tag == "sp2" then Sp2
    else if tag == "chomps" then Chomps
    else if tag == "pedieat" then PediEat
    else if tag == "facesheet" then Facesheet
    else if tag == "clinical_notes" then ClinicalNotes
    else RawText
  }

  /** What an extractor does: the data it builds, or the exception it raises. */
  datatype Extraction = Extracted(data: map<string, string>) | Raised

  /**
   * One file: a missing file or empty text is skipped, an unknown tag keeps
   * the raw text, a known tag runs its extractor; an exception or empty
   * data skips the file.  `run` stands for the extractors on the text.
   */
  function ProcessOne(tag: string, file: PdfFile, run: (Extractor, string, string) -> Extraction): (r: Option<map<string, string>>)
    ensures r.Some? ==> r.value != map[]
    ensures r.Some? ==> file.Present? && file.text != ""
  {
    if file.Missing? || file.text == "" then None
    else
      var outcome := if ExtractorFor(tag) == RawText then Extracted(map["raw_text" := file.text])
        else run(ExtractorFor(tag), tag, file.text);
      if outcome.Extracted? && outcome.data != map[] then Some(outcome.data) else None
  }

  /**
   * The uploads processed in order.  The source's uploads are a dictionary,
   * so its tags are distinct; the sequence generalises it, and a later
   * upload of a tag replaces an earlier one.
   */
  function Processed(uploads: seq<(string, string)>, files: string -> PdfFile,
                     run: (Extractor, string, string) -> Extraction): map<string, map<string, string>>
    decreases |uploads|
  {
    if |uploads| == 0 then map[]
    else
      var n := |uploads| - 1;
      var before := Processed(uploads[..n], files, run);
      match ProcessOne(uploads[n].0, files(uploads[n].1), run)
      case Some(data) => before[uploads[n].0 := data]
      case None => before
  }

  /**
   * `process_multiple_assessments`: `uploads` are the (tag, path) pairs of
   * the uploaded files, `files` what reading each path gives.
   */
  method ProcessMultipleAssessments(uploads: seq<(string, string)>, files: string -> PdfFile,
                                    run: (Extractor, string, string) -> Extraction)
    returns (extracted: map<string, map<string, string>>)
    ensures extracted == Processed(uploads, files, run)
  {
    extracted := map[];
    var i := 0;
    while i < |uploads|
      invariant 0 <= i <= |uploads|
      invariant extracted == Processed(uploads[..i], files, run)
    {
      assert uploads[..i + 1][..i] == uploads[..i];
      var (tag, path) := uploads[i];
      var outcome := ProcessOne(tag, files(path), run);
      if outcome.Some? {
        extracted := extracted[tag := outcome.value];
      }
      i := i + 1;
    }
    assert uploads[..i] == uploads;
  }

  /**
   * A tag is in the result exactly when one of its uploads went through; a
   * failing upload drops only itself, and what is kept is non-empty data.
   */
  lemma {:induction false} ProcessedMembership(uploads: seq<(string, string)>, files: string -> PdfFile,
                                               run: (Extractor, string, string) -> Extraction, tag: string)
    ensures tag in Processed(uploads, files, run) <==>
      exists i :: 0 <= i < |uploads| && uploads[i].0 == tag && ProcessOne(tag, files(uploads[i].1), run).Some?
    ensures tag in Processed(uploads, files, run) ==> Processed(uploads, files, run)[tag] != map[]
    decreases |uploads|
  {
    if |uploads| > 0 {
      var n := |uploads| - 1;
      var init := uploads[..n];
      ProcessedMembership(init, files, run, tag);
      forall i | 0 <= i < |uploads| && uploads[i].0 == tag && ProcessOne(tag, files(uploads[i].1), run).Some?
        ensures tag in Processed(uploads, files, run)
      {
        if i < n {
          assert init[i] == uploads[i];
        }
      }
      if tag in Processed(init, files, run) {
        var i :| 0 <= i < |init| && init[i].0 == tag && ProcessOne(tag, files(init[i].1), run).Some?;
        assert uploads[i] == init[i];
      }
    }
  }

  /**
   * As written, every known tag's extractor calls a text-extraction method
   * the class does not define, so it raises before doing anything.
   */
  function RunAsWritten(e: Extractor, tag: string, text: string): Extraction {
    Raised
  }

  /**
   * As written, only tags without an extractor of their own ever reach the
   * result, and each keeps nothing but its "raw_text" entry.
   */
  lemma AsWrittenKeepsOnlyRawText(uploads: seq<(string, string)>, files: string -> PdfFile, tag: string)
    requires tag in Processed(uploads, files, RunAsWritten)
    ensures ExtractorFor(tag) == RawText
    ensures Processed(uploads, files, RunAsWritten)[tag].Keys == {"raw_text"}
  {
    var i := LastSuccessful(uploads, files, RunAsWritten, tag);
    AsWrittenValues(uploads, files, tag, i);
  }

  /** As written, a tag's entry is exactly the raw text of its last upload that went through. */
  lemma AsWrittenValues(uploads: seq<(string, string)>, files: string -> PdfFile, tag: string, i: nat)
    requires i < |uploads| && uploads[i].0 == tag && ProcessOne(tag, files(uploads[i].1), RunAsWritten).Some?
    requires forall j :: i < j < |uploads| && uploads[j].0 == tag ==> ProcessOne(tag, files(uploads[j].1), RunAsWritten).None?
    ensures ExtractorFor(tag) == RawText && files(uploads[i].1).Present?
    ensures tag in Processed(uploads, files, RunAsWritten)
    ensures Processed(uploads, files, RunAsWritten)[tag] == map["raw_text" := files(uploads[i].1).text]
  {
    LastSuccessfulUploadDecides(uploads, files, RunAsWritten, tag, i);
  }

  /**
   * With extractors that work, a file of a known tag with text whose
   * extractor returns data is kept with exactly that data.
   */
  lemma IntendedProcessesKnownTag(tag: string, file: PdfFile, run: (Extractor, string, string) -> Extraction)
    requires ExtractorFor(tag) != RawText
    requires file.Present? && file.text != ""
    requires run(ExtractorFor(tag), tag, file.text).Extracted? && run(ExtractorFor(tag), tag, file.text).data != map[]
    ensures ProcessOne(tag, file, run) == Some(run(ExtractorFor(tag), tag, file.text).data)
  {
  }

  /** A tag in the result has a last upload that went through. */
  lemma {:induction false} LastSuccessful(uploads: seq<(string, string)>, files: string -> PdfFile,
                                          run: (Extractor, string, string) -> Extraction, tag: string)
    returns (i: nat)
    requires tag in Processed(uploads, files, run)
    ensures i < |uploads| && uploads[i].0 == tag && ProcessOne(tag, files(uploads[i].1), run).Some?
    ensures forall j :: i < j < |uploads| && uploads[j].0 == tag ==> ProcessOne(tag, files(uploads[j].1), run).None?
    decreases |uploads|
  {
    var n := |uploads| - 1;
    if uploads[n].0 == tag && ProcessOne(tag, files(uploads[n].1), run).Some? {
      i := n;
    } else {
      var init := uploads[..n];
      i := LastSuccessful(init, files, run, tag);
      assert init[i] == uploads[i];
      forall j | i < j < |uploads| && uploads[j].0 == tag
        ensures ProcessOne(tag, files(uploads[j].1), run).None?
      {
        if j < n {
          assert init[j] == uploads[j];
        }
      }
    }
  }

  /**
   * The last upload of a tag that goes through decides that tag's entry;
   * later failing uploads of the tag do not remove it.
   */
  lemma {:induction false} LastSuccessfulUploadDecides(uploads: seq<(string, string)>, files: string -> PdfFile,
                                                       run: (Extractor, string, string) -> Extraction, tag: string, i: nat)
    requires i < |uploads| && uploads[i].0 == tag && ProcessOne(tag, files(uploads[i].1), run).Some?
    requires forall j :: i < j < |uploads| && uploads[j].0 == tag ==> ProcessOne(tag, files(uploads[j].1), run).None?
    ensures tag in Processed(uploads, files, run)
    ensures Processed(uploads, files, run)[tag] == ProcessOne(tag, files(uploads[i].1), run).value
    decreases |uploads|
  {
    var n := |uploads| - 1;
    if i < n {
      var init := uploads[..n];
      assert init[i] == uploads[i];
      forall j | i < j < |init| && init[j].0 == tag
        ensures ProcessOne(tag, files(init[j].1), run).None?
      {
        assert init[j] == uploads[j];
      }
      LastSuccessfulUploadDecides(init, files, run, tag, i);
    }
  }

  /**
   * With distinct tags, as the source's dictionary of uploads has, a tag is
   * in the result iff its one upload goes through, and then holds that
   * upload's data.
   */
  lemma DistinctTagsEntry(uploads: seq<(string, string)>, files: string -> PdfFile,
                          run: (Extractor, string, string) -> Extraction, i: nat)
    requires forall j, k :: 0 <= j < k < |uploads| ==> uploads[j].0 != uploads[k].0
    requires i < |uploads|
    ensures uploads[i].0 in Processed(uploads, files, run) <==> ProcessOne(uploads[i].0, files(uploads[i].1), run).Some?
    ensures uploads[i].0 in Processed(uploads, files, run) ==>
      Processed(uploads, files, run)[uploads[i].0] == ProcessOne(uploads[i].0, files(uploads[i].1), run).value
  {
    var tag := uploads[i].0;
    ProcessedMembership(uploads, files, run, tag);
    if ProcessOne(tag, files(uploads[i].1), run).Some? {
      LastSuccessfulUploadDecides(uploads, files, run, tag, i);
    }
  }
}
