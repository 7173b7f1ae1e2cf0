# ot-report in Dafny

ot-report produces pediatric occupational-therapy evaluation reports. A
clinician uploads assessment PDFs (Bayley-4 cognitive and social-emotional,
Sensory Profile 2, ChOMPS, PediEAT, a facesheet and clinical notes). The
service extracts scores from them, interprets the scores, asks an OpenAI model
for narrative sections and renders the report as a PDF (ReportLab) or as a
Google Doc.

This project models the deterministic core of that pipeline and proves
properties of it. The modules are:

- `Text` (text.dfy): the Python string operations the core relies on. These
  are `split`, `join`, `strip`, `lower`, `replace`, `startswith`, `in`, digit
  tests and integer printing, each with the lemmas the other modules use
  (split/join round trip, strip idempotence, printing round trip).
- `ReportScoring` (report_scoring.dfy): chronological age, Bayley-4
  scaled-score bands, percentile and classification tables, and the domain
  implications table of `openai_report_generator.py`.
- `Synthesis` (synthesis.dfy): the cross-domain helpers that pick strengths,
  needs and concerns and summarise average performance. They appear in
  `backend/prompts/*` and again, verbatim, in `openai_report_generator.py`.
  They are modelled once, and both locations are cited.
- `SensoryFeeding` (sensory_feeding.dfy): Sensory Profile 2, ChOMPS and
  PediEAT interpretation and risk lists.
- `FallbackText` (fallback_text.dfy): `_generate_fallback_text`, the
  offline paragraph chosen by keywords in the prompt.
- `Narratives` (narratives.dfy): the consolidated-narrative parser
  (`[SECTION]` markers), the fallback dictionary, `_get_consolidated_narrative`
  and the list shapers built on it.
- `DocsRequests` (docs_requests.dfy): `_format_bayley4_for_docs`, and the
  Google Docs `batchUpdate` request list built by
  `_build_enhanced_docs_requests`. It tracks the running insertion index
  that every request depends on, and the batching into groups of 50.
- `PdfProcessor` (pdf_processor.dfy): `EnhancedPDFProcessor`, covering age
  arithmetic, composite-score interpretation, bullet-to-narrative rewriting
  and the per-upload dispatch of `process_multiple_assessments`.
- `ReportTables` (report_tables.dfy): the score tables and numbered
  recommendations of `report_generator.py`.
- `DocsIntegration` (docs_integration.dfy): credential-file validation and
  the text formatters of `google_docs_integration.py`.
- `PromptRegistry` (prompt_registry.dfy): `PromptDict` / `get_prompt` and
  `remove_lang_tags` of `backend/prompts/__init__.py`.
- `PdfResponse` (pdf_response.dfy): `format_data_for_pdf` of
  `backend/utils/response.py`.
- `ChatGraph` (chat_graph.dfy): the `ChatBot` class of
  `backend/langgraph/graph.py`, a class whose history list is updated in
  place.
- `VisionOcr` (vision_ocr.dfy): response parsing, table parsing and the
  summary counts of `scripts/pdf_vision_ocr.py`.

Where the source relies on something outside the model, that thing becomes a
parameter of the model. This covers a model reply, the text a PDF yields, a
file's existence, a regular-expression search result, a JSON decoder and
today's date. Python dictionaries are Dafny maps. Where the order of a
dictionary's items matters, it is a sequence of pairs in insertion order.

## Model

| member | source | states |
|---|---|---|
| ReportScoring.CalculateChronologicalAge | openai_report_generator.py:126-163 | an unparsable date gives the "Age calculation unavailable" record; otherwise years·365 + months·30 + days equals the day difference, with days in 0..29, months in 0..12 (12 exactly when the remainder is 360..364), total months = 12·years + months, and the text "Y years, M months" when years > 0, else "N months" |
| ReportScoring.TotalMonthsMonotone | openai_report_generator.py:126-163 | a later encounter date never yields fewer total months |
| ReportScoring.InterpretationBand | openai_report_generator.py:1166-1181 | the band is Above Average iff score ≥ 13, Average iff 8..12, Below Average iff 4..7, Extremely Low iff < 4 |
| ReportScoring.InterpretationBandMonotone | openai_report_generator.py:1166-1181 | a higher scaled score never gets a lower band |
| ReportScoring.GetBayleyScoreInterpretation | openai_report_generator.py:1163-1192 | the record keeps the score and carries the band's label, percentile range and description, plus the implication text looked up with that label |
| ReportScoring.GetDomainFunctionalImplications | openai_report_generator.py:1194-1229 | for one of the five listed domains and four band labels, the table entry; for any other pair, "requires further assessment in <domain> domain" |
| ReportScoring.InterpretationUsesTable | openai_report_generator.py:1163-1229 | for a listed domain, the interpretation never falls back to the default text, because every band label it can produce is in the table |
| ReportScoring.GetScoreClassification | openai_report_generator.py:1657-1666 | the detailed-section classification: 16 / 8 / 4 thresholds, each band stated as an if-and-only-if |
| ReportScoring.ScoreClassificationMonotone | openai_report_generator.py:1657-1666 | the classification is monotone in the score |
| ReportScoring.ScoreToPercentile | openai_report_generator.py:1668-1680 | the percentile is one of 5, 25, 50, 75, 85; it is 85 iff score ≥ 16 and 5 iff score < 4 |
| ReportScoring.ScoreToPercentileMonotone | openai_report_generator.py:1668-1680 | the percentile is monotone in the score |
| Synthesis.PickedMembership | backend/prompts/professional_summary_prompts.py:124-158 | a name is picked iff some entry with that name passes the cut, lower-cased and suffixed |
| Synthesis.StrengthNeedPartition | backend/prompts/professional_summary_prompts.py:124-158 | strengths (≥ 10), needs (< 8) and the middle band (8, 9) partition the scores |
| Synthesis.AppendPicked | backend/prompts/professional_summary_prompts.py:128-138 | the dictionary loop appends exactly the picked names, in insertion order |
| Synthesis.IdentifyAssessmentStrengths | backend/prompts/professional_summary_prompts.py:124-140 | the first three domains scoring ≥ 10, cognitive before social, joined by ", "; the default list when there are none (same code at openai_report_generator.py:2701-2717) |
| Synthesis.IdentifyAssessmentNeeds | backend/prompts/professional_summary_prompts.py:143-158 | the first four domains scoring < 8, joined by ", "; the default list when there are none (same code at openai_report_generator.py:2719-2735) |
| Synthesis.AnalyzeAssessmentConcerns | backend/prompts/caregiver_concerns_prompts.py:87-108 | cognitive domains < 7 as "<d> development", then social ones as "<d> skills"; the four defaults when none qualify; 1 to 4 concerns joined (same code at openai_report_generator.py:2383-2405) |
| Synthesis.AverageBandOf | backend/prompts/professional_summary_prompts.py:98-107 | the band is "below 7" iff the mean is < 7 and "above 13" iff the mean is > 13, stated over the real mean |
| Synthesis.GenerateOverallPerformanceAnalysis | backend/prompts/professional_summary_prompts.py:93-121 | one phrase per non-empty record, chosen by its mean band, cognitive first, joined by "; "; the default when both are empty (same code at openai_report_generator.py:2671-2699) |
| Synthesis.AnalyzePerformancePatterns | backend/prompts/clinical_observations_prompts.py:94-121 | the same shape with the pattern phrases (same code at openai_report_generator.py:2407-2435) |
| Synthesis.ObservationsExcerpt | backend/prompts/clinical_observations_prompts.py:25 | the first three observations joined by "; ", or the standard text when there are none |
| Synthesis.ExcerptUsesFirstThree | backend/prompts/clinical_observations_prompts.py:25 | observations after the third never reach the prompt |
| SensoryFeeding.Sp2BandOf | openai_report_generator.py:1264-1298 | the Sensory Profile 2 band is high iff > 60, typical iff 41..60, low iff ≤ 40 |
| SensoryFeeding.InterpretSp2 | openai_report_generator.py:1264-1298 | each quadrant's text is the one for the score's band |
| SensoryFeeding.GetSp2RealWorldImplications | openai_report_generator.py:1300-1322 | an implication is listed iff its quadrant score is > 60; the list follows the source's order (grooming, then play, then feeding), has at most six items and is empty iff no quadrant is > 60 |
| SensoryFeeding.GetChompsConcernLevel | openai_report_generator.py:1353-1362 | high iff ≥ 7, moderate iff 4..6, mild iff 2..3, none iff < 2 |
| SensoryFeeding.ChompsConcernMonotone | openai_report_generator.py:1353-1362 | the concern level is monotone in the score |
| SensoryFeeding.AssessChompsFeedingRisks | openai_report_generator.py:1364-1384 | a domain's risk is listed iff its score (0 when absent) is ≥ 4, in the source's domain order, at most four |
| SensoryFeeding.GetChompsRecommendations | openai_report_generator.py:1386-1398 | empty iff no score is ≥ 4; otherwise the three general items, and a fourth item only as the swallow study, present iff pharyngeal ≥ 6 |
| SensoryFeeding.PediEatBandOf | openai_report_generator.py:1433-1467 | PediEAT band: elevated iff > 14, moderate iff 8..14, typical iff ≤ 7 |
| SensoryFeeding.InterpretPediEat | openai_report_generator.py:1433-1467 | each domain's text is the one for the score's band |
| SensoryFeeding.AssessPediEatSafety | openai_report_generator.py:1469-1480 | the two physiology concerns come first iff physiology > 12; the mealtime concern comes last iff mealtime behaviour > 12; no endurance item |
| SensoryFeeding.AssessPediEatEndurance | openai_report_generator.py:1482-1490 | the two endurance concerns iff physiology > 10, none otherwise |
| FallbackText.KindOf | openai_report_generator.py:2877-2977 | the paragraph kind is the first keyword the lower-cased prompt mentions, in the source's test order, each case an if-and-only-if |
| FallbackText.FieldAfter | openai_report_generator.py:2880-2884 | the fallback when the key is absent; otherwise a stripped text that holds no stop character |
| FallbackText.FieldAfterReads | openai_report_generator.py:2880-2884 | reading back a field the prompt builder wrote: for a key occurring once, the result is the written value, stripped |
| FallbackText.FindDomainName | openai_report_generator.py:2921-2925 | the first listed domain the prompt mentions, else "this domain"; always one of those |
| FallbackText.SummaryAge | openai_report_generator.py:2947-2954 | "unknown age" unless the prompt holds the patient key and "("; never contains ")" |
| FallbackText.GenerateFallbackText | openai_report_generator.py:2872-2980 | the paragraph equals the reference paragraph for the prompt's kind |
| FallbackText.BackgroundNamesPatient | openai_report_generator.py:2877-2886 | a background prompt that names the patient once yields the background paragraph with that name |
| FallbackText.GoalsNamePatient | openai_report_generator.py:2958-2973 | a goals prompt yields the four numbered goals for the named child |
| FallbackText.GoalsOpenWithFirstGoal | openai_report_generator.py:2967-2973 | the goals text starts with goal "1." for that child |
| FallbackText.GoalLines | openai_report_generator.py:2967-2973 | four goals, each numbered i and opening with the child's name |
| Narratives.ParseConsolidated | openai_report_generator.py:2822-2840 | the line loop computes the section map of the reference parser |
| Narratives.RunAppend | openai_report_generator.py:2826-2836 | parsing a concatenation is parsing the second part from the state after the first |
| Narratives.LeadingLinesIgnored | openai_report_generator.py:2835 | lines before the first marker never reach any section |
| Narratives.SectionCollects | openai_report_generator.py:2835-2836 | inside a section every non-blank line is collected, stripped, in order |
| Narratives.StepUnmarked | openai_report_generator.py:2835-2836 | an unmarked line only extends the current section's content |
| Narratives.LastMarkerWins | openai_report_generator.py:2828-2840 | a marker followed by unmarked lines stores exactly those lines under the lower-cased key, replacing earlier content under that key |
| Narratives.KeptMembership | openai_report_generator.py:696 | a text is kept iff it is the stripped form of a piece the rule keeps |
| Narratives.KeptAppend | openai_report_generator.py:696 | filtering distributes over concatenation |
| Narratives.KeptFree | openai_report_generator.py:3027 | kept pieces of a split never contain the separator |
| Narratives.FallbackItems | openai_report_generator.py:2843-2850 | the six fallback sections in the source's order, each non-empty |
| Narratives.FillProperties | openai_report_generator.py:2853-2855 | filling adds every fallback key, keeps every non-empty parsed section, and only ever writes a fallback value |
| Narratives.FillMissing | openai_report_generator.py:2853-2855 | the loop computes the reference fill |
| Narratives.GenerateConsolidatedReportNarratives | openai_report_generator.py:2777-2870 | all six keys present and non-empty; a failed call gives the fallbacks alone; a non-empty parsed section is kept |
| Narratives.GetConsolidatedNarrative | openai_report_generator.py:2982-3002 | never empty: the stored text when non-empty, else the fixed fallback for the four narrative keys, else "Clinical assessment completed for <child>." |
| Narratives.NarrativeFallbacksAgree | openai_report_generator.py:2843-2847 | the fallback table of `_get_consolidated_narrative` (lines 2995-3000) gives the same text as this one for the four narrative keys |
| Narratives.GenerateRecommendationsOptimized | openai_report_generator.py:3021-3038 | split on "•" when present, else on newlines, else the four defaults; non-blank items stripped |
| Narratives.GenerateOtGoalsOptimized | openai_report_generator.py:3040-3055 | at most four goals; lines with "Within" or a leading digit when the text mentions "Within", else the defaults |
| Narratives.DocsList | openai_report_generator.py:696-698 | at most `limit` items, none blank, none a heading, and a prefix of the kept lines |
| Narratives.DocsRecommendations | openai_report_generator.py:693-698 | at most 12 recommendations |
| Narratives.DocsGoals | openai_report_generator.py:725-730 | at most 8 goals |
| Narratives.KeptPrefix | openai_report_generator.py:696-698 | more reply lines never change the items already kept |
| Narratives.ExtractClinicalNotes | openai_report_generator.py:1080-1116 | never empty: the bullet-split notes of the reply when there are any, else the four default notes |
| Narratives.CleanRecommendation | openai_report_generator.py:1895-1897 | the cleaned recommendation always ends with "." and adds one only when missing |
| Narratives.CleanRecommendationUnchanged | openai_report_generator.py:1895-1897 | an already clean sentence is left as it is |
| DocsRequests.FormatBayley4ForDocs | openai_report_generator.py:617-646 | one domain line per analysis, cognitive then social, each reading the given keys with "Unknown" / "Assessment completed" defaults |
| DocsRequests.AsWrittenLosesBand | openai_report_generator.py:626-632 | with the keys as written, every domain line shows range "Unknown" and description "Assessment completed", whatever the score |
| DocsRequests.IntendedKeepsBand | openai_report_generator.py:1186-1192 | with the interpretation's own keys, the line shows the band label and description |
| DocsRequests.BookkeptApplies | openai_report_generator.py:770-1054 | applying a bookkept request list to an empty document yields exactly the inserted text, with no request out of range |
| DocsRequests.StyleInBody | openai_report_generator.py:838-848 | a style range ending inside the last insertion lies within the document body |
| DocsRequests.AddTitle | openai_report_generator.py:778-808 | the title insertion, its style and its centring start the list, and the index moves past the title |
| DocsRequests.AddText | openai_report_generator.py:818-824 | an insertion at the current index advances it by the text's length and keeps the list bookkept |
| DocsRequests.AddHeading | openai_report_generator.py:828-848 | a heading line inserted and styled within itself; the list stays bookkept |
| DocsRequests.AddSection | openai_report_generator.py:826-857 | a heading followed by its body text; the list stays bookkept |
| DocsRequests.AddNarrativeSection | openai_report_generator.py:826-857 | a narrative section only when its text is present; the list stays bookkept |
| DocsRequests.AddListSection | openai_report_generator.py:931-967 | a numbered list section only when the list is non-empty |
| DocsRequests.AddBayleyBlock | openai_report_generator.py:883-896 | the Bayley-4 block of bulleted domain lines |
| DocsRequests.NumberItems | openai_report_generator.py:956-959 | the numbered-line text of the items |
| DocsRequests.BulletDomains | openai_report_generator.py:885-888 | the bulleted domain-line text |
| DocsRequests.BuildEnhancedDocsRequests | openai_report_generator.py:770-1054 | the requests are bookkept and insert exactly the document text, section by section |
| DocsRequests.BatchRequests | openai_report_generator.py:750-756 | the batches concatenate back to the requests; each holds 1 to 50, all but the last exactly 50, and there are ⌈n/50⌉ of them |
| PdfProcessor.CalculateChronologicalAge | pdf_processor.py:80-101 | years·365 + months·30 + days equals the day difference, with days in 0..29 and months·30 + days below 365, so the split is the 365-day and 30-day floor division; text "Y years, M months, D days" |
| PdfProcessor.AgeDaysDetermined | pdf_processor.py:80-101 | day differences congruent modulo 365 give the same months and days |
| PdfProcessor.CompositeBandOf | pdf_processor.py:535-566 | the seven composite bands, each an if-and-only-if on 130/120/110/90/80/70 |
| PdfProcessor.CompositeBandMonotone | pdf_processor.py:535-566 | the band is monotone in the score |
| PdfProcessor.ScoreToPercentile | pdf_processor.py:590-607 | the percentile is one of the eight table values; 98 iff ≥ 130, 1 iff < 70 |
| PdfProcessor.ScoreToPercentileMonotone | pdf_processor.py:590-607 | the percentile is monotone in the score |
| PdfProcessor.GetClinicalSignificance | pdf_processor.py:609-618 | significant delay iff < 70, mild iff 70..84, borderline iff 85..89, within normal limits iff ≥ 90 |
| PdfProcessor.ClinicalSignificanceMonotone | pdf_processor.py:609-618 | the significance is monotone in the score |
| PdfProcessor.InterpretCompositeScore | pdf_processor.py:535-566 | the interpretation carries the band's texts, the percentile and the significance of the score |
| PdfProcessor.InterpretationAgrees | pdf_processor.py:535-618 | the three tables agree: Average implies within normal limits, and the lowest band, significant delay and percentile 1 coincide |
| PdfProcessor.ScanComposites | pdf_processor.py:347-354 | a composite gets a score and an interpretation iff it was found; the score is the found one |
| PdfProcessor.ConvertBulletToNarrative | pdf_processor.py:506-533 | the rewritten lower-cased text, starting with "Child " and ending with "." |
| PdfProcessor.NarrativeIgnoresCase | pdf_processor.py:520-524 | rewriting is insensitive to the case of the input |
| PdfProcessor.ExtractorFor | pdf_processor.py:132-146 | the two Bayley tags choose the Bayley extractor; any tag outside the seven known names keeps the raw text |
| PdfProcessor.ProcessMultipleAssessments | pdf_processor.py:103-159 | the loop computes the reference result: a missing file, empty text, an exception or empty data drops the upload |
| PdfProcessor.ProcessedMembership | pdf_processor.py:103-159 | a tag is in the result iff some upload with that tag is processed to non-empty data |
| PdfProcessor.AsWrittenKeepsOnlyRawText | pdf_processor.py:132-146 | as written, every kept entry is a raw-text entry for an unknown tag |
| PdfProcessor.AsWrittenValues | pdf_processor.py:109-150 | as written, a tag's entry is exactly `{"raw_text": text}` for the text of its last upload that went through, and the tag is unknown |
| PdfProcessor.IntendedProcessesKnownTag | pdf_processor.py:132-150 | with working extractors, a known tag with text keeps its extracted data |
| PdfProcessor.LastSuccessful | pdf_processor.py:109-150 | every tag in the result has a last upload that went through |
| PdfProcessor.LastSuccessfulUploadDecides | pdf_processor.py:109-150 | for any extractors, a tag's entry is the data of its last upload that went through; later failing uploads of the tag do not remove it |
| PdfProcessor.DistinctTagsEntry | pdf_processor.py:103-150 | with distinct tags, as the dictionary of uploads has, a tag is in the result iff its one upload goes through, and then holds exactly that upload's data |
| ReportTables.GetScoreClassification | report_generator.py:342-357 | the seven classification bands of the PDF report, each an if-and-only-if |
| ReportTables.ClassificationDiffersOnlyAtBottom | report_generator.py:342-357 | it agrees with the composite bands of pdf_processor.py except below 70, where the names differ |
| ReportTables.ClassificationMonotone | report_generator.py:342-357 | the classification is monotone in the score |
| ReportTables.StandardToPercentile | report_generator.py:359-376 | the percentile is in 1..98; 98 iff ≥ 130, 1 iff < 70 |
| ReportTables.StandardToPercentileMonotone | report_generator.py:359-376 | the percentile is monotone in the score |
| ReportTables.PercentileTablesAgree | report_generator.py:359-376 | the table equals the one in pdf_processor.py at every score |
| ReportTables.CognitiveMotorRows | report_generator.py:206-217 | a header row, then one row per listed domain in order |
| ReportTables.CognitiveRowCells | report_generator.py:211-217 | each row is as wide as the header, names its domain, and shows "N/A" exactly for a missing raw score |
| ReportTables.CompositeRows | report_generator.py:236-245 | no rows without composite scores; otherwise a header and one row per composite |
| ReportTables.NonDigitScoreIsLowest | report_generator.py:242-245 | a non-numeric score prints as percentile 1, "Well Below Average" |
| ReportTables.PrintedScoreReadsBack | report_generator.py:242-245 | a printed number is classified and converted as that number |
| ReportTables.AdaptiveRows | report_generator.py:274-288 | no rows without raw scores; otherwise a header and one row per domain |
| ReportTables.AllRecommendations | report_generator.py:316-332 | cognitive then social recommendations, or the defaults when both are empty; never empty |
| ReportTables.RecommendationParagraphs | report_generator.py:316-336 | paragraph i is the i-th recommendation numbered i+1 |
| ReportTables.NumberingConsecutive | report_generator.py:334-335 | a paragraph starts with its number, which reads back as that number |
| DocsIntegration.Member | google_docs_integration.py:319-321 | `field in data` on an object answers membership; on a non-container it raises, modelled as None |
| DocsIntegration.MissingInObject | google_docs_integration.py:250-253 | on an object, a field is reported missing iff it is required and absent |
| DocsIntegration.CollectMissing | google_docs_integration.py:250-253 | the comprehension loop computes the reference list |
| DocsIntegration.MissingStaysRaised | google_docs_integration.py:319-321 | once a membership test raises, the whole comprehension raises |
| DocsIntegration.EmailAccepted | google_docs_integration.py:266 | a string e-mail is accepted iff non-empty and holding "@" |
| DocsIntegration.KeyAccepted | google_docs_integration.py:273 | a string key is accepted iff it starts with "-----BEGIN" |
| DocsIntegration.ServiceAccountResult | google_docs_integration.py:235-285 | missing fields are reported iff some required field is absent; success iff every check passes, carrying project and e-mail |
| DocsIntegration.MissingInObjectAll | google_docs_integration.py:250-255 | the missing list is empty iff every required field is present |
| DocsIntegration.ValidateServiceAccountCredentials | google_docs_integration.py:235-285 | computes the reference result |
| DocsIntegration.SelectApp | google_docs_integration.py:294-304 | "installed" wins over "web", which wins over the top-level object |
| DocsIntegration.OAuthResult | google_docs_integration.py:287-339 | no app data iff the chosen entry is missing or falsy; success iff the entry is an object holding every required field |
| DocsIntegration.ValidateOAuthClientCredentials | google_docs_integration.py:287-339 | computes the reference result |
| DocsIntegration.ValidateCredentialsFile | google_docs_integration.py:185-233 | an unreadable file is a read error and a blank one is empty; the type is unknown iff the decoded object is neither a service account nor OAuth-shaped |
| DocsIntegration.ValidServiceAccountHasAllFields | google_docs_integration.py:185-285 | a file accepted as a service account holds every required field |
| DocsIntegration.ServiceAccountTypeWins | google_docs_integration.py:215-217 | a file whose type is "service_account" is judged by the service-account rules alone |
| DocsIntegration.Bullets | google_docs_integration.py:673-675 | one "• item\n" line per item, in order |
| DocsIntegration.FormatBayley4Results | google_docs_integration.py:522-551 | the title, then the composite block, then the domain block |
| DocsIntegration.AppendCompositeLines | google_docs_integration.py:527-535 | one composite line per score, in order |
| DocsIntegration.AppendDomainScoreLines | google_docs_integration.py:544-548 | one domain line per raw score, in order |
| DocsIntegration.DomainLinesPerRawScore | google_docs_integration.py:538-549 | the domain block is two lines longer than the raw scores, and line i+1 is the i-th domain's |
| DocsIntegration.DomainLineWithoutScores | google_docs_integration.py:544-548 | a domain without a scaled score or an age equivalent shows "N/A" for both |
| DocsIntegration.GatheredMembership | google_docs_integration.py:666-669 | an item is gathered iff some dictionary assessment lists it under that field |
| DocsIntegration.Gather | google_docs_integration.py:666-669 | the loop computes the reference gathering |
| DocsIntegration.FormatFindingsAnalysis | google_docs_integration.py:658-699 | strengths then needs, each bulleted or the default bullets when none are gathered |
| DocsIntegration.StrengthBlockSize | google_docs_integration.py:672-684 | the strengths block has one line per gathered strength, or four default lines |
| DocsIntegration.FormatRecommendations | google_docs_integration.py:701-727 | the gathered recommendations, or the eight defaults, numbered from 1 between the heading and a blank line |
| PromptRegistry.GetPrompt | backend/prompts/__init__.py:17-28 | succeeds iff the type is "chomps" or "pedieat", choosing that builder; otherwise a KeyError naming the type |
| PromptRegistry.RemoveLangTags | backend/prompts/__init__.py:53-60 | the result never contains a code fence |
| PromptRegistry.RemovalLeadingTicks | backend/prompts/__init__.py:60 | removing fences leaves the leading backtick run modulo three |
| PromptRegistry.RemoveLangTagsUnchanged | backend/prompts/__init__.py:60 | a reply without a fence is left unchanged |
| PromptRegistry.RemoveLangTagsIdempotent | backend/prompts/__init__.py:60 | cleaning twice is cleaning once |
| PdfResponse.SectionElements | backend/utils/response.py:34-46 | header → styled paragraph and spacer 10; paragraph → body paragraph and spacer 15; non-empty bullets → list and spacer 15; nothing otherwise |
| PdfResponse.FormatDataForPdf | backend/utils/response.py:6-47 | the loop computes the reference rendering: two elements per rendered section |
| PdfResponse.RenderedAppend | backend/utils/response.py:30 | sections render independently, in mapping order |
| PdfResponse.SpacerAfterEach | backend/utils/response.py:34-46 | every odd element is a spacer and every even one is content |
| ChatGraph.ChatBot.constructor | backend/langgraph/graph.py:15-23 | a bot with the given system prompt and an empty history |
| ChatGraph.ChatBot.Invoke | backend/langgraph/graph.py:25-53 | on a reply, the history gains the user and assistant turns and the reply is returned; on an exception, the history is unchanged and the error text is returned |
| ChatGraph.ChatBot.Chat | backend/langgraph/graph.py:55-65 | the same as Invoke for the message |
| ChatGraph.ChatBot.GetConversationHistory | backend/langgraph/graph.py:67-74 | a fresh array holding the history |
| ChatGraph.CopyIsIndependent | backend/langgraph/graph.py:72-74 | replacing an entry of the returned list leaves the bot's history unchanged |
| ChatGraph.ChatBot.ClearHistory | backend/langgraph/graph.py:76-80 | the history is empty and the system prompt unchanged |
| ChatGraph.ChatBot.SetSystemPrompt | backend/langgraph/graph.py:82-90 | the prompt is replaced and the history unchanged |
| ChatGraph.Exchange | backend/langgraph/graph.py:40-47 | one exchange appends two turns, keeps the earlier ones and keeps user/assistant alternation |
| ChatGraph.ConversationLength | backend/langgraph/graph.py:25-53 | a conversation grows by two turns per reply and never rewrites its past |
| VisionOcr.ParseTableData | scripts/pdf_vision_ocr.py:234-246 | always a table: the first line's stripped cells are the headers and each later line is a data row |
| VisionOcr.CellsStripped | scripts/pdf_vision_ocr.py:241-244 | every cell is already stripped |
| VisionOcr.SingleLineTable | scripts/pdf_vision_ocr.py:236-244 | a one-line table has headers and no data |
| VisionOcr.LineWithoutBar | scripts/pdf_vision_ocr.py:236 | a line without "\|" is one cell |
| VisionOcr.KindOf | scripts/pdf_vision_ocr.py:210-227 | a section's kind is its case-insensitive label, tested in the source's order |
| VisionOcr.ElementList | scripts/pdf_vision_ocr.py:218-221 | the stripped comma-separated items after "elements:" |
| VisionOcr.NewConfidence | scripts/pdf_vision_ocr.py:222-227 | "high" if the value mentions high, else "low" if it mentions low, else unchanged |
| VisionOcr.ParseVisionResponse | scripts/pdf_vision_ocr.py:197-232 | the loop over the blank-line sections computes the reference result |
| VisionOcr.UnlabelledKeepsDefaults | scripts/pdf_vision_ocr.py:199-204 | a reply with no labelled section gives the defaults |
| VisionOcr.LastTextWins | scripts/pdf_vision_ocr.py:211-212 | the text is the last text section's |
| VisionOcr.NoTextSection | scripts/pdf_vision_ocr.py:199-212 | without a text section the text stays empty |
| VisionOcr.ParsedShape | scripts/pdf_vision_ocr.py:213-217 | one table per table section; the confidence is medium, high or low |
| VisionOcr.StepConfidence | scripts/pdf_vision_ocr.py:222-227 | a section keeps medium confidence iff it is not a decisive confidence section |
| VisionOcr.MediumUnlessAnyDecisive | scripts/pdf_vision_ocr.py:222-227 | the confidence stays medium iff no section is a decisive confidence section |
| VisionOcr.SummaryBounds | scripts/pdf_vision_ocr.py:61-66 | pages with images ≤ pages and ≤ images; no images iff no page has any |

## Left out

- Model calls: `_generate_with_openai`, `graph_invoke` and the OpenAI client are outside the model. Their replies, or their failure, are parameters.
- PDF text extraction (pdfplumber, PyPDF2, PyMuPDF), file existence and sizes, page rendering and image saving: the text a PDF yields is a parameter.
- The regular-expression extractors of pdf_processor.py (`_extract_*`, `_interpret_sp2_score`): only the composite-score scan is modelled. Its regex match is given as a map of found scores.
- Date parsing and `datetime.now()`: ages start from the day difference, and today's and the signature date are parameters.
- JSON decoding and file reading in `_validate_credentials_file`: the decoder and the read outcome are parameters.
- Character classes are ASCII only: `lower`, `strip`, `isdigit` and `\w` are not Unicode-aware here. Whitespace is Python's ASCII whitespace, including the separators \x1c..\x1f.
- ReportLab and Google Docs rendering is modelled as element and request lists. Fonts, colours, page templates, sharing, the API calls themselves and the `_create_*` PDF section builders of openai_report_generator.py are not part of this model.
- The prompt builders' template text, `save_response` file writes, the e-mail notifier, main.py, config.py, setup_config.py and the scripts other than pdf_vision_ocr.py are not part of this model.
- `async`/`await` is treated as sequential code; no concurrency is modelled.
- The Docs formatters for SP2, ChOMPS, PediEAT, observations, goals and summary in google_docs_integration.py are not part of this model.
- Logging and `set_system_prompt`'s console message are left out.
- FallbackText.GenerateFallbackText: the lemmas about names read from the prompt assume the key occurs once. With repeated keys, only the general `FieldAfter` contract applies.
- PdfProcessor.CalculateChronologicalAge: only the arithmetic is modelled; `datetime` subtraction is outside the model.
- ChatGraph.CopyIsIndependent: only list-level writes are independent. Turns are values here, while `list.copy()` in the source is shallow, so its entry dictionaries stay shared with the bot and writing into one changes the bot's history.
- DocsRequests.FormatBayley4ForDocs: the `isinstance(analysis, dict)` filter (openai_report_generator.py:627, 638) is not modelled. Every analysis is an interpretation record here, as `_analyze_bayley4_detailed` only ever stores interpretation dictionaries.
- PdfProcessor.ProcessMultipleAssessments: the uploads are a sequence of (tag, path) pairs in the dictionary's order. The source's dictionary has distinct tags; the sequence also allows repeats, where a later upload replaces an earlier one (PdfProcessor.DistinctTagsEntry states the dictionary case).

## Findings

| source | as written | input that shows it | evidently intended | confidence | as-written member | corrected member |
|---|---|---|---|---|---|---|
| pdf_processor.py:252 (also 287, 366, 398, 433, 466) | every extractor awaits `self._extract_text_from_pdf`, which the class does not define; the method is `extract_text_from_pdf` and it is already given the text | an upload tagged "sp2" whose PDF yields text: the extractor raises AttributeError, the upload is dropped, and only unknown tags survive, as raw text | the extractor works on the text it is handed, and known tags keep their structured data | not executed | PdfProcessor.AsWrittenKeepsOnlyRawText | PdfProcessor.IntendedProcessesKnownTag |
| openai_report_generator.py:630-632 (also 641-643) | `_format_bayley4_for_docs` reads "range_class" and "clinical_desc", but the interpretation stores "range_classification" and "clinical_description" (1186-1192) | any domain, e.g. Cognitive with scaled score 10: the Docs line shows "Unknown" and "Assessment completed" instead of "Average" | read the keys the interpretation writes | not executed | DocsRequests.AsWrittenLosesBand | DocsRequests.IntendedKeepsBand |
