/**
 * The Google Docs side of the OpenAI-backed report generator
 * (openai_report_generator.py): the Bayley-4 domain lines for the document,
 * the request list that inserts and styles the report text while counting
 * the document index, and the batching of that list into API calls.
 */
module DocsRequests {
  import opened Text
  import ReportScoring

  // ----- Bayley-4 domain lines ---------------------------------------------

  /** One `domains` entry of the formatted Bayley-4 results. */
  datatype DomainLine = DomainLine(domain: string, range: string, percentile: string, description: string)

  /** The dictionary keys a formatter reads the band and the description from. */
  datatype KeyNames = KeyNames(rangeKey: string, descriptionKey: string)

  /** The keys `_format_bayley4_for_docs` reads. */
  const KeysAsWritten := KeyNames("range_class", "clinical_desc")

  /** The keys the interpretation dictionaries are written with. */
  const KeysOfInterpretation := KeyNames("range_classification", "clinical_description")

  function LineFor(keys: KeyNames, domain: string, analysis: map<string, string>): DomainLine {
    DomainLine(domain,
      GetOr(analysis, keys.rangeKey, "Unknown"),
      GetOr(analysis, "percentile_range", "Unknown"),
      GetOr(analysis, keys.descriptionKey, "Assessment completed"))
  }

  /** The domain lines of one analysis dictionary, in its order. */
  function LinesFor(keys: KeyNames, analyses: seq<(string, map<string, string>)>): (r: seq<DomainLine>)
    ensures |r| == |analyses|
    ensures forall i :: 0 <= i < |r| ==> r[i].domain == analyses[i].0
    decreases |analyses|
  {
    if |analyses| == 0 then []
    else
      var n := |analyses| - 1;
      LinesFor(keys, analyses[..n]) + [LineFor(keys, analyses[n].0, analyses[n].1)]
  }

  /**
   * `_format_bayley4_for_docs` with a choice of keys: the cognitive domains,
   * then the social-emotional ones, one line each.
   */
  method FormatBayley4ForDocs(keys: KeyNames, cognitive: seq<(string, map<string, string>)>,
                              social: seq<(string, map<string, string>)>)
    returns (domains: seq<DomainLine>)
    ensures domains == LinesFor(keys, cognitive) + LinesFor(keys, social)
  {
    domains := [];
    var i := 0;
    while i < |cognitive|
      invariant 0 <= i <= |cognitive|
      invariant domains == LinesFor(keys, cognitive[..i])
    {
      assert cognitive[..i + 1][..i] == cognitive[..i];
      domains := domains + [LineFor(keys, cognitive[i].0, cognitive[i].1)];
      i := i + 1;
    }
    assert cognitive[..i] == cognitive;
    var j := 0;
    while j < |social|
      invariant 0 <= j <= |social|
      invariant domains == LinesFor(keys, cognitive) + LinesFor(keys, social[..j])
    {
      assert social[..j + 1][..j] == social[..j];
      domains := domains + [LineFor(keys, social[j].0, social[j].1)];
      j := j + 1;
    }
    assert social[..j] == social;
  }

  /** The interpretation dictionary of one domain, as the Bayley-4 analysis stores it. */
  function InterpretationDict(domain: string, scaledScore: int): map<string, string> {
    ReportScoring.GetBayleyScoreInterpretation(domain, scaledScore).AsDict()
  }

  /**
   * As written, the formatter reads keys the interpretation never has: every
   * domain line reports the band as "Unknown" and the description as
   * "Assessment completed", whatever the score.
   */
  lemma AsWrittenLosesBand(domain: string, scaledScore: int)
    ensures var line := LineFor(KeysAsWritten, domain, InterpretationDict(domain, scaledScore));
      && line.range == "Unknown"
      && line.description == "Assessment completed"
      && line.percentile == ReportScoring.PercentileRangeText(ReportScoring.InterpretationBand(scaledScore))
  {
    var dict := InterpretationDict(domain, scaledScore);
    assert "range_class" !in dict;
    assert "clinical_desc" !in dict;
  }

  /** Read with the interpretation's own keys, each line carries the band and its description. */
  lemma IntendedKeepsBand(domain: string, scaledScore: int)
    ensures var line := LineFor(KeysOfInterpretation, domain, InterpretationDict(domain, scaledScore));
      var band := ReportScoring.InterpretationBand(scaledScore);
      && line.range == band.Label()
      && line.description == ReportScoring.ClinicalDescriptionText(band)
      && line.percentile == ReportScoring.PercentileRangeText(band)
  {
  }

  // ----- Requests and the document index -----------------------------------

  /** The text styles the builder applies: the 16-point title and the 14-point headings. */
  datatype TextStyle = TitleStyle | HeadingStyle

  /**
   * One Docs API request.  Indexes count from 1, the start of the body;
   * a range runs from `start` up to, not including, `end`.
   */
  datatype Request =
    | InsertText(location: int, text: string)
    | UpdateTextStyle(start: int, end: int, style: TextStyle)
    | CenterParagraphs(start: int, end: int)

  /** The texts inserted by a request list, in order. */
  function InsertedText(rs: seq<Request>): string
    decreases |rs|
  {
    if |rs| == 0 then ""
    else
      var n := |rs| - 1;
      InsertedText(rs[..n]) + (if rs[n].InsertText? then rs[n].text else "")
  }

  /** The last insertion of a request list: its location and text. */
  function LastInsert(rs: seq<Request>): (r: Option<(int, string)>)
    decreases |rs|
  {
    if |rs| == 0 then None
    else if rs[|rs| - 1].InsertText? then Some((rs[|rs| - 1].location, rs[|rs| - 1].text))
    else LastInsert(rs[..|rs| - 1])
  }

  /**
   * Whether request `r` is well placed after the requests `before`: an
   * insertion goes exactly at the end of the text inserted so far; a style
   * range lies inside the text inserted last, leaving out its final
   * character, which is a line break.
   */
  predicate Fits(before: seq<Request>, r: Request) {
    match r
    case InsertText(location, _) => location == 1 + |InsertedText(before)|
    case UpdateTextStyle(start, end, _) => InLastInsert(before, start, end)
    case CenterParagraphs(start, end) => InLastInsert(before, start, end)
  }

  predicate InLastInsert(before: seq<Request>, start: int, end: int) {
    match LastInsert(before)
    case None => false
    case Some((location, text)) =>
      |text| > 0 && text[|text| - 1] == '\n' && location <= start <= end <= location + |text| - 1
  }

  /** Every request of the list fits the requests before it. */
  predicate Bookkept(rs: seq<Request>)
    decreases |rs|
  {
    |rs| == 0 || (Bookkept(rs[..|rs| - 1]) && Fits(rs[..|rs| - 1], rs[|rs| - 1]))
  }

  /** The recursive definition, read at every position. */
  lemma {:induction false} BookkeptAt(rs: seq<Request>, k: int)
    requires Bookkept(rs) && 0 <= k < |rs|
    ensures Fits(rs[..k], rs[k])
    decreases |rs|
  {
    if k < |rs| - 1 {
      var init := rs[..|rs| - 1];
      BookkeptAt(init, k);
      assert init[..k] == rs[..k] && init[k] == rs[k];
    }
  }

  lemma AppendFitting(rs: seq<Request>, r: Request)
    requires Bookkept(rs) && Fits(rs, r)
    ensures Bookkept(rs + [r])
    ensures InsertedText(rs + [r]) == InsertedText(rs) + (if r.InsertText? then r.text else "")
  {
    assert (rs + [r])[..|rs|] == rs;
  }

  /** After a bookkept list, the text inserted last ends at the current end of the document. */
  lemma {:induction false} LastInsertEndsText(rs: seq<Request>)
    requires Bookkept(rs)
    ensures LastInsert(rs).Some? ==>
      1 <= LastInsert(rs).value.0 && LastInsert(rs).value.0 + |LastInsert(rs).value.1| == 1 + |InsertedText(rs)|
    decreases |rs|
  {
    if |rs| > 0 && !rs[|rs| - 1].InsertText? {
      LastInsertEndsText(rs[..|rs| - 1]);
    }
  }

  /** A range inside the text inserted last lies within the body built so far. */
  lemma StyleInBody(before: seq<Request>, start: int, end: int)
    requires Bookkept(before) && InLastInsert(before, start, end)
    ensures 1 <= start <= end <= |InsertedText(before)| + 1
  {
    LastInsertEndsText(before);
  }

  /**
   * What the Docs API does with one request on the body text: an insertion
   * at location `i` puts the text before the `i`-th character; a style
   * range must lie within the body.  Anything else is refused.
   */
  function Apply(body: string, r: Request): Option<string> {
    match r
    case InsertText(location, text) =>
      if 1 <= location <= |body| + 1 then Some(body[..location - 1] + text + body[location - 1..]) else None
    case UpdateTextStyle(start, end, _) =>
      if 1 <= start <= end <= |body| + 1 then Some(body) else None
    case CenterParagraphs(start, end) =>
      if 1 <= start <= end <= |body| + 1 then Some(body) else None
  }

  function ApplyAll(rs: seq<Request>): Option<string>
    decreases |rs|
  {
    if |rs| == 0 then Some("")
    else
      match ApplyAll(rs[..|rs| - 1])
      case None => None
      case Some(body) => Apply(body, rs[|rs| - 1])
  }

  /**
   * The point of the index bookkeeping: a bookkept request list, applied in
   * order to an empty document, is accepted and leaves exactly the inserted
   * texts one after the other.
   */
  lemma {:induction false} BookkeptApplies(rs: seq<Request>)
    requires Bookkept(rs)
    ensures ApplyAll(rs) == Some(InsertedText(rs))
    decreases |rs|
  {
    if |rs| > 0 {
      var init := rs[..|rs| - 1];
      BookkeptApplies(init);
      var body := InsertedText(init);
      match rs[|rs| - 1]
      case InsertText(location, text) =>
        assert Fits(init, rs[|rs| - 1]);
        assert body[..location - 1] + text + body[location - 1..] == body + text;
      case UpdateTextStyle(start, end, _) =>
        StyleInBody(init, start, end);
        assert Apply(body, rs[|rs| - 1]) == Some(body);
        assert InsertedText(rs) == body;
      case CenterParagraphs(start, end) =>
        StyleInBody(init, start, end);
        assert Apply(body, rs[|rs| - 1]) == Some(body);
        assert InsertedText(rs) == body;
    }
  }

  // ----- The report's request list ------------------------------------------

  /** `patient_info`; `None` is a missing key. */
  datatype PatientInfo = PatientInfo(
    name: Option<string>, dateOfBirth: Option<string>, ageFormatted: Option<string>,
    parentGuardian: Option<string>, encounterDate: Option<string>, reportDate: Option<string>)

  /**
   * The parts of `enhanced_data` the builder reads.  `bayley4` is `None`
   * when the formatted Bayley-4 results are missing or empty.
   */
  datatype DocsData = DocsData(
    patient: PatientInfo,
    narratives: map<string, string>,
    bayley4: Option<seq<DomainLine>>,
    recommendations: seq<string>,
    goals: seq<string>)

  function OrUnknown(o: Option<string>): string {
    if o.Some? then o.value else "Unknown"
  }

  const Title := "PEDIATRIC OCCUPATIONAL THERAPY EVALUATION" + "\n\n"
  const SignatureLines := "Report prepared by:\nFushia Crooms, MOT, OTR/L\nOccupational Therapist\nFMRC Health Group\nDate: "
  const BayleyTitle := "Bayley Scales of Infant and Toddler Development (4th Edition):\n"

  /** The patient block; `today` stands for the report date the clock gives when none is stored. */
  function PatientSection(p: PatientInfo, today: string): string {
    "Patient Name: " + OrUnknown(p.name) + "\n"
    + "Date of Birth: " + OrUnknown(p.dateOfBirth) + "\n"
    + "Chronological Age: " + OrUnknown(p.ageFormatted) + "\n"
    + "Parent/Guardian: " + OrUnknown(p.parentGuardian) + "\n"
    + "Evaluation Date: " + OrUnknown(p.encounterDate) + "\n"
    + "Report Date: " + (if p.reportDate.Some? then p.reportDate.value else today) + "\n\n"
  }

  /** A heading line: the heading and its line break. */
  function HeadingLine(heading: string): (r: string)
    ensures |r| > 0 && r[|r| - 1] == '\n'
  {
    heading + "\n"
  }

  /** One bullet line per Bayley-4 domain. */
  function BulletLines(domains: seq<DomainLine>): string
    decreases |domains|
  {
    if |domains| == 0 then ""
    else
      var n := |domains| - 1;
      var d := domains[n];
      BulletLines(domains[..n]) + "• " + d.domain + ": " + d.range + " (" + d.percentile + ") - " + d.description + "\n"
  }

  /** The lines "1. <item>", "2. <item>", ... */
  function NumberedLines(items: seq<string>): string
    decreases |items|
  {
    if |items| == 0 then ""
    else
      var n := |items| - 1;
      NumberedLines(items[..n]) + IntToString(n + 1) + ". " + items[n] + "\n"
  }

  /** The stored narrative for a key, when it is there and not empty. */
  predicate HasNarrative(data: DocsData, key: string) {
    key in data.narratives && data.narratives[key] != ""
  }

  /** A heading followed by its body, or nothing when the section is left out. */
  function Section(present: bool, heading: string, body: string): string {
    if present then HeadingLine(heading) + body else ""
  }

  /** A narrative section: shown when its narrative is there and not empty. */
  function NarrativeSection(data: DocsData, key: string, heading: string): string {
    if HasNarrative(data, key) then Section(true, heading, data.narratives[key] + "\n\n") else ""
  }

  /** A numbered list section: shown when the list is not empty. */
  function ListSection(items: seq<string>, heading: string): string {
    Section(items != [], heading, NumberedLines(items) + "\n")
  }

  /** The Bayley-4 block under the assessment heading. */
  function BayleyBlock(data: DocsData): string {
    if data.bayley4.Some? then BayleyTitle + BulletLines(data.bayley4.value) + "\n" else ""
  }

  function SignatureBlock(signatureDate: string): string {
    SignatureLines + signatureDate + "\n"
  }

  /** The whole text the requests put into the document, in order. */
  function DocumentText(data: DocsData, today: string, signatureDate: string): string {
    Title
    + PatientSection(data.patient, today)
    + NarrativeSection(data, "background", "BACKGROUND AND REASON FOR REFERRAL")
    + HeadingLine("ASSESSMENT RESULTS")
    + BayleyBlock(data)
    + NarrativeSection(data, "clinical_observations", "CLINICAL OBSERVATIONS")
    + ListSection(data.recommendations, "RECOMMENDATIONS")
    + NarrativeSection(data, "professional_summary", "PROFESSIONAL SUMMARY")
    + ListSection(data.goals, "TREATMENT GOALS")
    + SignatureBlock(signatureDate)
  }

  /** Inserts a text at the current index and moves the index past it. */
  method AddText(rs: seq<Request>, current: int, text: string) returns (rs': seq<Request>, current': int)
    requires Bookkept(rs) && current == 1 + |InsertedText(rs)|
    ensures rs' == rs + [InsertText(current, text)] && current' == current + |text|
    ensures Bookkept(rs') && current' == 1 + |InsertedText(rs')|
    ensures InsertedText(rs') == InsertedText(rs) + text
  {
    rs' := rs + [InsertText(current, text)];
    AppendFitting(rs, InsertText(current, text));
    current' := current + |text|;
  }

  /** Inserts a heading line and styles it as a heading, its line break left out. */
  method AddHeading(rs: seq<Request>, current: int, heading: string) returns (rs': seq<Request>, current': int)
    requires Bookkept(rs) && current == 1 + |InsertedText(rs)|
    ensures var line := HeadingLine(heading);
      rs' == rs + [InsertText(current, line), UpdateTextStyle(current, current + |line| - 1, HeadingStyle)]
    ensures Bookkept(rs') && current' == 1 + |InsertedText(rs')|
    ensures InsertedText(rs') == InsertedText(rs) + HeadingLine(heading)
  {
    var line := HeadingLine(heading);
    var withText;
    withText, current' := AddText(rs, current, line);
    var style := UpdateTextStyle(current' - |line|, current' - 1, HeadingStyle);
    assert LastInsert(withText) == Some((current, line));
    rs' := withText + [style];
    AppendFitting(withText, style);
    assert InsertedText(rs') == InsertedText(withText) + "";
  }

  /** Adds a heading and its body. */
  method AddSection(rs: seq<Request>, current: int, heading: string, body: string)
    returns (rs': seq<Request>, current': int)
    requires Bookkept(rs) && current == 1 + |InsertedText(rs)|
    ensures Bookkept(rs') && current' == 1 + |InsertedText(rs')|
    ensures InsertedText(rs') == InsertedText(rs) + Section(true, heading, body)
  {
    rs', current' := AddHeading(rs, current, heading);
    rs', current' := AddText(rs', current', body);
  }

  /** Adds a narrative section when its narrative is there and not empty. */
  method AddNarrativeSection(rs: seq<Request>, current: int, data: DocsData, key: string, heading: string)
    returns (rs': seq<Request>, current': int)
    requires Bookkept(rs) && current == 1 + |InsertedText(rs)|
    ensures Bookkept(rs') && current' == 1 + |InsertedText(rs')|
    ensures InsertedText(rs') == InsertedText(rs) + NarrativeSection(data, key, heading)
  {
    if HasNarrative(data, key) {
      rs', current' := AddSection(rs, current, heading, data.narratives[key] + "\n\n");
    } else {
      rs', current' := rs, current;
      assert InsertedText(rs) + "" == InsertedText(rs);
    }
  }

  /** Adds a numbered list section when the list is not empty. */
  method AddListSection(rs: seq<Request>, current: int, items: seq<string>, heading: string)
    returns (rs': seq<Request>, current': int)
    requires Bookkept(rs) && current == 1 + |InsertedText(rs)|
    ensures Bookkept(rs') && current' == 1 + |InsertedText(rs')|
    ensures InsertedText(rs') == InsertedText(rs) + ListSection(items, heading)
  {
    if items != [] {
      var lines := NumberItems(items);
      rs', current' := AddSection(rs, current, heading, lines + "\n");
    } else {
      rs', current' := rs, current;
      assert InsertedText(rs) + "" == InsertedText(rs);
    }
  }

  /** Adds the Bayley-4 block when the formatted results are there. */
  method AddBayleyBlock(rs: seq<Request>, current: int, data: DocsData)
    returns (rs': seq<Request>, current': int)
    requires Bookkept(rs) && current == 1 + |InsertedText(rs)|
    ensures Bookkept(rs') && current' == 1 + |InsertedText(rs')|
    ensures InsertedText(rs') == InsertedText(rs) + BayleyBlock(data)
  {
    if data.bayley4.Some? {
      var lines := BulletDomains(data.bayley4.value);
      rs', current' := AddText(rs, current, BayleyTitle + lines + "\n");
    } else {
      rs', current' := rs, current;
      assert InsertedText(rs) + "" == InsertedText(rs);
    }
  }

  /** The centred title in the 16-point style, the two line breaks after it left out. */
  method AddTitle() returns (rs: seq<Request>, current: int)
    ensures Bookkept(rs) && current == 1 + |InsertedText(rs)|
    ensures InsertedText(rs) == Title
    ensures rs == [InsertText(1, Title), UpdateTextStyle(1, |Title| - 1, TitleStyle), CenterParagraphs(1, |Title| - 1)]
  {
    rs, current := AddText([], 1, Title);
    assert InsertedText([]) + Title == Title;
    assert LastInsert(rs) == Some((1, Title));
    assert Title[|Title| - 1] == '\n';
    var titleStyle := UpdateTextStyle(1, current - 2, TitleStyle);
    AppendFitting(rs, titleStyle);
    var styled := rs + [titleStyle];
    assert LastInsert(styled) == Some((1, Title));
    var centered := CenterParagraphs(1, current - 2);
    AppendFitting(styled, centered);
    rs := styled + [centered];
    assert InsertedText(rs) == Title;
  }

  /** The numbering loop of the recommendations and goals. */
  method NumberItems(items: seq<string>) returns (content: string)
    ensures content == NumberedLines(items)
  {
    content := "";
    var i := 0;
    while i < |items|
      invariant 0 <= i <= |items|
      invariant content == NumberedLines(items[..i])
    {
      assert items[..i + 1][..i] == items[..i];
      content := content + IntToString(i + 1) + ". " + items[i] + "\n";
      i := i + 1;
    }
    assert items[..i] == items;
  }

  /** The bullet loop of the Bayley-4 block. */
  method BulletDomains(domains: seq<DomainLine>) returns (content: string)
    ensures content == BulletLines(domains)
  {
    content := "";
    var i := 0;
    while i < |domains|
      invariant 0 <= i <= |domains|
      invariant content == BulletLines(domains[..i])
    {
      assert domains[..i + 1][..i] == domains[..i];
      var d := domains[i];
      content := content + "• " + d.domain + ": " + d.range + " (" + d.percentile + ") - " + d.description + "\n";
      i := i + 1;
    }
    assert domains[..i] == domains;
  }

  /**
   * `_build_enhanced_docs_requests`: every insertion lands at the end of the
   * text inserted before it, every style range inside the text just
   * inserted, and the inserted texts make up the report.  `today` and
   * `signatureDate` stand for the two readings of the clock.
   */
  method BuildEnhancedDocsRequests(data: DocsData, today: string, signatureDate: string)
    returns (requests: seq<Request>)
    ensures Bookkept(requests)
    ensures InsertedText(requests) == DocumentText(data, today, signatureDate)
  {
    var current;
    requests, current := AddTitle();
    ghost var text := Title;
    requests, current := AddText(requests, current, PatientSection(data.patient, today));
    text := text + PatientSection(data.patient, today);
    requests, current := AddNarrativeSection(requests, current, data, "background", "BACKGROUND AND REASON FOR REFERRAL");
    text := text + NarrativeSection(data, "background", "BACKGROUND AND REASON FOR REFERRAL");
    requests, current := AddHeading(requests, current, "ASSESSMENT RESULTS");
    text := text + HeadingLine("ASSESSMENT RESULTS");
    requests, current := AddBayleyBlock(requests, current, data);
    text := text + BayleyBlock(data);
    requests, current := AddNarrativeSection(requests, current, data, "clinical_observations", "CLINICAL OBSERVATIONS");
    text := text + NarrativeSection(data, "clinical_observations", "CLINICAL OBSERVATIONS");
    requests, current := AddListSection(requests, current, data.recommendations, "RECOMMENDATIONS");
    text := text + ListSection(data.recommendations, "RECOMMENDATIONS");
    requests, current := AddNarrativeSection(requests, current, data, "professional_summary", "PROFESSIONAL SUMMARY");
    text := text + NarrativeSection(data, "professional_summary", "PROFESSIONAL SUMMARY");
    requests, current := AddListSection(requests, current, data.goals, "TREATMENT GOALS");
    text := text + ListSection(data.goals, "TREATMENT GOALS");
    requests, current := AddText(requests, current, SignatureBlock(signatureDate));
    text := text + SignatureBlock(signatureDate);
  }

  // ----- Batching -----------------------------------------------------------

  /** The Docs API takes at most this many requests per call. */
  const BatchSize := 50

  /** The batches put back together, in order. */
  function Flatten<T>(batches: seq<seq<T>>): seq<T>
    decreases |batches|
  {
    if |batches| == 0 then [] else Flatten(batches[..|batches| - 1]) + batches[|batches| - 1]
  }

  /**
   * The batching loop: `requests[i:i + 50]` for i = 0, 50, 100, ...  The
   * batches put back together are the request list, none is empty, none
   * holds more than 50, all but the last hold exactly 50, and there are as
   * few as that allows.
   */
  method BatchRequests<T>(requests: seq<T>) returns (batches: seq<seq<T>>)
    ensures Flatten(batches) == requests
    ensures forall k :: 0 <= k < |batches| ==> 1 <= |batches[k]| <= BatchSize
    ensures forall k :: 0 <= k < |batches| - 1 ==> |batches[k]| == BatchSize
    ensures |batches| == (|requests| + BatchSize - 1) / BatchSize
  {
    batches := [];
    var i := 0;
    while i < |requests|
      invariant 0 <= i <= |requests|
      invariant i == BatchSize * |batches| || (i == |requests| && BatchSize * (|batches| - 1) < i < BatchSize * |batches|)
      invariant Flatten(batches) == requests[..i]
      invariant forall k :: 0 <= k < |batches| ==> 1 <= |batches[k]| <= BatchSize
      invariant forall k :: 0 <= k < |batches| - 1 ==> |batches[k]| == BatchSize
      invariant i < |requests| ==> forall k :: 0 <= k < |batches| ==> |batches[k]| == BatchSize
      decreases |requests| - i
    {
      var end := if i + BatchSize <= |requests| then i + BatchSize else |requests|;
      var batch := requests[i..end];
      assert requests[..end] == requests[..i] + batch;
      batches := batches + [batch];
      i := end;
    }
    assert requests[..i] == requests;
  }
}
