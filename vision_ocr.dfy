/**
 * The response parsing of the vision OCR script (scripts/pdf_vision_ocr.py):
 * the reply of the vision model split into blank-line separated sections,
 * the "|"-separated table text, and the page summary counts.  The model
 * call, PDF rendering and file output are not part of this model.
 */
module VisionOcr {
  import opened Text

  datatype Table = Table(headers: seq<string>, data: seq<seq<string>>)

  /** The stripped cells of one table line. */
  function Cells(line: string): (r: seq<string>)
    ensures |r| == |Split(Strip(line), "|")|
    ensures forall i :: 0 <= i < |r| ==> r[i] == Strip(Split(Strip(line), "|")[i])
  {
    var cells := Split(Strip(line), "|");
    seq(|cells|, i requires 0 <= i < |cells| => Strip(cells[i]))
  }

  /**
   * `_parse_table_data`: the first line gives the headers, every further
   * line a row.  Splitting a string always yields a first line, so a table
   * is always produced.
   */
  function ParseTableData(tableText: string): (r: Option<Table>)
    ensures r.Some?
    ensures var lines := Split(tableText, "\n");
      && r.value.headers == Cells(lines[0])
      && |r.value.data| == |lines| - 1
      && forall i :: 0 <= i < |r.value.data| ==> r.value.data[i] == Cells(lines[i + 1])
  {
    var lines := Split(tableText, "\n");
    Some(Table(Cells(lines[0]), seq(|lines| - 1, i requires 0 <= i < |lines| - 1 => Cells(lines[i + 1]))))
  }

  /** Every header and every cell is stripped. */
  lemma CellsStripped(line: string, i: nat)
    requires i < |Cells(line)|
    ensures Strip(Cells(line)[i]) == Cells(line)[i]
  {
    StripUnchanged(Cells(line)[i]);
  }

  /** Table text of a single line gives headers and no data rows. */
  lemma SingleLineTable(tableText: string)
    requires !Contains(tableText, "\n")
    ensures ParseTableData(tableText).value.data == []
    ensures ParseTableData(tableText).value.headers == Cells(tableText)
  {
    SplitAbsent(tableText, "\n");
  }

  /** A line without "|" is a single cell: the stripped line. */
  lemma LineWithoutBar(line: string)
    requires !Contains(Strip(line), "|")
    ensures Cells(line) == [Strip(line)]
  {
    SplitAbsent(Strip(line), "|");
    StripUnchanged(Strip(line));
  }

  datatype VisionResult = VisionResult(text: string, confidence: string, detectedElements: seq<string>, tables: seq<Table>)

  const Defaults := VisionResult("", "medium", [], [])

  /** Which labelled section a piece of the reply is, by its lower-cased start. */
  datatype SectionKind = TextSection | TableSection | ElementsSection | ConfidenceSection | OtherSection

  function KindOf(section: string): (k: SectionKind)
    ensures k == TextSection <==> StartsWith(Lower(section), "text:")
    ensures k == TableSection <==> !StartsWith(Lower(section), "text:") && StartsWith(Lower(section), "table:")
    ensures k == ElementsSection ==> StartsWith(Lower(section), "elements:") && |section| >= 9
    ensures k == ConfidenceSection ==> StartsWith(Lower(section), "confidence:") && |section| >= 11
    ensures k == TextSection ==> |section| >= 5
    ensures k == TableSection ==> |section| >= 6
  {
    var lowered := Lower(section);
    if StartsWith(lowered, "text:") then TextSection
    else if StartsWith(lowered, "table:") then TableSection
    else if StartsWith(lowered, "elements:") then ElementsSection
    else if StartsWith(lowered, "confidence:") then ConfidenceSection
    else OtherSection
  }

  /** The comma-separated items, each stripped. */
  function ElementList(section: string): (r: seq<string>)
    requires |section| >= 9
    ensures |r| == |Split(Strip(section[9..]), ",")|
    ensures forall i :: 0 <= i < |r| ==> r[i] == Strip(Split(Strip(section[9..]), ",")[i])
  {
    var items := Split(Strip(section[9..]), ",");
    seq(|items|, i requires 0 <= i < |items| => Strip(items[i]))
  }

  /** The confidence after one confidence section: "high" wins over "low"; otherwise unchanged. */
  function NewConfidence(prior: string, section: string): (r: string)
    requires |section| >= 11
    ensures Contains(Lower(Strip(section[11..])), "high") ==> r == "high"
    ensures !Contains(Lower(Strip(section[11..])), "high") && Contains(Lower(Strip(section[11..])), "low") ==> r == "low"
    ensures !Contains(Lower(Strip(section[11..])), "high") && !Contains(Lower(Strip(section[11..])), "low") ==> r == prior
  {
    var confidence := Lower(Strip(section[11..]));
    if Contains(confidence, "high") then "high"
    else if Contains(confidence, "low") then "low"
    else prior
  }

  /** The effect of one section on the result. */
  function Step(result: VisionResult, section: string): VisionResult {
    match KindOf(section)
    case TextSection => result.(text := Strip(section[5..]))
    case TableSection => result.(tables := result.tables + [ParseTableData(Strip(section[6..])).value])
    case ElementsSection => result.(detectedElements := ElementList(section))
    case ConfidenceSection => result.(confidence := NewConfidence(result.confidence, section))
    case OtherSection => result
  }

  /** The sections applied in order to the defaults. */
  function Parsed(sections: seq<string>): VisionResult
    decreases |sections|
  {
    if |sections| == 0 then Defaults
    else Step(Parsed(sections[..|sections| - 1]), sections[|sections| - 1])
  }

  /** `_parse_vision_response` */
  method ParseVisionResponse(response: string) returns (result: VisionResult)
    ensures result == Parsed(Split(response, "\n\n"))
  {
    var sections := Split(response, "\n\n");
    result := Defaults;
    var i := 0;
    while i < |sections|
      invariant 0 <= i <= |sections|
      invariant result == Parsed(sections[..i])
    {
      assert sections[..i + 1][..i] == sections[..i];
      var section := sections[i];
      var kind := KindOf(section);
      if kind == TextSection {
        result := result.(text := Strip(section[5..]));
      } else if kind == TableSection {
        var table := ParseTableData(Strip(section[6..]));
        if table.Some? {
          result := result.(tables := result.tables + [table.value]);
        }
      } else if kind == ElementsSection {
        result := result.(detectedElements := ElementList(section));
      } else if kind == ConfidenceSection {
        result := result.(confidence := NewConfidence(result.confidence, section));
      }
      i := i + 1;
    }
    assert sections[..i] == sections;
  }

  /** A reply with no labelled section leaves every default in place. */
  lemma {:induction false} UnlabelledKeepsDefaults(sections: seq<string>)
    requires forall i :: 0 <= i < |sections| ==> KindOf(sections[i]) == OtherSection
    ensures Parsed(sections) == Defaults
    decreases |sections|
  {
    if |sections| > 0 {
      UnlabelledKeepsDefaults(sections[..|sections| - 1]);
    }
  }

  /** The text is that of the last text section, or the empty default when there is none. */
  lemma {:induction false} LastTextWins(sections: seq<string>, i: nat)
    requires i < |sections| && KindOf(sections[i]) == TextSection
    requires forall j :: i < j < |sections| ==> KindOf(sections[j]) != TextSection
    ensures Parsed(sections).text == Strip(sections[i][5..])
    decreases |sections|
  {
    if i < |sections| - 1 {
      LastTextWins(sections[..|sections| - 1], i);
    }
  }

  lemma {:induction false} NoTextSection(sections: seq<string>)
    requires forall j :: 0 <= j < |sections| ==> KindOf(sections[j]) != TextSection
    ensures Parsed(sections).text == ""
    decreases |sections|
  {
    if |sections| > 0 {
      NoTextSection(sections[..|sections| - 1]);
    }
  }

  /** The number of table sections. */
  function TableSections(sections: seq<string>): nat
    decreases |sections|
  {
    if |sections| == 0 then 0
    else TableSections(sections[..|sections| - 1]) + (if KindOf(sections[|sections| - 1]) == TableSection then 1 else 0)
  }

  /** Each table section adds exactly one table, since a table is always parsed, and the confidence is one of three words. */
  lemma {:induction false} ParsedShape(sections: seq<string>)
    ensures |Parsed(sections).tables| == TableSections(sections)
    ensures Parsed(sections).confidence in {"medium", "high", "low"}
    decreases |sections|
  {
    if |sections| > 0 {
      ParsedShape(sections[..|sections| - 1]);
    }
  }

  /** Whether a confidence section mentions "high" or "low". */
  predicate Decisive(section: string) {
    KindOf(section) == ConfidenceSection
    && (Contains(Lower(Strip(section[11..])), "high") || Contains(Lower(Strip(section[11..])), "low"))
  }

  /** One section leaves a decided confidence decided, and decides a "medium" one exactly when it is decisive. */
  lemma StepConfidence(result: VisionResult, section: string)
    requires result.confidence in {"medium", "high", "low"}
    ensures Step(result, section).confidence == "medium" <==> result.confidence == "medium" && !Decisive(section)
  {
  }

  /** No element of the list satisfies `p`. */
  predicate NoneOf<T>(xs: seq<T>, p: T -> bool)
    decreases |xs|
  {
    |xs| == 0 || (NoneOf(xs[..|xs| - 1], p) && !p(xs[|xs| - 1]))
  }

  lemma {:induction false} NoneOfMeans<T>(xs: seq<T>, p: T -> bool)
    ensures NoneOf(xs, p) <==> forall i :: 0 <= i < |xs| ==> !p(xs[i])
    decreases |xs|
  {
    if |xs| > 0 {
      var n := |xs| - 1;
      var init := xs[..n];
      NoneOfMeans(init, p);
      if NoneOf(init, p) {
        forall i | 0 <= i < n
          ensures !p(xs[i])
        {
          assert init[i] == xs[i];
        }
      } else {
        var i :| 0 <= i < n && p(init[i]);
        assert init[i] == xs[i];
      }
    }
  }

  /** The confidence stays "medium" exactly when no confidence section mentions high or low. */
  lemma {:induction false} MediumUnlessDecided(sections: seq<string>)
    ensures Parsed(sections).confidence == "medium" <==> NoneOf(sections, Decisive)
    decreases |sections|
  {
    if |sections| > 0 {
      var n := |sections| - 1;
      var init := sections[..n];
      MediumUnlessDecided(init);
      ParsedShape(init);
      StepConfidence(Parsed(init), sections[n]);
    }
  }

  /** The same, section by section. */
  lemma MediumUnlessAnyDecisive(sections: seq<string>)
    ensures Parsed(sections).confidence == "medium" <==> forall i :: 0 <= i < |sections| ==> !Decisive(sections[i])
  {
    MediumUnlessDecided(sections);
    NoneOfMeans(sections, Decisive);
  }

  // ----- Summary -----------------------------------------------------------------

  /** What the summary reads of one processed page: its number of images and of text blocks. */
  datatype Page = Page(images: nat, textBlocks: nat)

  datatype Summary = Summary(totalPages: nat, pagesWithImages: nat, totalImages: nat, totalTextBlocks: nat)

  function PagesWithImages(pages: seq<Page>): nat
    decreases |pages|
  {
    if |pages| == 0 then 0 else PagesWithImages(pages[..|pages| - 1]) + (if pages[|pages| - 1].images > 0 then 1 else 0)
  }

  function TotalImages(pages: seq<Page>): nat
    decreases |pages|
  {
    if |pages| == 0 then 0 else TotalImages(pages[..|pages| - 1]) + pages[|pages| - 1].images
  }

  function TotalTextBlocks(pages: seq<Page>): nat
    decreases |pages|
  {
    if |pages| == 0 then 0 else TotalTextBlocks(pages[..|pages| - 1]) + pages[|pages| - 1].textBlocks
  }

  /** The summary of `process_pdf`; `pageCount` is the document's page count. */
  function Summarise(pageCount: nat, pages: seq<Page>): Summary {
    Summary(pageCount, PagesWithImages(pages), TotalImages(pages), TotalTextBlocks(pages))
  }

  /**
   * Pages with images are at most the pages and at most the images, and
   * there are no images exactly when no page has one.
   */
  lemma {:induction false} SummaryBounds(pages: seq<Page>)
    ensures PagesWithImages(pages) <= |pages|
    ensures PagesWithImages(pages) <= TotalImages(pages)
    ensures TotalImages(pages) == 0 <==> PagesWithImages(pages) == 0
    ensures PagesWithImages(pages) == 0 <==> forall i :: 0 <= i < |pages| ==> pages[i].images == 0
    decreases |pages|
  {
    if |pages| > 0 {
      var n := |pages| - 1;
      SummaryBounds(pages[..n]);
      if forall i :: 0 <= i < n ==> pages[..n][i].images == 0 {
        assert forall i :: 0 <= i < n ==> pages[i].images == 0 by {
          forall i | 0 <= i < n ensures pages[i].images == 0 {
            assert pages[..n][i] == pages[i];
          }
        }
      } else {
        var i :| 0 <= i < n && pages[..n][i].images != 0;
        assert pages[i] == pages[..n][i];
      }
    }
  }
}
