/**
 * `format_data_for_pdf` (backend/utils/response.py): a mapping of named
 * sections, each with a type and a content, becomes a list of page
 * elements.  ReportLab's flowables are abstracted to a datatype that keeps
 * what the function chooses: which style, which text, which items and
 * which spacer height.
 */
module PdfResponse {
  import opened Text

  /** A section's content: text, or a list of points. */
  datatype Content = TextContent(text: string) | ListContent(points: seq<string>)
  {
    /** Python truthiness. */
    predicate NonEmpty() {
      match this
      case TextContent(text) => text != ""
      case ListContent(points) => points != []
    }

    /** The items a list comprehension over the content yields: the points, or the characters of a text. */
    function Items(): (r: seq<string>)
      ensures ListContent? ==> r == points
      ensures TextContent? ==> |r| == |text| && forall i :: 0 <= i < |text| ==> r[i] == [text[i]]
      ensures |r| == 0 <==> !NonEmpty()
    {
      match this
      case ListContent(points) => points
      case TextContent(text) => seq(|text|, i requires 0 <= i < |text| => [text[i]])
    }
  }

  /** One section: `type` may be missing; missing content is the empty text. */
  datatype Section = Section(kind: Option<string>, content: Content)

  datatype Style = SectionHeader | BodyText

  /** The page elements, with spacer heights in hundredths of an inch. */
  datatype Element = Paragraph(style: Style, content: Content) | BulletList(items: seq<string>) | Spacer(hundredths: nat)

  /** The elements one section contributes. */
  function SectionElements(s: Section): (r: seq<Element>)
    ensures s.kind == Some("header") ==> r == [Paragraph(SectionHeader, s.content), Spacer(10)]
    ensures s.kind == Some("paragraph") ==> r == [Paragraph(BodyText, s.content), Spacer(15)]
    ensures s.kind == Some("bullet_points") && s.content.NonEmpty() ==> r == [BulletList(s.content.Items()), Spacer(15)]
    ensures r == [] <==> !Renders(s)
  {
    if s.kind == Some("header") then [Paragraph(SectionHeader, s.content), Spacer(10)]
    else if s.kind == Some("paragraph") then [Paragraph(BodyText, s.content), Spacer(15)]
    else if s.kind == Some("bullet_points") && s.content.NonEmpty() then [BulletList(s.content.Items()), Spacer(15)]
    else []
  }

  /** A section that produces something: a header, a paragraph, or a non-empty bullet list. */
  predicate Renders(s: Section) {
    s.kind == Some("header") || s.kind == Some("paragraph") || (s.kind == Some("bullet_points") && s.content.NonEmpty())
  }

  /** The elements of the sections, in mapping order. */
  function Rendered(sections: seq<(string, Section)>): seq<Element>
    decreases |sections|
  {
    if |sections| == 0 then []
    else Rendered(sections[..|sections| - 1]) + SectionElements(sections[|sections| - 1].1)
  }

  /** The number of sections that produce something. */
  function RenderingCount(sections: seq<(string, Section)>): (n: nat)
    ensures n <= |sections|
    decreases |sections|
  {
    if |sections| == 0 then 0
    else RenderingCount(sections[..|sections| - 1]) + (if Renders(sections[|sections| - 1].1) then 1 else 0)
  }

  /** `format_data_for_pdf`. */
  method FormatDataForPdf(sections: seq<(string, Section)>) returns (elements: seq<Element>)
    ensures elements == Rendered(sections)
    ensures |elements| == 2 * RenderingCount(sections)
  {
    elements := [];
    var i := 0;
    while i < |sections|
      invariant 0 <= i <= |sections|
      invariant elements == Rendered(sections[..i])
      invariant |elements| == 2 * RenderingCount(sections[..i])
    {
      assert sections[..i + 1][..i] == sections[..i];
      var section := sections[i].1;
      if section.kind == Some("header") {
        elements := elements + [Paragraph(SectionHeader, section.content), Spacer(10)];
      } else if section.kind == Some("paragraph") {
        elements := elements + [Paragraph(BodyText, section.content), Spacer(15)];
      } else if section.kind == Some("bullet_points") {
        if section.content.NonEmpty() {
          elements := elements + [BulletList(section.content.Items()), Spacer(15)];
        }
      }
      i := i + 1;
    }
    assert sections[..i] == sections;
  }

  /** Rendering keeps the mapping's order: the elements of a joined mapping are the joined elements. */
  lemma {:induction false} RenderedAppend(a: seq<(string, Section)>, b: seq<(string, Section)>)
    ensures Rendered(a + b) == Rendered(a) + Rendered(b)
    decreases |b|
  {
    if |b| > 0 {
      var n := |b| - 1;
      assert (a + b)[..|a + b| - 1] == a + b[..n];
      assert (a + b)[|a + b| - 1] == b[n];
      RenderedAppend(a, b[..n]);
    } else {
      assert a + b == a;
    }
  }

  /** Every second element, starting from the second, is a spacer. */
  lemma {:induction false} SpacerAfterEach(sections: seq<(string, Section)>, k: nat)
    requires k < RenderingCount(sections)
    ensures |Rendered(sections)| == 2 * RenderingCount(sections)
    ensures Rendered(sections)[2 * k + 1].Spacer?
    ensures !Rendered(sections)[2 * k].Spacer?
    decreases |sections|
  {
    var n := |sections| - 1;
    RenderedLength(sections[..n]);
    RenderedLength(sections);
    if k < RenderingCount(sections[..n]) {
      SpacerAfterEach(sections[..n], k);
    }
  }

  lemma {:induction false} RenderedLength(sections: seq<(string, Section)>)
    ensures |Rendered(sections)| == 2 * RenderingCount(sections)
    decreases |sections|
  {
    if |sections| > 0 {
      RenderedLength(sections[..|sections| - 1]);
    }
  }
}
