/**
 * Narrative text handling of openai_report_generator.py: the `[SECTION]`
 * marker parser for the consolidated narrative reply and its fallbacks, the
 * consolidated-narrative lookup, and the list shapers that turn narrative
 * text into recommendation, goal and clinical-note lists.
 */
module Narratives {
  import opened Text

  /** Patient details as the report data resolves them, defaults already applied. */
  datatype PatientContext = PatientContext(childName: string, age: string, parentName: string)

  // ----- The [SECTION] parser ---------------------------------------------

  /** A stripped line that opens a section: starts with "[" and ends with "]". */
  predicate IsMarker(line: string) {
    StartsWith(line, "[") && EndsWith(line, "]")
  }

  /** The lower-cased text between the brackets. */
  function MarkerKey(line: string): string
    requires IsMarker(line)
  {
    assert |line| >= 2 by {
      assert line[..1][0] == '[';
    }
    Lower(line[1..|line| - 1])
  }

  /** The parser's variables; the empty key plays the part of a falsy section. */
  datatype ParseState = ParseState(sections: map<string, string>, current: string, content: seq<string>)

  const Initial := ParseState(map[], "", [])

  /** `'\n'.join(current_content).strip()` */
  function Close(content: seq<string>): string {
    Strip(Join("\n", content))
  }

  /** Saving the open section, if there is a truthy one. */
  function Saved(st: ParseState): map<string, string> {
    if st.current != "" then st.sections[st.current := Close(st.content)] else st.sections
  }

  /** What one stripped line is to the parser. */
  datatype LineKind = Marker(key: string) | TextLine(text: string) | BlankLine

  function Classify(raw: string): LineKind {
    var line := Strip(raw);
    if IsMarker(line) then Marker(MarkerKey(line))
    else if line != "" then TextLine(line)
    else BlankLine
  }

  /** One iteration of the parser's loop. */
  function Step(st: ParseState, raw: string): ParseState {
    match Classify(raw)
    case Marker(key) => ParseState(Saved(st), key, [])
    case TextLine(line) => if st.current != "" then st.(content := st.content + [line]) else st
    case BlankLine => st
  }

  /** The parser state after a sequence of lines, one `Step` per line. */
  function Run(st: ParseState, lines: seq<string>): ParseState
    decreases |lines|
  {
    if |lines| == 0 then st else Step(Run(st, lines[..|lines| - 1]), lines[|lines| - 1])
  }

  /** The sections the parser produces for a reply, before fallbacks. */
  function ParseSections(response: string): map<string, string> {
    Saved(Run(Initial, Split(response, "\n")))
  }

  lemma {:induction false} RunAppend(st: ParseState, a: seq<string>, b: seq<string>)
    ensures Run(st, a + b) == Run(Run(st, a), b)
    decreases |b|
  {
    if |b| == 0 {
      assert a + b == a;
    } else {
      var n := |b| - 1;
      assert (a + b)[..|a + b| - 1] == a + b[..n];
      assert (a + b)[|a + b| - 1] == b[n];
      RunAppend(st, a, b[..n]);
    }
  }

  /** The loop over the reply's lines. */
  method ParseConsolidated(response: string) returns (sections: map<string, string>)
    ensures sections == ParseSections(response)
  {
    var lines := Split(response, "\n");
    sections := map[];
    var current := "";
    var content: seq<string> := [];
    var i := 0;
    while i < |lines|
      invariant 0 <= i <= |lines|
      invariant ParseState(sections, current, content) == Run(Initial, lines[..i])
    {
      assert lines[..i + 1][..i] == lines[..i];
      var line := Strip(lines[i]);
      if StartsWith(line, "[") && EndsWith(line, "]") {
        if current != "" {
          sections := sections[current := Strip(Join("\n", content))];
        }
        current := MarkerKey(line);
        content := [];
      } else if line != "" && current != "" {
        content := content + [line];
      }
      i := i + 1;
    }
    assert lines[..i] == lines;
    if current != "" {
      sections := sections[current := Strip(Join("\n", content))];
    }
  }

  /**
   * The list comprehensions that keep `p.strip()` for the pieces `p` passing
   * a test: any non-blank piece, a non-blank piece not starting with "#", or
   * a non-blank piece that mentions "Within" or starts with a digit.
   */
  datatype Rule = AnyText | NoHeading | GoalLike

  const Heading := "#"
  const Within := "Within"

  predicate Keeps(rule: Rule, piece: string) {
    Strip(piece) != "" &&
    match rule
    case AnyText => true
    case NoHeading => !StartsWith(Strip(piece), Heading)
    case GoalLike => Contains(piece, Within) || IsDigit(piece[0])
  }

  function Kept(pieces: seq<string>, rule: Rule): (r: seq<string>)
    ensures |r| <= |pieces|
    decreases |pieces|
  {
    if |pieces| == 0 then []
    else
      var last := pieces[|pieces| - 1];
      Kept(pieces[..|pieces| - 1], rule) + (if Keeps(rule, last) then [Strip(last)] else [])
  }

  /** Filtering distributes over concatenation: the kept pieces stay in their order. */
  lemma {:induction false} KeptAppend(a: seq<string>, b: seq<string>, rule: Rule)
    ensures Kept(a + b, rule) == Kept(a, rule) + Kept(b, rule)
    decreases |b|
  {
    if |b| == 0 {
      assert a + b == a;
    } else {
      var n := |b| - 1;
      assert (a + b)[..|a + b| - 1] == a + b[..n];
      assert (a + b)[|a + b| - 1] == b[n];
      KeptAppend(a, b[..n], rule);
    }
  }

  /** An item is kept exactly when it is the stripped form of a piece that passes the test. */
  lemma KeptMembership(pieces: seq<string>, rule: Rule, x: string)
    ensures x in Kept(pieces, rule) <==> exists i :: 0 <= i < |pieces| && Keeps(rule, pieces[i]) && x == Strip(pieces[i])
  {
    if x in Kept(pieces, rule) {
      KeptFrom(pieces, rule, x);
    }
    forall i | 0 <= i < |pieces| && Keeps(rule, pieces[i]) && x == Strip(pieces[i])
      ensures x in Kept(pieces, rule)
    {
      KeptTo(pieces, rule, i);
    }
  }

  /** Every kept item comes from a piece that passes the test. */
  lemma {:induction false} KeptFrom(pieces: seq<string>, rule: Rule, x: string)
    requires x in Kept(pieces, rule)
    ensures exists i :: 0 <= i < |pieces| && Keeps(rule, pieces[i]) && x == Strip(pieces[i])
    decreases |pieces|
  {
    var n := |pieces| - 1;
    var init := pieces[..n];
    if x in Kept(init, rule) {
      KeptFrom(init, rule, x);
      var i :| 0 <= i < n && Keeps(rule, init[i]) && x == Strip(init[i]);
      assert pieces[i] == init[i];
    } else {
      assert Keeps(rule, pieces[n]) && x == Strip(pieces[n]);
    }
  }

  /** Every piece that passes the test is kept, stripped. */
  lemma {:induction false} KeptTo(pieces: seq<string>, rule: Rule, i: nat)
    requires i < |pieces| && Keeps(rule, pieces[i])
    ensures Strip(pieces[i]) in Kept(pieces, rule)
    decreases |pieces|
  {
    var n := |pieces| - 1;
    var init := pieces[..n];
    var tail := if Keeps(rule, pieces[n]) then [Strip(pieces[n])] else [];
    assert Kept(pieces, rule) == Kept(init, rule) + tail;
    if i < n {
      assert init[i] == pieces[i];
      KeptTo(init, rule, i);
    } else {
      assert tail == [Strip(pieces[i])];
    }
  }

  /** Pieces free of a character stay free of it once stripped and filtered. */
  lemma {:induction false} KeptFree(pieces: seq<string>, rule: Rule, c: char)
    requires forall p :: p in pieces ==> Free(p, c)
    ensures forall i :: 0 <= i < |Kept(pieces, rule)| ==> Free(Kept(pieces, rule)[i], c)
    decreases |pieces|
  {
    if |pieces| > 0 {
      var n := |pieces| - 1;
      assert pieces[n] in pieces;
      StripFree(pieces[n], c);
      forall p | p in pieces[..n]
        ensures Free(p, c)
      {
        assert p in pieces;
      }
      KeptFree(pieces[..n], rule, c);
    }
  }

  predicate NoMarkers(lines: seq<string>) {
    forall i :: 0 <= i < |lines| ==> !Classify(lines[i]).Marker?
  }

  /** Lines before the first marker leave the parser where it started. */
  lemma {:induction false} UnmarkedPrefixIgnored(pre: seq<string>)
    requires NoMarkers(pre)
    ensures Run(Initial, pre) == Initial
    decreases |pre|
  {
    if |pre| > 0 {
      var n := |pre| - 1;
      assert NoMarkers(pre[..n]) by {
        forall i | 0 <= i < n
          ensures !Classify(pre[..n][i]).Marker?
        {
          assert pre[..n][i] == pre[i];
        }
      }
      UnmarkedPrefixIgnored(pre[..n]);
    }
  }

  /** The parser ignores every line before the first marker line. */
  lemma LeadingLinesIgnored(pre: seq<string>, rest: seq<string>)
    requires NoMarkers(pre)
    ensures Saved(Run(Initial, pre + rest)) == Saved(Run(Initial, rest))
  {
    RunAppend(Initial, pre, rest);
    UnmarkedPrefixIgnored(pre);
  }

  /** Inside an open section, the non-blank lines are collected in order. */
  lemma {:induction false} SectionCollects(st: ParseState, body: seq<string>)
    requires st.current != "" && NoMarkers(body)
    ensures Run(st, body) == st.(content := st.content + Kept(body, AnyText))
    decreases |body|
  {
    if |body| > 0 {
      var n := |body| - 1;
      assert NoMarkers(body[..n]) by {
        forall i | 0 <= i < n
          ensures !Classify(body[..n][i]).Marker?
        {
          assert body[..n][i] == body[i];
        }
      }
      SectionCollects(st, body[..n]);
      StepUnmarked(Run(st, body[..n]), body[n]);
    }
  }

  /** One unmarked line inside an open section adds its stripped text, if any. */
  lemma StepUnmarked(st: ParseState, line: string)
    requires st.current != "" && !Classify(line).Marker?
    ensures Step(st, line) == st.(content := st.content + (if Keeps(AnyText, line) then [Strip(line)] else []))
  {
  }

  /**
   * Whatever came before, a marker followed by unmarked lines leaves exactly
   * those lines, stripped and non-blank, as the section's text: a repeated
   * marker replaces the earlier content.
   */
  lemma LastMarkerWins(st: ParseState, before: seq<string>, marker: string, body: seq<string>)
    requires Classify(marker).Marker? && Classify(marker).key != ""
    requires NoMarkers(body)
    ensures var key := Classify(marker).key;
      var result := Saved(Run(st, before + [marker] + body));
      key in result && result[key] == Close(Kept(body, AnyText))
  {
    var key := Classify(marker).key;
    var lines := before + [marker];
    RunAppend(st, lines, body);
    assert lines[..|lines| - 1] == before;
    var afterMarker := Run(st, lines);
    assert afterMarker == ParseState(Saved(Run(st, before)), key, []);
    SectionCollects(afterMarker, body);
    assert [] + Kept(body, AnyText) == Kept(body, AnyText);
  }

  // ----- Fallbacks -------------------------------------------------------

  // The fixed parts of the fallback texts.  Long literals are kept in
  // constants, which the verifier handles far more cheaply than literals
  // inside function bodies.
  const BackgroundOpening := "A developmental evaluation was recommended by the Regional Center to determine "
  const BackgroundClosing := "'s current level of performance and to guide service frequency recommendations for early intervention."
  const CaregiverMiddle := " expressed concerns regarding "
  const CaregiverClosing := "'s overall development, including attention span, fine motor skills, and behavioral regulation during transitions."
  const ObservationsClosing := " participated in an in-clinic evaluation with cooperative affect but variable attention span. Muscle tone appeared typical with tasks requiring verbal cues and hand-over-hand assistance."
  const SummaryMiddle := " (chronological age: "
  const SummaryClosing := ") was assessed using standardized pediatric assessment tools. The evaluation revealed areas requiring targeted intervention support through occupational therapy services."

  function BackgroundFallback(ctx: PatientContext): string {
    BackgroundOpening + ctx.childName + BackgroundClosing
  }

  function CaregiverFallback(ctx: PatientContext): string {
    ctx.parentName + CaregiverMiddle + ctx.childName + CaregiverClosing
  }

  function ObservationsFallback(ctx: PatientContext): string {
    ctx.childName + ObservationsClosing
  }

  function SummaryFallback(ctx: PatientContext): string {
    ctx.childName + SummaryMiddle + ctx.age + SummaryClosing
  }

  const RecommendationsFallback := "• Physical Therapy\n• Speech Therapy\n• Occupational Therapy 2x/week\n• Early intervention services"

  const GoalsFallback :=
    "1. Within six months, the child will stack 5 blocks independently in 4/5 opportunities with minimal prompts.\n"
    + "2. Within six months, the child will string 3 beads with moderate assistance in 4/5 opportunities.\n"
    + "3. Within six months, the child will use pincer grasp for small objects in 4/5 opportunities.\n"
    + "4. Within six months, the child will scribble on paper spontaneously in 4/5 opportunities."

  const FallbackOrder := ["background", "caregiver_concerns", "observations", "summary", "recommendations", "goals"]

  /** The fallback dictionary's items, in its order; every text is non-empty. */
  function FallbackItems(ctx: PatientContext): (items: seq<(string, string)>)
    ensures |items| == |FallbackOrder|
    ensures forall i :: 0 <= i < |items| ==> items[i].0 == FallbackOrder[i] && items[i].1 != ""
  {
    [("background", BackgroundFallback(ctx)),
     ("caregiver_concerns", CaregiverFallback(ctx)),
     ("observations", ObservationsFallback(ctx)),
     ("summary", SummaryFallback(ctx)),
     ("recommendations", RecommendationsFallback),
     ("goals", GoalsFallback)]
  }

  /** The keys of a list of dictionary items. */
  function KeysOf(items: seq<(string, string)>): set<string> {
    set i | 0 <= i < |items| :: items[i].0
  }

  /** The fallback loop as a function: each item fills its key when that key is missing or empty. */
  function Fill(m: map<string, string>, items: seq<(string, string)>): map<string, string>
    decreases |items|
  {
    if |items| == 0 then m
    else
      var prev := Fill(m, items[..|items| - 1]);
      var (k, v) := items[|items| - 1];
      if k !in prev || prev[k] == "" then prev[k := v] else prev
  }

  /**
   * Filling adds exactly the items' keys, keeps every non-empty entry,
   * leaves every item with a non-empty text filled, and writes nothing but
   * the items' texts.
   */
  lemma {:induction false} FillProperties(m: map<string, string>, items: seq<(string, string)>)
    ensures Fill(m, items).Keys == m.Keys + KeysOf(items)
    ensures forall k :: k in m && m[k] != "" ==> Fill(m, items)[k] == m[k]
    ensures forall i :: 0 <= i < |items| && items[i].1 != "" ==> Fill(m, items)[items[i].0] != ""
    ensures forall k :: k in Fill(m, items) && (k !in m || Fill(m, items)[k] != m[k]) ==>
      exists i :: 0 <= i < |items| && items[i] == (k, Fill(m, items)[k])
    decreases |items|
  {
    if |items| > 0 {
      var n := |items| - 1;
      var init := items[..n];
      FillProperties(m, init);
      assert KeysOf(items) == KeysOf(init) + {items[n].0} by {
        assert forall i :: 0 <= i < n ==> init[i] == items[i];
      }
      var r := Fill(m, items);
      forall i | 0 <= i < |items| && items[i].1 != ""
        ensures items[i].0 in r && r[items[i].0] != ""
      {
        if i < n {
          assert init[i] == items[i];
        }
      }
      forall k | k in r && (k !in m || r[k] != m[k])
        ensures exists i :: 0 <= i < |items| && items[i] == (k, r[k])
      {
        var prev := Fill(m, init);
        if k in prev && r[k] == prev[k] && (k !in m || prev[k] != m[k]) {
          var i :| 0 <= i < n && init[i] == (k, prev[k]);
          assert items[i] == init[i];
        } else {
          assert items[n] == (k, r[k]);
        }
      }
    }
  }

  /** The fallback loop: fills each item's key when it is missing or empty. */
  method FillMissing(sections: map<string, string>, items: seq<(string, string)>) returns (r: map<string, string>)
    ensures r == Fill(sections, items)
  {
    r := sections;
    var i := 0;
    while i < |items|
      invariant 0 <= i <= |items|
      invariant r == Fill(sections, items[..i])
    {
      assert items[..i + 1][..i] == items[..i];
      var (key, fallback) := items[i];
      if key !in r || r[key] == "" {
        r := r[key := fallback];
      }
      i := i + 1;
    }
    assert items[..i] == items;
  }

  /**
   * `_generate_consolidated_report_narratives` after the model call: `None`
   * is a reply that is not text, which makes the parser raise; the source
   * then returns all six fallbacks.  Either way every standard section is
   * present and non-empty, and a non-empty parsed section is kept as parsed.
   */
  method GenerateConsolidatedReportNarratives(response: Option<string>, ctx: PatientContext)
    returns (narratives: map<string, string>)
    ensures response.None? ==> narratives == Fill(map[], FallbackItems(ctx))
    ensures response.Some? ==> narratives == Fill(ParseSections(response.value), FallbackItems(ctx))
    ensures forall i :: 0 <= i < |FallbackOrder| ==> FallbackOrder[i] in narratives && narratives[FallbackOrder[i]] != ""
    ensures response.Some? ==>
      forall k :: k in ParseSections(response.value) && ParseSections(response.value)[k] != "" ==>
        k in narratives && narratives[k] == ParseSections(response.value)[k]
  {
    var sections: map<string, string> := map[];
    if response.Some? {
      sections := ParseConsolidated(response.value);
    }
    var items := FallbackItems(ctx);
    narratives := FillMissing(sections, items);
    FillProperties(sections, items);
  }

  /** The text stored under the first item with `key`, if any. */
  function Lookup(items: seq<(string, string)>, key: string): (r: Option<string>)
    ensures r.None? <==> key !in KeysOf(items)
    ensures r.Some? ==> exists i :: 0 <= i < |items| && items[i] == (key, r.value)
    decreases |items|
  {
    if |items| == 0 then None
    else if items[0].0 == key then Some(items[0].1)
    else
      LookupTail(items, key);
      Lookup(items[1..], key)
  }

  /** What the lookup needs about the items after the first. */
  lemma LookupTail(items: seq<(string, string)>, key: string)
    requires |items| > 0
    ensures KeysOf(items) == {items[0].0} + KeysOf(items[1..])
    ensures forall i :: 0 <= i < |items[1..]| ==> items[1..][i] == items[i + 1]
  {
    assert forall i :: 0 < i < |items| ==> items[1..][i - 1] == items[i];
  }

  /**
   * `_get_consolidated_narrative`: the stored text when present and
   * non-empty, else the fallback of the first four sections, else a generic
   * sentence; never empty.
   */
  function GetConsolidatedNarrative(narratives: map<string, string>, key: string, ctx: PatientContext): (r: string)
    ensures r != ""
    ensures key in narratives && narratives[key] != "" ==> r == narratives[key]
    ensures !(key in narratives && narratives[key] != "") && key in KeysOf(FallbackItems(ctx)[..4]) ==>
      exists i :: 0 <= i < 4 && FallbackItems(ctx)[i] == (key, r)
    ensures !(key in narratives && narratives[key] != "") && key !in KeysOf(FallbackItems(ctx)[..4]) ==>
      r == "Clinical assessment completed for " + ctx.childName + "."
  {
    if key in narratives && narratives[key] != "" then narratives[key]
    else
      match Lookup(FallbackItems(ctx)[..4], key)
      case Some(text) => text
      case None => "Clinical assessment completed for " + ctx.childName + "."
  }

  /** With distinct keys none of which is already present, every item lands under its key. */
  lemma {:induction false} FillDistinct(m: map<string, string>, items: seq<(string, string)>)
    requires forall i, j :: 0 <= i < j < |items| ==> items[i].0 != items[j].0
    requires forall i :: 0 <= i < |items| ==> items[i].0 !in m
    ensures forall i :: 0 <= i < |items| ==> items[i].0 in Fill(m, items) && Fill(m, items)[items[i].0] == items[i].1
    decreases |items|
  {
    if |items| > 0 {
      var n := |items| - 1;
      var init := items[..n];
      FillDistinct(m, init);
      FillProperties(m, init);
      assert items[n].0 !in KeysOf(init);
      forall i | 0 <= i < |items|
        ensures items[i].0 in Fill(m, items) && Fill(m, items)[items[i].0] == items[i].1
      {
        if i < n {
          assert init[i] == items[i];
        }
      }
    }
  }

  /**
   * For the four narrative sections, the lookup's fallback is the text the
   * consolidated generator itself falls back to.
   */
  lemma NarrativeFallbacksAgree(key: string, ctx: PatientContext)
    requires key in {"background", "caregiver_concerns", "observations", "summary"}
    ensures var all := Fill(map[], FallbackItems(ctx));
      key in all && GetConsolidatedNarrative(map[], key, ctx) == all[key]
  {
    var items := FallbackItems(ctx);
    assert forall i, j :: 0 <= i < j < |items| ==> items[i].0 != items[j].0;
    FillDistinct(map[], items);
    var j := if key == "background" then 0 else if key == "caregiver_concerns" then 1
      else if key == "observations" then 2 else 3;
    assert items[..4][j] == items[j];
    var r := GetConsolidatedNarrative(map[], key, ctx);
    var i :| 0 <= i < 4 && items[i] == (key, r);
  }

  // ----- List shapers ----------------------------------------------------

  const Bullet := "•"
  const DefaultOptimizedRecommendations := ["Physical Therapy", "Speech Therapy", "Occupational Therapy 2x/week", "Early intervention services"]

  /**
   * `_generate_recommendations_optimized`: the stored recommendations text
   * split on bullets if it has any, else on newlines if it has any, else the
   * four default items.  Items split on bullets hold no bullet.
   */
  function GenerateRecommendationsOptimized(narratives: map<string, string>, ctx: PatientContext): (r: seq<string>)
    ensures var text := GetConsolidatedNarrative(narratives, "recommendations", ctx);
      && (Contains(text, Bullet) ==> r == Kept(Split(text, Bullet), AnyText) && forall i :: 0 <= i < |r| ==> Free(r[i], '•'))
      && (!Contains(text, Bullet) && Contains(text, "\n") ==> r == Kept(Split(text, "\n"), AnyText))
      && (!Contains(text, Bullet) && !Contains(text, "\n") ==> r == DefaultOptimizedRecommendations)
  {
    var text := GetConsolidatedNarrative(narratives, "recommendations", ctx);
    if Contains(text, Bullet) then
      SplitCharFree(text, '•');
      KeptFree(Split(text, Bullet), AnyText, '•');
      Kept(Split(text, Bullet), AnyText)
    else if Contains(text, "\n") then Kept(Split(text, "\n"), AnyText)
    else DefaultOptimizedRecommendations
  }

  const DefaultOptimizedGoals := [
    "Within six months, the child will stack 5 blocks independently in 4/5 opportunities with minimal prompts.",
    "Within six months, the child will string 3 beads with moderate assistance in 4/5 opportunities.",
    "Within six months, the child will use pincer grasp for small objects in 4/5 opportunities.",
    "Within six months, the child will scribble on paper spontaneously in 4/5 opportunities."]

  /**
   * `_generate_ot_goals_optimized`: when the stored goals text mentions
   * "Within", its stripped lines that mention "Within" or start with a
   * digit, else the four default goals; at most four either way.
   */
  function GenerateOtGoalsOptimized(narratives: map<string, string>, ctx: PatientContext): (r: seq<string>)
    ensures |r| <= 4
    ensures var text := GetConsolidatedNarrative(narratives, "goals", ctx);
      && (Contains(text, Within) ==> r == Take(Kept(Split(text, "\n"), GoalLike), 4))
      && (!Contains(text, Within) ==> r == DefaultOptimizedGoals)
  {
    var text := GetConsolidatedNarrative(narratives, "goals", ctx);
    if Contains(text, Within) then Take(Kept(Split(text, "\n"), GoalLike), 4) else DefaultOptimizedGoals
  }

  /**
   * The Google Docs list filters: the stripped non-blank lines of the model
   * reply that do not start with "#", the first `limit` of them (12 for
   * recommendations, 8 for goals).
   */
  function DocsList(reply: string, limit: nat): (r: seq<string>)
    ensures |r| <= limit
    ensures forall i :: 0 <= i < |r| ==> r[i] != "" && !StartsWith(r[i], Heading)
    ensures var kept := Kept(Split(reply, "\n"), NoHeading);
      |r| == (if |kept| <= limit then |kept| else limit) && r == kept[..|r|]
  {
    var kept := Kept(Split(reply, "\n"), NoHeading);
    forall i | 0 <= i < |kept|
      ensures kept[i] != "" && !StartsWith(kept[i], Heading)
    {
      KeptMembership(Split(reply, "\n"), NoHeading, kept[i]);
      assert kept[i] in kept;
    }
    Take(kept, limit)
  }

  /** The recommendations list of the Google Docs report: at most 12. */
  function DocsRecommendations(reply: string): (r: seq<string>)
    ensures |r| <= 12
  {
    DocsList(reply, 12)
  }

  /** The goals list of the Google Docs report: at most 8. */
  function DocsGoals(reply: string): (r: seq<string>)
    ensures |r| <= 8
  {
    DocsList(reply, 8)
  }

  /** More reply lines never reorder or drop the items kept from the earlier ones. */
  lemma KeptPrefix(lines: seq<string>, more: seq<string>, rule: Rule)
    ensures var kept := Kept(lines, rule);
      |kept| <= |Kept(lines + more, rule)| && kept == Kept(lines + more, rule)[..|kept|]
  {
    KeptAppend(lines, more, rule);
  }

  /** What `extracted_data["clinical_notes"]` holds: nothing, text, or something else. */
  datatype NotesField = NoNotes | NotesText(text: string) | NotesOther

  const DefaultClinicalNotes := [
    "Child was alert and responsive during assessment session",
    "Demonstrated age-appropriate attention and engagement",
    "Caregiver present and provided developmental history",
    "Assessment completed in structured clinical environment"]

  /**
   * `_extract_clinical_notes`: only text notes are sent to the model; its
   * reply is split on bullets.  The four defaults replace an empty result.
   * `reply` is the model's answer, used only for text notes.
   */
  function ExtractClinicalNotes(notes: NotesField, reply: string): (r: seq<string>)
    ensures r != []
    ensures notes.NotesText? && Kept(Split(reply, Bullet), AnyText) != [] ==>
      r == Kept(Split(reply, Bullet), AnyText) && forall i :: 0 <= i < |r| ==> Free(r[i], '•')
    ensures !(notes.NotesText? && Kept(Split(reply, Bullet), AnyText) != []) ==> r == DefaultClinicalNotes
  {
    var found := if notes.NotesText? then Kept(Split(reply, Bullet), AnyText) else [];
    SplitCharFree(reply, '•');
    KeptFree(Split(reply, Bullet), AnyText, '•');
    if found != [] then found else DefaultClinicalNotes
  }

  /**
   * The recommendation cleaning of the PDF report: strip, drop leading
   * bullets and dashes, strip again, and end with a full stop.
   */
  function CleanRecommendation(recommendation: string): (r: string)
    ensures EndsWith(r, ".")
    ensures var cleaned := Strip(LStripChars(Strip(recommendation), {'•', '-'}));
      r == if EndsWith(cleaned, ".") then cleaned else cleaned + "."
  {
    var cleaned := Strip(LStripChars(Strip(recommendation), {'•', '-'}));
    if EndsWith(cleaned, ".") then cleaned else cleaned + "."
  }

  /** A recommendation that is already clean passes through unchanged. */
  lemma CleanRecommendationUnchanged(recommendation: string)
    requires recommendation != [] && !IsSpace(recommendation[0]) && !IsSpace(recommendation[|recommendation| - 1])
    requires recommendation[0] !in {'•', '-'}
    requires EndsWith(recommendation, ".")
    ensures CleanRecommendation(recommendation) == recommendation
  {
    StripUnchanged(recommendation);
    assert LStripChars(recommendation, {'•', '-'}) == recommendation;
    assert Strip(LStripChars(Strip(recommendation), {'•', '-'})) == recommendation;
  }
}
