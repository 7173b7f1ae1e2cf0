/**
 * The prompt-keyed fallback text of the OpenAI-backed report generator
 * (`_generate_fallback_text`, openai_report_generator.py): used when no model
 * is available, it picks a canned paragraph by the first keyword the
 * lower-cased prompt mentions and fills in the names it can read from the
 * prompt's labelled lines.
 */
module FallbackText {
  import opened Text
  import Narratives

  /** Which paragraph a prompt gets, in the order the keywords are tried. */
  datatype PromptKind = Background | CaregiverConcerns | Observation | DomainSection | Summary | Goals | Generic

  /** The lower-cased prompt contains `word`. */
  predicate Mentions(prompt: string, word: string) {
    Contains(Lower(prompt), word)
  }

  const DomainKeywords: seq<string> := ["cognitive", "receptive", "expressive", "fine motor", "gross motor", "social-emotional"]

  predicate MentionsDomain(prompt: string) {
    exists i :: 0 <= i < |DomainKeywords| && Mentions(prompt, DomainKeywords[i])
  }

  /** The keyword dispatch: the first keyword mentioned decides. */
  function KindOf(prompt: string): (k: PromptKind)
    ensures k == Background <==> Mentions(prompt, "background")
    ensures k == CaregiverConcerns <==> !Mentions(prompt, "background") && Mentions(prompt, "caregiver concerns")
    ensures k == Observation <==>
      !Mentions(prompt, "background") && !Mentions(prompt, "caregiver concerns") && Mentions(prompt, "observation")
    ensures k == DomainSection <==>
      !Mentions(prompt, "background") && !Mentions(prompt, "caregiver concerns") && !Mentions(prompt, "observation")
      && MentionsDomain(prompt)
    ensures k == Summary <==>
      !Mentions(prompt, "background") && !Mentions(prompt, "caregiver concerns") && !Mentions(prompt, "observation")
      && !MentionsDomain(prompt) && Mentions(prompt, "summary")
    ensures k == Goals <==>
      !Mentions(prompt, "background") && !Mentions(prompt, "caregiver concerns") && !Mentions(prompt, "observation")
      && !MentionsDomain(prompt) && !Mentions(prompt, "summary") && Mentions(prompt, "goals")
    ensures k == Generic <==>
      !Mentions(prompt, "background") && !Mentions(prompt, "caregiver concerns") && !Mentions(prompt, "observation")
      && !MentionsDomain(prompt) && !Mentions(prompt, "summary") && !Mentions(prompt, "goals")
  {
    if Mentions(prompt, "background") then Background
    else if Mentions(prompt, "caregiver concerns") then CaregiverConcerns
    else if Mentions(prompt, "observation") then Observation
    else if MentionsDomain(prompt) then DomainSection
    else if Mentions(prompt, "summary") then Summary
    else if Mentions(prompt, "goals") then Goals
    else Generic
  }

  /**
   * `prompt.split(key)[1].split(stop)[0].strip()` when the key occurs,
   * `default` when it does not: the text after the first key up to the
   * stop character.  It never holds the stop character.
   */
  function FieldAfter(prompt: string, key: string, stop: char, fallback: string): (r: string)
    requires |key| > 0
    ensures !Contains(prompt, key) ==> r == fallback
    ensures Contains(prompt, key) ==> Free(r, stop) && (r == [] || (!IsSpace(r[0]) && !IsSpace(r[|r| - 1])))
  {
    if Contains(prompt, key) then
      SplitCount(prompt, key);
      var after := Split(prompt, key)[1];
      SplitCharFree(after, stop);
      assert Split(after, [stop])[0] in Split(after, [stop]);
      StripFree(Split(after, [stop])[0], stop);
      Strip(Split(after, [stop])[0])
    else fallback
  }

  /**
   * Reading back what a prompt builder wrote: in a prompt holding the key
   * once, followed by a value and the stop character, the field is the
   * value without its surrounding whitespace.
   */
  lemma FieldAfterReads(pre: string, key: string, value: string, stop: char, post: string, fallback: string)
    requires |key| > 0
    requires NoneStartsBefore(pre + key + (value + [stop] + post), key, |pre|)
    requires !Contains(value + [stop] + post, key)
    requires Free(value, stop)
    ensures FieldAfter(pre + key + value + [stop] + post, key, stop, fallback) == Strip(value)
  {
    var rest := value + [stop] + post;
    var prompt := pre + key + rest;
    assert pre + key + value + [stop] + post == prompt;
    SplitAt(pre, key, rest);
    SplitAbsent(rest, key);
    SplitCount(prompt, key);
    forall k | 0 <= k < |value|
      ensures !StartsWith((value + [stop] + post)[k..], [stop])
    {
      assert (value + [stop] + post)[k] == value[k];
    }
    SplitAt(value, [stop], post);
  }

  const PatientLabel := "Patient:"

  /**
   * The canned sentences of the fallback paragraphs, looked up by name: the
   * proofs about where the names from the prompt go never need their words.
   */
  datatype Phrase =
    | CaregiverTwo
    | CaregiverThree
    | CaregiverFour
    | CaregiverFive
    | ObservationOne
    | ObservationTwo
    | ObservationThree
    | ScoreInfo
    | DomainThree
    | DomainFour
    | DomainFive
    | SummaryTwo
    | StackBlocksGoal
    | StringBeadsGoal
    | PincerGraspGoal
    | ScribbleGoal
    | GenericParagraph

  function Words(p: Phrase): string {
    match p
    case CaregiverTwo => "'s overall development. She noted challenges with attention span and focus during structured activities, indicating difficulty with sustained engagement. "
    case CaregiverThree => " also reported concerns about fine motor skill development and "
    case CaregiverFour => "'s ability to manipulate small objects. Of particular concern is "
    case CaregiverFive => "'s communication development and behavioral regulation during transitions between activities."
    case ObservationOne => " participated in an in-clinic evaluation with the caregiver present. "
    case ObservationTwo => " presented with a cooperative affect initially but demonstrated variable attention span throughout the assessment. Muscle tone appeared typical for chronological age, with adequate range of motion observed. However, participation was impacted by distractibility and need for frequent redirection. During structured tasks, "
    case ObservationThree => " required verbal and visual cues to maintain engagement. Fine motor coordination showed areas for development, with tasks requiring hand-over-hand assistance for completion. These factors impacted standardized testing and required modifications to maintain participation."
    case ScoreInfo => "Assessment scores and clinical observations indicate areas for targeted intervention. "
    case DomainThree => "Clinical observations revealed both emerging skills and areas requiring support. During testing activities, "
    case DomainFour => " showed intermittent engagement with tasks requiring sustained attention and effort. Performance patterns suggest the need for structured intervention to support skill development in this domain. These findings indicate that "
    case DomainFive => " would benefit from targeted therapeutic intervention."
    case SummaryTwo => ") was assessed using multiple standardized pediatric assessment tools to evaluate developmental functioning across cognitive, motor, sensory processing, and adaptive behavior domains. The comprehensive evaluation revealed both areas of emerging strength and areas requiring targeted intervention support. Based on the assessment findings, occupational therapy services are recommended to address identified areas of need and support optimal developmental progression. A collaborative, family-centered approach involving occupational therapy and related services will be beneficial to address the client's comprehensive developmental needs. Regular monitoring and reassessment will be important to track progress and adjust intervention strategies as needed."
    case StackBlocksGoal => " will stack 4-5 one-inch blocks independently in 4 out of 5 opportunities with minimal verbal prompts, to improve visual-motor coordination and hand stability for age-appropriate play skills."
    case StringBeadsGoal => " will string 2-3 large beads onto a shoelace in 4 out of 5 opportunities with moderate assistance, demonstrating bilateral hand coordination and crossing midline."
    case PincerGraspGoal => " will use a pincer grasp to pick up and place small objects (cheerios, blocks) in 4 out of 5 opportunities with minimal cues, improving fine motor precision for functional tasks."
    case GenericParagraph => "Based on comprehensive standardized assessment findings, the client demonstrates a mixed profile of developmental strengths and areas requiring targeted intervention support. Clinical observations and assessment results indicate the need for structured therapeutic intervention to promote optimal developmental outcomes."
    case ScribbleGoal => " will spontaneously scribble on paper using an age-appropriate grasp in 4 out of 5 opportunities with minimal prompts, promoting pre-writing skill development and creative expression."
  }

  const CaregiverOne := " expressed broad concerns regarding "
  const DomainOne := " demonstrated variable performance in "
  const DomainTwo := " during assessment. "
  const SummaryOne := " (chronological age: "

  const GoalOpening := "Within six months, "

  /** The four numbered goal lines for one child, "1. " to "4. ". */
  function GoalLines(name: string): (r: seq<string>)
    ensures |r| == 4
    ensures forall i :: 0 <= i < 4 ==> StartsWith(r[i], [DigitChar(i + 1)] + ". " + GoalOpening + name)
  {
    var tails := [Words(StackBlocksGoal), Words(StringBeadsGoal), Words(PincerGraspGoal), Words(ScribbleGoal)];
    seq(4, i requires 0 <= i < 4 => [DigitChar(i + 1)] + ". " + GoalOpening + name + tails[i])
  }

  const DomainNames: seq<string> := ["Cognitive", "Receptive Communication", "Expressive Communication", "Fine Motor", "Gross Motor", "Social-Emotional"]

  /** The first domain name, from position `i` on, whose lower-cased form the prompt mentions. */
  function FirstDomainFrom(prompt: string, i: nat): (r: Option<nat>)
    requires i <= |DomainNames|
    ensures r.Some? ==>
      && i <= r.value < |DomainNames|
      && Mentions(prompt, Lower(DomainNames[r.value]))
      && forall k :: i <= k < r.value ==> !Mentions(prompt, Lower(DomainNames[k]))
    ensures r.None? ==> forall k :: i <= k < |DomainNames| ==> !Mentions(prompt, Lower(DomainNames[k]))
    decreases |DomainNames| - i
  {
    if i == |DomainNames| then None
    else if Mentions(prompt, Lower(DomainNames[i])) then Some(i)
    else FirstDomainFrom(prompt, i + 1)
  }

  function DomainNameOf(prompt: string): string {
    match FirstDomainFrom(prompt, 0)
    case Some(j) => DomainNames[j]
    case None => "this domain"
  }

  /** The domain loop of the fallback: the first listed domain the prompt names, else "this domain". */
  method FindDomainName(prompt: string) returns (name: string)
    ensures name == DomainNameOf(prompt)
    ensures name == "this domain" || name in DomainNames
  {
    name := "this domain";
    var i := 0;
    while i < |DomainNames|
      invariant 0 <= i <= |DomainNames|
      invariant forall k :: 0 <= k < i ==> !Mentions(prompt, Lower(DomainNames[k]))
    {
      if Mentions(prompt, Lower(DomainNames[i])) {
        name := DomainNames[i];
        return;
      }
      i := i + 1;
    }
  }

  /** The paragraph for each kind, given the names read from the prompt. */
  function CaregiverText(parent: string, child: string): string {
    parent + CaregiverOne + child + Words(CaregiverTwo) + parent + Words(CaregiverThree) + child + Words(CaregiverFour) + child + Words(CaregiverFive)
  }

  function ObservationText(child: string): string {
    child + Words(ObservationOne) + child + Words(ObservationTwo) + child + Words(ObservationThree)
  }

  function DomainText(child: string, domain: string, scoreInfo: string): string {
    child + DomainOne + domain + DomainTwo + scoreInfo + Words(DomainThree) + child + Words(DomainFour) + child + Words(DomainFive)
  }

  function SummaryText(child: string, age: string): string {
    child + SummaryOne + age + Words(SummaryTwo)
  }

  /** The summary age: only read when the patient key is present; `(` is looked for from the start of the prompt. */
  function SummaryAge(prompt: string): (r: string)
    ensures !(Contains(prompt, PatientLabel) && Contains(prompt, "(")) ==> r == "unknown age"
    ensures Free(r, ')')
  {
    if Contains(prompt, PatientLabel) then FieldAfter(prompt, "(", ')', "unknown age") else "unknown age"
  }

  /** The fallback paragraph for a prompt. */
  function FallbackFor(prompt: string): string {
    match KindOf(prompt)
    case Background =>
      Narratives.BackgroundOpening + FieldAfter(prompt, PatientLabel, '(', "the client") + Narratives.BackgroundClosing
    case CaregiverConcerns =>
      CaregiverText(FieldAfter(prompt, "Parent/Guardian:", '\n', "The caregiver"), FieldAfter(prompt, "Child:", '\n', "the child"))
    case Observation =>
      ObservationText(FieldAfter(prompt, PatientLabel, '\n', "The child"))
    case DomainSection =>
      DomainText(FieldAfter(prompt, PatientLabel, '\n', "The child"), DomainNameOf(prompt),
        if Contains(prompt, "Scaled Score:") then Words(ScoreInfo) else "")
    case Summary =>
      SummaryText(FieldAfter(prompt, PatientLabel, '(', "The child"), SummaryAge(prompt))
    case Goals =>
      Join("\n", GoalLines(FieldAfter(prompt, PatientLabel, '\n', "the child")))
    case Generic => Words(GenericParagraph)
  }

  /** `_generate_fallback_text`, with its domain loop run as a loop. */
  method GenerateFallbackText(prompt: string) returns (text: string)
    ensures text == FallbackFor(prompt)
  {
    var kind := KindOf(prompt);
    if kind == DomainSection {
      var domainName := FindDomainName(prompt);
      var child := FieldAfter(prompt, PatientLabel, '\n', "The child");
      var scoreInfo := if Contains(prompt, "Scaled Score:") then Words(ScoreInfo) else "";
      text := DomainText(child, domainName, scoreInfo);
    } else {
      text := FallbackFor(prompt);
    }
  }

  /**
   * A background prompt that names the patient once, as "Patient: <name> (",
   * gets a paragraph about that patient.
   */
  lemma BackgroundNamesPatient(pre: string, name: string, post: string)
    requires NoneStartsBefore(pre + PatientLabel + (name + "(" + post), PatientLabel, |pre|)
    requires !Contains(name + "(" + post, PatientLabel)
    requires Free(name, '(')
    requires KindOf(pre + PatientLabel + name + "(" + post) == Background
    ensures FallbackFor(pre + PatientLabel + name + "(" + post)
      == Narratives.BackgroundOpening + Strip(name) + Narratives.BackgroundClosing
  {
    FieldAfterReads(pre, PatientLabel, name, '(', post, "the client");
  }

  /**
   * A goals prompt that names the patient once, on a "Patient: <name>" line,
   * gets the four numbered goals about that patient.
   */
  lemma GoalsNamePatient(pre: string, name: string, post: string)
    requires NoneStartsBefore(pre + PatientLabel + (name + "\n" + post), PatientLabel, |pre|)
    requires !Contains(name + "\n" + post, PatientLabel)
    requires Free(name, '\n')
    requires KindOf(pre + PatientLabel + name + "\n" + post) == Goals
    ensures FallbackFor(pre + PatientLabel + name + "\n" + post) == Join("\n", GoalLines(Strip(name)))
  {
    FieldAfterReads(pre, PatientLabel, name, '\n', post, "the child");
  }

  /** The goals paragraph opens with the first goal for the child. */
  lemma GoalsOpenWithFirstGoal(name: string)
    ensures StartsWith(Join("\n", GoalLines(name)), "1. " + GoalOpening + name)
  {
    var lines := GoalLines(name);
    assert Join("\n", lines) == lines[0] + ("\n" + Join("\n", lines[1..]));
    assert [DigitChar(1)] + ". " + GoalOpening + name == "1. " + GoalOpening + name;
    StartsWithAppend(lines[0], "\n" + Join("\n", lines[1..]), "1. " + GoalOpening + name);
  }
}
