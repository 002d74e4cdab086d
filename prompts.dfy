/**
 * The prompt templates sent to the language model: the system prompt, the
 * structured-report prompt and the question prompt.  The summary arrives
 * already rendered as text.  The fixed text is split into named pieces so
 * that the positions of the summary, the question and the section headings
 * can be stated exactly.
 */
module Prompts {
  import opened Text

  /** The opening of `SYSTEM_PROMPT`, up to and including the "Rules:" line. */
  const SystemIntro :=
    "\nYou are a senior business analyst working for company leadership.\n\n"
    + "Your job is to analyze business data and provide insights that help\n"
    + "management make decisions.\n\n"
    + "Rules:\n"

  /** The rules the model must follow, one line each, in order. */
  const Rules := [
    "- Write in clear, professional business language.\n",
    "- Avoid technical or statistical jargon.\n",
    "- Be practical and decision-focused.\n",
    "- Use short paragraphs and bullet points.\n",
    "- Do NOT mention data science terms.\n",
    "- Do NOT explain calculations unless asked.\n"
  ]

  /** The blank line after the rules and the closing sentence. */
  const SystemOutro := "\nYour responses must sound like a management report prepared for executives.\n"

  /** `SYSTEM_PROMPT`: the standing instruction for the model; each rule is a section with no points. */
  const SystemPrompt: string := SystemIntro + Sections(Rules, seq(|Rules|, _ => "")) + SystemOutro

  // ---------------------------------------------------------------------------
  // The structured-report prompt

  const SummaryHeading := "Dataset Summary:"

  /** Everything before the summary. */
  const InsightsHead :=
    "\nAnalyze the dataset summary below and prepare a structured business report.\n\n"
    + SummaryHeading + "\n"

  /** The five section headings the report must follow, in order. */
  const Headings := [
    "1. Executive Summary",
    "2. Key Insights",
    "3. Trends & Patterns",
    "4. Risks & Issues",
    "5. Actionable Recommendations"
  ]

  /** The bullet points under each heading, with the blank line that ends the section. */
  const Points := [
    "\n   - Overall business performance\n   - High-level observations\n\n",
    "\n   - Important findings that stand out\n   - Unusual patterns or differences\n\n",
    "\n   - Noticeable increases, decreases, or consistency\n   - Relationships between major variables\n\n",
    "\n   - Potential business concerns\n   - Data quality or performance risks\n\n",
    "\n   - Clear next steps\n   - Business actions management should consider\n\n"
  ]

  const Lead := "\n\nGenerate the report using the following structure:\n\n"
  const Closing := "Keep the analysis concise, practical, and decision-oriented.\n"

  /** Each heading followed by its points, in order. */
  function Sections(hs: seq<string>, ps: seq<string>): string
    requires |hs| == |ps|
  {
    if hs == [] then [] else hs[0] + ps[0] + Sections(hs[1..], ps[1..])
  }

  /** Sections are as long as their headings and points together. */
  lemma {:induction false} SectionsLength(hs: seq<string>, ps: seq<string>)
    requires |hs| == |ps|
    ensures |Sections(hs, ps)| == TotalLength(hs) + TotalLength(ps)
    decreases |hs|
  {
    if hs != [] {
      SectionsLength(hs[1..], ps[1..]);
    }
  }

  function TotalLength(ss: seq<string>): nat {
    if ss == [] then 0 else |ss[0]| + TotalLength(ss[1..])
  }

  lemma HeadingsLength()
    ensures TotalLength(Headings) == 101
  {
    assert Headings[4..][1..] == [];
    assert TotalLength(Headings[4..]) == 29;
    assert Headings[3..][1..] == Headings[4..];
    assert TotalLength(Headings[3..]) == 46;
    assert Headings[2..][1..] == Headings[3..];
    assert TotalLength(Headings[2..]) == 66;
    assert Headings[1..][1..] == Headings[2..];
    assert TotalLength(Headings[1..]) == 81;
  }

  lemma PointsLength()
    ensures TotalLength(Points) == 388
  {
    assert Points[4..][1..] == [];
    assert TotalLength(Points[4..]) == 73;
    assert Points[3..][1..] == Points[4..];
    assert TotalLength(Points[3..]) == 147;
    assert Points[2..][1..] == Points[3..];
    assert TotalLength(Points[2..]) == 245;
    assert Points[1..][1..] == Points[2..];
    assert TotalLength(Points[1..]) == 323;
  }

  /** Everything after the summary. */
  const InsightsTail := Lead + Sections(Headings, Points) + Closing

  /** `insights_prompt`: the summary framed by the fixed head and tail, its length 699 characters more than the summary's. */
  function InsightsPrompt(summary: string): (r: string)
    ensures |r| == |summary| + 699
    ensures r[..|InsightsHead|] == InsightsHead
    ensures OccursAt(r, summary, |InsightsHead|)
    ensures r[|InsightsHead| + |summary|..] == InsightsTail
  {
    var r := InsightsHead + summary + InsightsTail;
    SectionsLength(Headings, Points);
    HeadingsLength();
    PointsLength();
    assert r[..|InsightsHead|] == InsightsHead;
    assert r[|InsightsHead|..|InsightsHead| + |summary|] == summary;
    assert r[|InsightsHead| + |summary|..] == InsightsTail;
    r
  }

  /** `k` occurs in `s` at or after `from`, and so on for the rest of `ks`, each after the end of the one before. */
  ghost predicate InOrder(s: string, ks: seq<string>, from: int)
    decreases |ks|
  {
    ks == [] || exists p :: from <= p && OccursAt(s, ks[0], p) && InOrder(s, ks[1..], p + |ks[0]|)
  }

  /** An ordered occurrence found from some position is also found from any earlier position. */
  lemma InOrderFrom(s: string, ks: seq<string>, from: int, earlier: int)
    requires InOrder(s, ks, from) && earlier <= from
    ensures InOrder(s, ks, earlier)
  {
    if ks != [] {
      var p :| from <= p && OccursAt(s, ks[0], p) && InOrder(s, ks[1..], p + |ks[0]|);
    }
  }

  /** The headings of a run of sections occur in order, whatever text surrounds the run. */
  lemma {:induction false} SectionsInOrder(pre: string, hs: seq<string>, ps: seq<string>, post: string)
    requires |hs| == |ps|
    decreases |hs|
    ensures InOrder(pre + Sections(hs, ps) + post, hs, |pre|)
  {
    if hs != [] {
      var rest := Sections(hs[1..], ps[1..]);
      var pre' := pre + hs[0] + ps[0];
      var r := pre + Sections(hs, ps) + post;
      assert r == pre' + rest + post;
      assert r == pre + hs[0] + (ps[0] + rest + post);
      OccursBetween(pre, hs[0], ps[0] + rest + post);
      SectionsInOrder(pre', hs[1..], ps[1..], post);
      InOrderFrom(r, hs[1..], |pre'|, |pre| + |hs[0]|);
    }
  }

  /** The report prompt carries the five section headings, one after the other, whatever the summary. */
  lemma InsightsHeadings(summary: string)
    ensures InOrder(InsightsPrompt(summary), Headings, 0)
  {
    var pre := InsightsHead + summary + Lead;
    assert InsightsPrompt(summary) == pre + Sections(Headings, Points) + Closing;
    SectionsInOrder(pre, Headings, Points, Closing);
    InOrderFrom(InsightsPrompt(summary), Headings, |pre|, 0);
  }

  /** The system prompt opens with its introduction and then lists the six rules, one after the other. */
  lemma SystemPromptRules()
    ensures SystemPrompt[..|SystemIntro|] == SystemIntro
    ensures InOrder(SystemPrompt, Rules, |SystemIntro|)
  {
    SectionsInOrder(SystemIntro, Rules, seq(|Rules|, _ => ""), SystemOutro);
  }

  /** The summary can be read back from the report prompt, so different summaries give different prompts. */
  lemma InsightsPromptInjective(a: string, b: string)
    requires InsightsPrompt(a) == InsightsPrompt(b)
    ensures a == b
  {
    var r := InsightsPrompt(a);
    assert r[|InsightsHead|..|InsightsHead| + |a|] == a;
  }

  // ---------------------------------------------------------------------------
  // The question prompt

  const QuestionOpening := "Using the dataset summary below, answer the user's business question."

  /** Everything before the summary. */
  const QuestionHead := "\n" + QuestionOpening + "\n\n" + SummaryHeading + "\n"

  /** Between the summary and the question. */
  const QuestionMiddle := "\n\nUser Question:\n"

  const QuestionClosing := "Do not include technical explanations."

  const Guidelines :=
    "\n\nGuidelines:\n"
    + "- Answer like a senior business analyst.\n"
    + "- Focus on business meaning, not numbers.\n"
    + "- Provide clear explanation and reasoning.\n"
    + "- Suggest implications or actions where relevant.\n"
    + "- Keep the answer easy to understand.\n\n"

  /** The closing line, with the newline that ends the prompt. */
  const Ending := QuestionClosing + "\n"

  /** Everything after the question. */
  const QuestionTail := Guidelines + Ending

  /**
   * `question_prompt`: the summary and then the question, framed by fixed
   * text; the summary ends before the question begins, and the length is 374
   * characters more than the two inputs together.
   */
  function QuestionPrompt(summary: string, question: string): (r: string)
    ensures |r| == |summary| + |question| + 374
    ensures r[..|QuestionHead|] == QuestionHead
    ensures OccursAt(r, summary, |QuestionHead|)
    ensures OccursAt(r, question, |QuestionHead| + |summary| + |QuestionMiddle|)
    ensures r[|QuestionHead| + |summary| + |QuestionMiddle| + |question|..] == QuestionTail
  {
    var a := QuestionHead + summary + QuestionMiddle;
    var r := a + question + QuestionTail;
    assert r[..|QuestionHead|] == QuestionHead;
    assert r[|QuestionHead|..|QuestionHead| + |summary|] == summary;
    assert r[|a|..|a| + |question|] == question;
    assert r[|a| + |question|..] == QuestionTail;
    r
  }

  /** Whatever the inputs, the question prompt opens with a newline and then the "Using the dataset summary below" line. */
  lemma QuestionPromptOpening(summary: string, question: string)
    ensures OccursAt(QuestionPrompt(summary, question), QuestionOpening, 1)
  {
    var a := QuestionHead + summary + QuestionMiddle;
    assert OccursAt(QuestionHead, QuestionOpening, 1);
    OccursInLeft(QuestionHead, summary, QuestionOpening, 1);
    OccursInLeft(QuestionHead + summary, QuestionMiddle, QuestionOpening, 1);
    OccursInLeft(a, question, QuestionOpening, 1);
    OccursInLeft(a + question, QuestionTail, QuestionOpening, 1);
  }

  /** Whatever the inputs, the question prompt ends with "Do not include technical explanations." and a newline. */
  lemma QuestionPromptClosing(summary: string, question: string)
    ensures var r := QuestionPrompt(summary, question); OccursAt(r, Ending, |r| - |Ending|)
  {
    var a := QuestionHead + summary + QuestionMiddle + question;
    assert OccursAt(Ending, Ending, 0);
    OccursInRight(Guidelines, Ending, Ending, 0);
    OccursInRight(a, QuestionTail, Ending, |Guidelines|);
  }

  /** Of two question prompts with equally long summaries, equal prompts mean equal summaries and equal questions. */
  lemma QuestionPromptInjective(s1: string, q1: string, s2: string, q2: string)
    requires |s1| == |s2|
    requires QuestionPrompt(s1, q1) == QuestionPrompt(s2, q2)
    ensures s1 == s2 && q1 == q2
  {
    var r := QuestionPrompt(s1, q1);
    assert r[|QuestionHead|..|QuestionHead| + |s1|] == s1;
    var p := |QuestionHead| + |s1| + |QuestionMiddle|;
    assert r[p..p + |q1|] == q1;
  }
}
