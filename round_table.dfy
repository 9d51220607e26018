/**
 * The simulation-mode round table of `round_table.py`: four fixed model responses, the class name
 * drawn from the task, the choice of consensus template, the discussion summary and the layout of
 * the printed result.
 *
 * The end of `round_table.py` rebinds `RoundTable` to the class of `roundtable_safe.py` whenever
 * that module imports, so the command line and the dashboard get the safe class (module
 * `RoundTableSafe`). This module is the class as written, which runs when that import fails.
 */
module RoundTableSim {
  import opened Outcomes
  import opened Text

  datatype AIModel = GPT | CLAUDE | GEMINI | GROK

  /** `model.value` */
  function ModelValue(m: AIModel): string
  {
    match m
    case GPT => "gpt"
    case CLAUDE => "claude"
    case GEMINI => "gemini"
    case GROK => "grok"
  }

  /** The focus area `model_configs` gives each model. */
  function Focus(m: AIModel): string
  {
    match m
    case GROK => "Architektur & Design"
    case CLAUDE => "Code-Qualität & Wartbarkeit"
    case GPT => "Best Practices & Dokumentation"
    case GEMINI => "Performance & Skalierbarkeit"
  }

  /** The recommendation the simulation puts in each model's mouth, written in short pieces, which
      the verifier handles much faster than one long literal. */
  function SimulatedRecommendation(m: AIModel): string
  {
    match m
    case GROK =>
      "Ich empfehle " + "einen " + "objektorientierten " + "Ansatz mit " + "klaren "
      + "Schnittstellen " + "und Dependency " + "Injection für " + "bessere " + "Testbarkeit."
    case CLAUDE =>
      "Fokus auf " + "Wartbarkeit: " + "Verwende Type " + "Hints, " + "Docstrings und "
      + "halte Funktionen " + "klein und " + "fokussiert. " + "SOLID-Prinzipien " + "beachten."
    case GPT =>
      "Nutze bewährte " + "Design Patterns, " + "dokumentiere " + "gründlich und "
      + "folge PEP 8 " + "Richtlinien. " + "Füge umfassende " + "Docstrings " + "hinzu."
    case GEMINI =>
      "Denke an " + "Skalierbarkeit: " + "Nutze " + "async/await für " + "I/O-Operationen, "
      + "implementiere " + "Caching und " + "optimiere " + "Datenstrukturen."
  }

  /** An `AIResponse` without its confidence and timestamp. */
  datatype AIResponse = AIResponse(model: AIModel, focusArea: string, recommendation: string)

  /** The order in which the simulation lets the models speak. */
  const DiscussionOrder: seq<AIModel> := [GROK, CLAUDE, GPT, GEMINI]

  /** The response the simulation gives for a model. */
  function SimulatedResponse(m: AIModel): AIResponse
  {
    AIResponse(m, Focus(m), SimulatedRecommendation(m))
  }

  /** The four responses of the simulation: Grok, Claude, GPT and Gemini, in that order, each with
      its model's focus area and simulated recommendation. */
  predicate Simulated(responses: seq<AIResponse>)
  {
    && |responses| == 4
    && responses[0] == SimulatedResponse(GROK)
    && responses[1] == SimulatedResponse(CLAUDE)
    && responses[2] == SimulatedResponse(GPT)
    && responses[3] == SimulatedResponse(GEMINI)
  }

  /** `_simulate_discussion` */
  method SimulateDiscussion() returns (responses: seq<AIResponse>)
    ensures Simulated(responses)
  {
    responses := [];
    responses := responses + [AIResponse(GROK, Focus(GROK), SimulatedRecommendation(GROK))];
    responses := responses + [AIResponse(CLAUDE, Focus(CLAUDE), SimulatedRecommendation(CLAUDE))];
    responses := responses + [AIResponse(GPT, Focus(GPT), SimulatedRecommendation(GPT))];
    responses := responses + [AIResponse(GEMINI, Focus(GEMINI), SimulatedRecommendation(GEMINI))];
  }

  /** The models of `responses`, in order. */
  function Models(responses: seq<AIResponse>): seq<AIModel>
  {
    seq(|responses|, i requires 0 <= i < |responses| => responses[i].model)
  }

  /** In a simulated discussion the models speak in the order of `DiscussionOrder`, each with its
      own focus area, and every model speaks exactly once. */
  lemma SimulatedSpeakersOnce(responses: seq<AIResponse>)
    requires Simulated(responses)
    ensures Models(responses) == DiscussionOrder
    ensures forall i :: 0 <= i < |responses| ==> responses[i].focusArea == Focus(responses[i].model)
    ensures forall m: AIModel :: m in Models(responses)
    ensures forall i, j :: 0 <= i < j < |responses| ==> responses[i].model != responses[j].model
  {
    var models := Models(responses);
    assert models[0] == GROK && models[1] == CLAUDE && models[2] == GPT && models[3] == GEMINI;
    assert models == DiscussionOrder;
    EveryModelInOrder();
  }

  /** `DiscussionOrder` names every model exactly once. */
  lemma EveryModelInOrder()
    ensures forall m: AIModel :: m in DiscussionOrder
    ensures forall i, j :: 0 <= i < j < |DiscussionOrder| ==> DiscussionOrder[i] != DiscussionOrder[j]
  {
    forall m: AIModel
      ensures m in DiscussionOrder
    {
      var i := match m case GROK => 0 case CLAUDE => 1 case GPT => 2 case GEMINI => 3;
      assert DiscussionOrder[i] == m;
    }
  }

  // ----- Class name --------------------------------------------------------------------------------

  /** A word `_extract_class_name` keeps: alphabetic and longer than two characters. */
  predicate Qualifies(w: string) { IsAlpha(w) && |w| > 2 }

  /** No word of `words` qualifies. */
  predicate NoneQualifies(words: seq<string>) { forall j :: 0 <= j < |words| ==> !Qualifies(words[j]) }

  /** `[w.capitalize() for w in words if w.isalpha() and len(w) > 2]` */
  function CleanWords(words: seq<string>): (clean: seq<string>)
    ensures |clean| <= |words|
    ensures forall i :: 0 <= i < |clean| ==> IsAlpha(clean[i]) && |clean[i]| > 2
    ensures clean == [] <==> NoneQualifies(words)
  {
    if words == [] then []
    else
      var rest := CleanWords(words[1..]);
      assert forall j :: 1 <= j < |words| ==> words[j] == words[1..][j - 1];
      if Qualifies(words[0]) then
        CapitalizeAlpha(words[0]);
        [Capitalize(words[0])] + rest
      else rest
  }

  /** The class name's first word is the first qualifying one, capitalised. */
  lemma {:induction false} CleanWordsFirst(words: seq<string>, j: nat)
    requires j < |words| && Qualifies(words[j])
    requires forall i :: 0 <= i < j ==> !Qualifies(words[i])
    ensures CleanWords(words) != [] && CleanWords(words)[0] == Capitalize(words[j])
  {
    if j > 0 {
      CleanWordsFirst(words[1..], j - 1);
    }
  }

  /** `_extract_class_name` */
  function ExtractClassName(task: string): (name: string)
    ensures |name| >= 3 && IsAlpha(name)
  {
    var clean := CleanWords(Take(Words(task), 3));
    if clean == [] then "GeneratedModule"
    else
      ConcatAlpha(clean);
      var joined := Concat(clean);
      if joined != "" then joined else "GeneratedModule"
  }

  /** Only the first three words count: the name is "GeneratedModule" when none of them is an
      alphabetic word of three or more letters, and otherwise begins with the first such word,
      capitalised. */
  lemma ClassNameFromFirstWords(task: string)
    ensures NoneQualifies(Take(Words(task), 3)) ==> ExtractClassName(task) == "GeneratedModule"
    ensures var first := Take(Words(task), 3);
      forall j :: 0 <= j < |first| && Qualifies(first[j]) && (forall i :: 0 <= i < j ==> !Qualifies(first[i]))
        ==> StartsWith(ExtractClassName(task), Capitalize(first[j]))
  {
    var first := Take(Words(task), 3);
    var clean := CleanWords(first);
    forall j | 0 <= j < |first| && Qualifies(first[j]) && (forall i :: 0 <= i < j ==> !Qualifies(first[i]))
      ensures StartsWith(ExtractClassName(task), Capitalize(first[j]))
    {
      CleanWordsFirst(first, j);
      ConcatAlpha(clean);
      assert ExtractClassName(task) == Concat(clean);
    }
  }

  // ----- Consensus -------------------------------------------------------------------------------

  /** Which consensus template `_build_consensus` fills, with the values it fills in. The template
      texts are not part of this model. */
  datatype Consensus =
    | PythonModule(className: string, task: string, digests: seq<string>)
    | TypeScriptModule(className: string, task: string)
    | JavaScriptModule(className: string, task: string)
    | GenericClass(className: string, task: string, languageLabel: string)

  /** `_generate_js_consensus`: the TypeScript variant exactly for "typescript". */
  function ScriptConsensus(className: string, task: string, language: string): (c: Consensus)
    ensures c.TypeScriptModule? <==> language == "typescript"
    ensures c.TypeScriptModule? || c.JavaScriptModule?
  {
    if language == "typescript" then TypeScriptModule(className, task) else JavaScriptModule(className, task)
  }

  /** `_build_consensus`, with `context or {}` as `context`. The Python template reads the first
      sixty characters of the first four recommendations; with fewer responses it raises an
      `IndexError`. */
  function BuildConsensus(task: string, responses: seq<AIResponse>, context: map<string, string>)
    : Result<Consensus, string>
  {
    var language := GetOr(context, "language", "python");
    var className := ExtractClassName(task);
    if language == "python" then
      if |responses| < 4 then Failure("IndexError: list index out of range")
      else Success(PythonModule(className, task,
                                [Take(responses[0].recommendation, 60), Take(responses[1].recommendation, 60),
                                 Take(responses[2].recommendation, 60), Take(responses[3].recommendation, 60)]))
    else if language in {"javascript", "typescript"} then
      Success(ScriptConsensus(className, task, GetOr(context, "language", "javascript")))
    else
      Success(GenericClass(className, task, GetOr(context, "language", "unknown")))
  }

  /** The template follows the context's language, Python when it has none: the Python module (when
      there are four responses) with each digest a prefix of at most sixty characters of that
      response; the TypeScript module exactly for "typescript" and the JavaScript one for
      "javascript"; for every other language the generic class, labelled with that language and
      never "unknown" by default. The class name is always the task's. */
  lemma ConsensusDispatch(task: string, responses: seq<AIResponse>, context: map<string, string>)
    ensures var r := BuildConsensus(task, responses, context);
      var language := GetOr(context, "language", "python");
      && (r.Failure? <==> language == "python" && |responses| < 4)
      && (r.Success? ==> r.value.className == ExtractClassName(task) && r.value.task == task)
      && (r.Success? ==> (r.value.PythonModule? <==> language == "python"))
      && (r.Success? && r.value.PythonModule? ==>
            |r.value.digests| == 4
            && forall i :: 0 <= i < 4 ==>
                 |r.value.digests[i]| <= 60 && StartsWith(responses[i].recommendation, r.value.digests[i]))
      && (r.Success? ==> (r.value.TypeScriptModule? <==> language == "typescript"))
      && (r.Success? ==> (r.value.JavaScriptModule? <==> language == "javascript"))
      && (r.Success? && r.value.GenericClass? ==>
            "language" in context && r.value.languageLabel == context["language"]
            && r.value.languageLabel !in {"python", "javascript", "typescript"})
  {
    var r := BuildConsensus(task, responses, context);
    if r.Success? && r.value.PythonModule? {
      forall i | 0 <= i < 4
        ensures |r.value.digests[i]| <= 60 && StartsWith(responses[i].recommendation, r.value.digests[i])
      {
        assert r.value.digests[i] == Take(responses[i].recommendation, 60);
      }
    }
  }

  /** After a simulated discussion the Python template never fails, and its digests come from
      Grok, Claude, GPT and Gemini in that order. */
  lemma SimulatedConsensus(task: string, responses: seq<AIResponse>, context: map<string, string>)
    requires Simulated(responses)
    requires GetOr(context, "language", "python") == "python"
    ensures BuildConsensus(task, responses, context)
         == Success(PythonModule(ExtractClassName(task), task,
                                 [Take(SimulatedRecommendation(GROK), 60), Take(SimulatedRecommendation(CLAUDE), 60),
                                  Take(SimulatedRecommendation(GPT), 60), Take(SimulatedRecommendation(GEMINI), 60)]))
  {
  }

  // ----- Summary ---------------------------------------------------------------------------------

  const SummaryHeader := "\U{1f916} " + "ZUSAMMENFASSUNG " + "DER RUNDEN " + "TISCH " + "DISKUSSION\n\n"

  /** `model.value.upper()`, as `ModelLabelIsUpper` shows. */
  function ModelLabel(m: AIModel): string
  {
    match m
    case GPT => "GPT"
    case CLAUDE => "CLAUDE"
    case GEMINI => "GEMINI"
    case GROK => "GROK"
  }

  /** The summary's name of a model is `model.value.upper()`. */
  lemma ModelLabelIsUpper(m: AIModel)
    ensures ModelLabel(m) == Upper(ModelValue(m))
  {
  }

  /** The heading line `_create_summary` writes for a response. */
  function BlockHeading(r: AIResponse): string { ModelLabel(r.model) + " (" + r.focusArea + "):\n" }

  /** The indented recommendation and the empty line after it. */
  function BlockBody(r: AIResponse): string { "  " + r.recommendation + "\n\n" }

  /** The summary of `responses`: the header, then per response its heading line and its body. */
  function Summary(responses: seq<AIResponse>): string
  {
    if responses == [] then SummaryHeader
    else
      var last := responses[|responses| - 1];
      Summary(responses[..|responses| - 1]) + BlockHeading(last) + BlockBody(last)
  }

  /** `_create_summary` */
  method CreateSummary(responses: seq<AIResponse>) returns (summary: string)
    ensures summary == Summary(responses)
  {
    summary := SummaryHeader;
    for i := 0 to |responses|
      invariant summary == Summary(responses[..i])
    {
      assert responses[..i + 1][..i] == responses[..i];
      ModelLabelIsUpper(responses[i].model);
      summary := summary + (Upper(ModelValue(responses[i].model)) + " (" + responses[i].focusArea + "):\n");
      summary := summary + ("  " + responses[i].recommendation + "\n\n");
    }
    assert responses[..|responses|] == responses;
  }

  /** The summary of the first `n` responses begins the summary of all of them, so the blocks follow
      the order of the responses, after the header. */
  lemma {:induction false} SummaryInOrder(responses: seq<AIResponse>, n: nat)
    requires n <= |responses|
    ensures StartsWith(Summary(responses), Summary(responses[..n]))
    ensures StartsWith(Summary(responses), SummaryHeader)
    decreases |responses|
  {
    if responses == [] {
      assert responses[..n] == responses;
    } else if n == |responses| {
      assert responses[..n] == responses;
      SummaryInOrder(responses[..|responses| - 1], 0);
    } else {
      var front := responses[..|responses| - 1];
      SummaryInOrder(front, n);
      assert front[..n] == responses[..n];
    }
  }

  // ----- Result layout ---------------------------------------------------------------------------

  /** A `RoundTableResult` without its timestamp, which `format_result` receives already formatted
      as `%Y-%m-%d %H:%M:%S`. */
  datatype RoundTableResult = RoundTableResult(
    task: string,
    consensusCode: string,
    individualResponses: seq<AIResponse>,
    finalRecommendation: string,
    discussionSummary: string)

  /** `'=' * 70` */
  const Rule := "=========="  + "==========" + "==========" + "==========" + "==========" + "=========="
                + "=========="

  const ResultTitle := "\U{1f916} RUNDER " + "TISCH ERGEBNIS"
  const TaskLabel := "\U{1f4cb} Aufgabe: "
  const StampLabel := "\U{23f0} Zeitstempel: "
  const SummaryTitle := "\U{1f4a1} DISKUSSIONS-" + "ZUSAMMENFASSUNG"
  const CodeTitle := "\U{1f4dd} GENERIERTER " + "KONSENS-CODE"

  /** A title between two rules, each on its own line. */
  function Banner(title: string): string { Rule + "\n" + title + "\n" + Rule + "\n" }

  /** `format_result`, with the timestamp already formatted: the output is cut after the task
      label, the summary title and the code title. */
  function FormatResult(r: RoundTableResult, stamp: string): string
  {
    Opening() + TaskLabel + AfterTaskLabel(r, stamp)
  }

  /** The text before the task label: an empty line and the title banner. */
  function Opening(): string { "\n" + Banner(ResultTitle) + "\n" }

  function AfterTaskLabel(r: RoundTableResult, stamp: string): string
  {
    TaskLines(r, stamp) + SummaryTitle + AfterSummaryTitle(r)
  }

  /** The task, the timestamp line, an empty line and the rule above the summary title. */
  function TaskLines(r: RoundTableResult, stamp: string): string
  {
    r.task + "\n" + StampLines(stamp)
  }

  function StampLines(stamp: string): string
  {
    StampLabel + stamp + "\n\n" + Rule + "\n"
  }

  function AfterSummaryTitle(r: RoundTableResult): string
  {
    SummaryLines(r) + CodeTitle + AfterCodeTitle(r)
  }

  /** The rule below the summary title, the summary, and the rule above the code title. */
  function SummaryLines(r: RoundTableResult): string
  {
    "\n" + Rule + "\n\n" + r.discussionSummary + "\n\n" + Rule + "\n"
  }

  /** The rule below the code title, the code, and the final recommendation between two rules. */
  function AfterCodeTitle(r: RoundTableResult): string
  {
    "\n" + Rule + "\n\n" + r.consensusCode + "\n\n" + Rule + "\n" + r.finalRecommendation + "\n" + Rule + "\n"
  }

  lemma NotInRule(c: char)
    requires c != '='
    ensures c !in Rule
  {
  }

  /** A character that is neither '=' nor a line break, nor in the result title, is not in
      the text before the task label. */
  lemma NotInOpening(c: char)
    requires c != '=' && c != '\n' && c !in ResultTitle
    ensures c !in Opening()
  {
    NotInRule(c);
  }

  lemma NotInTaskLines(c: char, r: RoundTableResult, stamp: string)
    requires c != '=' && c != '\n' && c !in StampLabel && c !in r.task && c !in stamp
    ensures c !in TaskLines(r, stamp)
  {
    NotInRule(c);
  }

  lemma NotInSummaryLines(c: char, r: RoundTableResult)
    requires c != '=' && c != '\n' && c !in r.discussionSummary
    ensures c !in SummaryLines(r)
  {
    NotInRule(c);
  }

  /** The task is found again after the first task label, up to the end of its line, when it is
      a single line. */
  lemma FormatResultTask(r: RoundTableResult, stamp: string)
    requires '\n' !in r.task
    ensures var after := AfterFirst(FormatResult(r, stamp), TaskLabel);
      after.Some? && BeforeFirst(after.value, '\n') == r.task
  {
    NotInOpening(TaskLabel[0]);
    AfterFirstAt(Opening(), TaskLabel, AfterTaskLabel(r, stamp));
    var tail := StampLines(stamp) + SummaryTitle + AfterSummaryTitle(r);
    Regroup(r.task, "\n", StampLines(stamp), SummaryTitle, AfterSummaryTitle(r));
    BeforeFirstOf(r.task, '\n', tail);
  }

  /** The summary lines follow the first summary title, when neither the task nor the
      timestamp holds that title's first character. */
  lemma FormatResultSummary(r: RoundTableResult, stamp: string)
    requires SummaryTitle[0] !in r.task && SummaryTitle[0] !in stamp
    ensures AfterFirst(FormatResult(r, stamp), SummaryTitle) == Some(AfterSummaryTitle(r))
  {
    var c := SummaryTitle[0];
    NotInOpening(c);
    NotInTaskLines(c, r, stamp);
    Regroup(Opening(), TaskLabel, TaskLines(r, stamp), SummaryTitle, AfterSummaryTitle(r));
    AfterFirstAt(Opening() + TaskLabel + TaskLines(r, stamp), SummaryTitle, AfterSummaryTitle(r));
  }

  /** The code lines follow the first code title, when neither the task, the timestamp nor the
      summary holds that title's first character. */
  lemma FormatResultCode(r: RoundTableResult, stamp: string)
    requires CodeTitle[0] !in r.task && CodeTitle[0] !in stamp && CodeTitle[0] !in r.discussionSummary
    ensures AfterFirst(FormatResult(r, stamp), CodeTitle) == Some(AfterCodeTitle(r))
  {
    var c := CodeTitle[0];
    NotInOpening(c);
    NotInTaskLines(c, r, stamp);
    NotInSummaryLines(c, r);
    var front := Opening() + TaskLabel + TaskLines(r, stamp);
    Regroup(Opening(), TaskLabel, TaskLines(r, stamp), SummaryTitle, AfterSummaryTitle(r));
    Regroup(front, SummaryTitle, SummaryLines(r), CodeTitle, AfterCodeTitle(r));
    AfterFirstAt(front + SummaryTitle + SummaryLines(r), CodeTitle, AfterCodeTitle(r));
  }

  /** The code lines hold the consensus code, and the final recommendation closes the output
      between two rules. */
  lemma CodeLinesHold(r: RoundTableResult)
    ensures StartsWith(AfterCodeTitle(r), "\n" + Rule + "\n\n" + r.consensusCode + "\n\n")
    ensures EndsWith(AfterCodeTitle(r), Rule + "\n" + r.finalRecommendation + "\n" + Rule + "\n")
  {
    var front := "\n" + Rule + "\n\n" + r.consensusCode + "\n\n";
    var tail := Rule + "\n" + r.finalRecommendation + "\n" + Rule + "\n";
    assert AfterCodeTitle(r) == front + tail;
  }
}
