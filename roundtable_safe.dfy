/**
 * The safe round table: four agents answering one after another, each on the previous answer,
 * and a loader that admits the code the Tech agent proposes only when it is one plain function
 * definition whose every call goes to the bare name `print`.
 *
 * Parsing (`ast.parse`) and defining the function (`compile` + `exec`) are parameters: a total
 * function that yields the module body or the syntax error's text, and one that yields the
 * local namespace or the exception's text. A Python object is seen only through `bool()` and
 * `callable()`.
 */
module RoundTableSafe {
  import opened Outcomes
  import opened Text
  import opened OrderedDict
  import PyAst

  // ----- The extension loader ---------------------------------------------------------------

  /** Why the loader refused a snippet; `Message` gives the text the loader returns. */
  datatype Rejection =
    | SyntaxInvalid(detail: string)
    | StructureInvalid
    | ForbiddenNode(kind: PyAst.Kind)
    | ForbiddenCall(callee: string)
    | IndirectCall
    | ExecutionFailed(detail: string)
    | NotFound

  function Message(r: Rejection): string
  {
    match r
    case SyntaxInvalid(detail) => "SyntaxError: " + detail
    case StructureInvalid => "Code muss genau eine FunctionDef enthalten."
    case ForbiddenNode(kind) => "Verbotener AST-Knoten: " + PyAst.ClassName(kind)
    case ForbiddenCall(callee) => "Nur print() erlaubt, gefunden: " + callee
    case IndirectCall => "Nur direkte Funktionsnamen-Aufrufe (z.B. print()) erlaubt."
    case ExecutionFailed(detail) => "Fehler beim Ausführen: " + detail
    case NotFound => "Funktion nicht gefunden nach Ausführung."
  }

  /** The node classes refused wherever they occur in the definition. */
  const Banned: set<PyAst.Kind> := {
    PyAst.Import, PyAst.ImportFrom, PyAst.Attribute, PyAst.Subscript, PyAst.Assign,
    PyAst.AugAssign, PyAst.Global, PyAst.Nonlocal, PyAst.ClassDef, PyAst.Lambda,
    PyAst.AsyncFunctionDef, PyAst.While, PyAst.For, PyAst.Try, PyAst.With, PyAst.Raise,
    PyAst.Delete, PyAst.ListComp, PyAst.SetComp, PyAst.DictComp, PyAst.GeneratorExp
  }

  /** The test applied to one visited node: its class first, then, for a call, its callee. */
  function Verdict(n: PyAst.Node): Option<Rejection>
  {
    match n
    case Node(kind, _) => if kind in Banned then Some(ForbiddenNode(kind)) else None
    case Call(callee, _) =>
      if !callee.Name? then Some(IndirectCall)
      else if callee.id != "print" then Some(ForbiddenCall(callee.id))
      else None
    case _ => None
  }

  /** The first refusal among `nodes`, in order. */
  function FirstRejection(nodes: seq<PyAst.Node>): (r: Option<Rejection>)
    ensures r.None? <==> forall i :: 0 <= i < |nodes| ==> Verdict(nodes[i]).None?
    ensures r.Some? ==> exists i :: 0 <= i < |nodes| && Verdict(nodes[i]) == r
                                    && forall j :: 0 <= j < i ==> Verdict(nodes[j]).None?
  {
    if nodes == [] then None
    else if Verdict(nodes[0]).Some? then Verdict(nodes[0])
    else
      var r := FirstRejection(nodes[1..]);
      if r.Some? then
        var i :| 0 <= i < |nodes| - 1 && Verdict(nodes[1..][i]) == r
                 && forall j :: 0 <= j < i ==> Verdict(nodes[1..][j]).None?;
        assert Verdict(nodes[i + 1]) == r;
        assert forall j :: 0 <= j < i + 1 ==> Verdict(nodes[j]).None? by {
          forall j | 0 <= j < i + 1 ensures Verdict(nodes[j]).None? {
            if j > 0 {
              assert nodes[j] == nodes[1..][j - 1];
            }
          }
        }
        r
      else
        r
  }

  /** Every node of the definition's tree passes the node test. */
  ghost predicate Admissible(def: PyAst.Node)
  {
    forall m :: m in PyAst.Nodes(def) ==> Verdict(m).None?
  }

  /** `rejection` names something that really is in the tree of `def`. */
  ghost predicate Witnessed(def: PyAst.Node, rejection: Rejection)
  {
    match rejection
    case ForbiddenNode(kind) =>
      kind in Banned && exists m :: m in PyAst.Nodes(def) && m.Node? && m.kind == kind
    case ForbiddenCall(callee) =>
      callee != "print"
      && exists m :: m in PyAst.Nodes(def) && m.Call? && m.callee == PyAst.Name(callee)
    case IndirectCall => exists m :: m in PyAst.Nodes(def) && m.Call? && !m.callee.Name?
    case _ => false
  }

  /**
   * The loop over `ast.walk(func_def)`: the walk's queue is kept explicitly; a node's children
   * are queued before the node itself is tested, and the first refusal ends the loop.
   */
  method CheckWalk(def: PyAst.Node) returns (r: Option<Rejection>)
    ensures r == FirstRejection(PyAst.Walk(def))
  {
    var queue := [def];
    while queue != []
      invariant FirstRejection(PyAst.Bfs(queue)) == FirstRejection(PyAst.Walk(def))
      decreases PyAst.SizeAll(queue)
    {
      var node := queue[0];
      var rest := queue[1..] + PyAst.Children(node);
      PyAst.ChildrenMeasure(node);
      PyAst.SizeAllAppend(queue[1..], PyAst.Children(node));
      var visited := PyAst.Bfs(queue);
      assert visited == [node] + PyAst.Bfs(rest);
      assert visited[0] == node && visited[1..] == PyAst.Bfs(rest);
      queue := rest;
      var verdict := Verdict(node);
      if verdict.Some? {
        return verdict;
      }
    }
    return None;
  }

  /** The walk refuses nothing exactly when every node of the tree passes. */
  lemma WalkFindsEveryRejection(def: PyAst.Node)
    ensures FirstRejection(PyAst.Walk(def)).None? <==> Admissible(def)
  {
    var walk := PyAst.Walk(def);
    PyAst.WalkVisitsTree(def);
    forall m | m in PyAst.Nodes(def)
      ensures exists i :: 0 <= i < |walk| && walk[i] == m
    {
      assert m in multiset(walk);
      assert m in walk;
    }
    forall i | 0 <= i < |walk|
      ensures walk[i] in PyAst.Nodes(def)
    {
      assert walk[i] in multiset(walk);
    }
  }

  /** Whatever the walk refuses is in the tree, with the kind or callee its message names. */
  lemma RejectionIsWitnessed(def: PyAst.Node)
    requires FirstRejection(PyAst.Walk(def)).Some?
    ensures Witnessed(def, FirstRejection(PyAst.Walk(def)).value)
  {
    var walk := PyAst.Walk(def);
    PyAst.WalkVisitsTree(def);
    var i :| 0 <= i < |walk| && Verdict(walk[i]) == FirstRejection(walk);
    var m := walk[i];
    assert m in multiset(walk);
    VerdictWitnessed(def, m);
  }

  lemma VerdictWitnessed(def: PyAst.Node, m: PyAst.Node)
    requires m in PyAst.Nodes(def) && Verdict(m).Some?
    ensures Witnessed(def, Verdict(m).value)
  {
  }

  /** A plain, callable Python object and its truth value, the two things the loader asks. */
  datatype PyValue = PyValue(truthy: bool, isCallable: bool)

  /** `ast.parse`: the module body, or the text of the syntax error. */
  type Parser = string -> Result<seq<PyAst.Node>, string>

  /** `exec(compile(body), SafeGlobals, {})`: the local namespace left behind, or the error text. */
  type Executor = seq<PyAst.Node> -> Result<map<string, PyValue>, string>

  /** The globals the function is defined under: an empty `__builtins__` dict and `print`. */
  const SafeGlobals: map<string, PyValue> :=
    map["__builtins__" := PyValue(false, false), "print" := PyValue(true, true)]

  /** `d.get(key)` on a namespace. */
  function Lookup(ns: map<string, PyValue>, key: string): Option<PyValue>
  {
    if key in ns then Some(ns[key]) else None
  }

  /** Python's `a or b`, with `None` for a missing entry. */
  function OrElse(a: Option<PyValue>, b: Option<PyValue>): Option<PyValue>
  {
    if a.Some? && a.value.truthy then a else b
  }

  /** The module body is exactly one plain (not `async`) function definition. */
  predicate IsSingleDef(body: seq<PyAst.Node>)
  {
    |body| == 1 && body[0].FunctionDef?
  }

  /** A function the loader admitted, under its definition's name. */
  datatype Loaded = Loaded(name: string, func: PyValue)

  /** What loading `snippet` comes to: the admitted function, or the first refusal. */
  function LoadResult(snippet: string, parse: Parser, exec: Executor): (r: Result<Loaded, Rejection>)
    ensures r.Success? ==> r.value.func.truthy && r.value.func.isCallable
  {
    match parse(snippet)
    case Failure(error) => Failure(SyntaxInvalid(error))
    case Success(body) =>
      if !IsSingleDef(body) then Failure(StructureInvalid)
      else
        var def := body[0];
        match FirstRejection(PyAst.Walk(def))
        case Some(rejection) => Failure(rejection)
        case None =>
          match exec(body)
          case Failure(error) => Failure(ExecutionFailed(error))
          case Success(localNs) =>
            var found := OrElse(Lookup(localNs, def.name), Lookup(SafeGlobals, def.name));
            if found.None? || !found.value.truthy || !found.value.isCallable then Failure(NotFound)
            else Success(Loaded(def.name, found.value))
  }

  /** An admitted snippet is one plain definition whose every node passes, loaded by its name. */
  lemma AdmittedIsCleanDefinition(snippet: string, parse: Parser, exec: Executor)
    requires LoadResult(snippet, parse, exec).Success?
    ensures parse(snippet).Success? && IsSingleDef(parse(snippet).value)
    ensures Admissible(parse(snippet).value[0])
    ensures LoadResult(snippet, parse, exec).value.name == parse(snippet).value[0].name
    ensures exec(parse(snippet).value).Success?
  {
    WalkFindsEveryRejection(parse(snippet).value[0]);
  }

  /** A node-stage refusal names a banned node, a non-`print` call or an indirect call that is
      really in the definition; the structure test comes before any node test. */
  lemma RefusalIsWitnessed(snippet: string, parse: Parser, exec: Executor)
    requires parse(snippet).Success? && IsSingleDef(parse(snippet).value)
    requires LoadResult(snippet, parse, exec).Failure?
    ensures var rejection := LoadResult(snippet, parse, exec).error;
      rejection.ForbiddenNode? || rejection.ForbiddenCall? || rejection.IndirectCall?
      ==> Witnessed(parse(snippet).value[0], rejection)
    ensures LoadResult(snippet, parse, exec).error != StructureInvalid
  {
    var def := parse(snippet).value[0];
    if FirstRejection(PyAst.Walk(def)).Some? {
      RejectionIsWitnessed(def);
    }
  }

  /** A banned node anywhere in the definition (body, decorators, defaults, annotations)
      gets it refused; when every call in it goes to `print`, the refusal names a banned kind. */
  lemma BannedNodeRefused(snippet: string, parse: Parser, exec: Executor, m: PyAst.Node)
    requires parse(snippet).Success? && IsSingleDef(parse(snippet).value)
    requires m in PyAst.Nodes(parse(snippet).value[0]) && m.Node? && m.kind in Banned
    ensures LoadResult(snippet, parse, exec).Failure?
    ensures (forall c :: c in PyAst.Nodes(parse(snippet).value[0]) && c.Call? ==> Verdict(c).None?)
      ==> LoadResult(snippet, parse, exec).error.ForbiddenNode?
          && LoadResult(snippet, parse, exec).error.kind in Banned
  {
    var def := parse(snippet).value[0];
    WalkFindsEveryRejection(def);
    assert Verdict(m).Some?;
    RejectionIsWitnessed(def);
  }

  /** A call to anything but the bare name `print` gets the definition refused; with no banned
      node present, the refusal is about a call. */
  lemma BadCallRefused(snippet: string, parse: Parser, exec: Executor, c: PyAst.Node)
    requires parse(snippet).Success? && IsSingleDef(parse(snippet).value)
    requires c in PyAst.Nodes(parse(snippet).value[0]) && c.Call?
    requires c.callee != PyAst.Name("print")
    ensures LoadResult(snippet, parse, exec).Failure?
    ensures (forall m :: m in PyAst.Nodes(parse(snippet).value[0]) && m.Node? ==> m.kind !in Banned)
      ==> (LoadResult(snippet, parse, exec).error.ForbiddenCall?
           && LoadResult(snippet, parse, exec).error.callee != "print")
          || LoadResult(snippet, parse, exec).error.IndirectCall?
  {
    var def := parse(snippet).value[0];
    WalkFindsEveryRejection(def);
    assert Verdict(c).Some?;
    RejectionIsWitnessed(def);
  }

  /** The banned tuple is a blacklist: a definition with no banned node and no call at all
      passes every node test and goes on to be executed; only exec or the name lookup after it
      can refuse it. */
  lemma CallFreeDefinitionReachesExec(snippet: string, parse: Parser, exec: Executor)
    requires parse(snippet).Success? && IsSingleDef(parse(snippet).value)
    requires forall m :: m in PyAst.Nodes(parse(snippet).value[0])
                         ==> !m.Call? && !(m.Node? && m.kind in Banned)
    ensures FirstRejection(PyAst.Walk(parse(snippet).value[0])).None?
    ensures LoadResult(snippet, parse, exec) != Failure(StructureInvalid)
    ensures LoadResult(snippet, parse, exec).Failure?
            ==> LoadResult(snippet, parse, exec).error.ExecutionFailed?
                || LoadResult(snippet, parse, exec).error == NotFound
    ensures exec(parse(snippet).value).Failure?
            ==> LoadResult(snippet, parse, exec)
                == Failure(ExecutionFailed(exec(parse(snippet).value).error))
  {
    WalkFindsEveryRejection(parse(snippet).value[0]);
  }

  /** The tree of `def f(): return 1`, and its nodes. */
  const ReturnConstant := PyAst.Node(PyAst.Constant, [])
  const ReturnStatement := PyAst.Node(PyAst.Return, [ReturnConstant])
  const NoArguments := PyAst.Node(PyAst.Arguments, [])
  const ReturnOnly := PyAst.FunctionDef("f", [NoArguments, ReturnStatement])

  /** `def f(): return 1` passes every node test. */
  lemma ReturnOnlyIsAdmissible()
    ensures FirstRejection(PyAst.Walk(ReturnOnly)).None?
  {
    ReturnOnlyWalk();
    assert Verdict(ReturnOnly).None? && Verdict(NoArguments).None?;
    assert Verdict(ReturnStatement).None? && Verdict(ReturnConstant).None?;
  }

  /** `ast.walk` visits the definition, its arguments, the return statement, the constant. */
  lemma ReturnOnlyWalk()
    ensures PyAst.Walk(ReturnOnly) == [ReturnOnly, NoArguments, ReturnStatement, ReturnConstant]
  {
    BfsStep([ReturnOnly], [NoArguments, ReturnStatement]);
    BfsStep([NoArguments, ReturnStatement], [ReturnStatement]);
    BfsStep([ReturnStatement], [ReturnConstant]);
    BfsStep([ReturnConstant], []);
  }

  /** One step of the walk: the front node, then the walk of the rest of the queue. */
  lemma BfsStep(queue: seq<PyAst.Node>, next: seq<PyAst.Node>)
    requires queue != [] && next == queue[1..] + PyAst.Children(queue[0])
    ensures PyAst.Bfs(queue) == [queue[0]] + PyAst.Bfs(next)
  {
  }

  // ----- The agents -------------------------------------------------------------------------

  datatype Agent = Agent(name: string, role: string)

  /** The four agents, in the order they speak. */
  const DefaultAgents: seq<Agent> := [
    Agent("Analysis-KI", "analysis"), Agent("Kreativ-KI", "creative"),
    Agent("Tech-KI", "tech"), Agent("Security-KI", "security")
  ]

  const ExtensionMarker := "Generating code extension:"

  /** The function the Tech agent proposes, its input in a single-quoted literal with every
      single quote backslash-escaped. */
  function ExtensionSnippet(x: string): string
  {
    "def mitigate_weakness(self):\n" + "    print('Mitigating " + ReplaceChar(x, '\'', "\\'")
    + " with self-optimization extension.')\n"
  }

  /** `Agent.respond`: a fixed sentence per role around the input. */
  function Respond(agent: Agent, x: string): string
  {
    if agent.role == "analysis" then
      "Analysis Agent: Identified weakness - " + x
      + ". Potential threats: Regulatory hurdles, competition."
    else if agent.role == "creative" then
      "Creative Agent: Suggest solution - Integrate self-optimization to mitigate " + x + "."
    else if agent.role == "tech" then
      "Tech Agent: " + ExtensionMarker + " " + ExtensionSnippet(x)
    else if agent.role == "security" then
      "Security Agent: Reviewed code for " + x + " - Secure and compliant."
    else
      agent.name + ": No response."
  }

  /** The code `discuss` takes from a Tech response: what follows the first marker, stripped. */
  function ProposedCode(techResponse: string): Option<string>
  {
    match AfterFirst(techResponse, ExtensionMarker)
    case None => None
    case Some(rest) => Some(Strip(rest))
  }

  /** Whatever the input, the code taken from the Tech agent's response is its snippet without
      the final newline: the marker is found right after the fixed prefix. */
  lemma TechResponseYieldsSnippet(agent: Agent, x: string)
    requires agent.role == "tech"
    ensures var snippet := ExtensionSnippet(x);
      ProposedCode(Respond(agent, x)) == Some(snippet[..|snippet| - 1])
  {
    var snippet := ExtensionSnippet(x);
    var prefix := "Tech Agent: ";
    var rest := " " + snippet;
    assert Respond(agent, x) == prefix + ExtensionMarker + rest;
    MarkerAfterPrefix(prefix, rest);
    assert (prefix + ExtensionMarker + rest)[|prefix| + |ExtensionMarker|..] == rest;
    StripSnippet(x);
  }

  lemma MarkerAfterPrefix(prefix: string, rest: string)
    requires prefix == "Tech Agent: "
    ensures FindFirst(prefix + ExtensionMarker + rest, ExtensionMarker) == Some(|prefix|)
  {
    assert ExtensionMarker[0] == 'G';
    assert 'G' !in prefix;
    FindFirstAfter(prefix, ExtensionMarker, rest);
  }

  /** Stripping the text after the marker leaves the snippet without its final newline. */
  lemma StripSnippet(x: string)
    ensures var snippet := ExtensionSnippet(x);
      Strip(" " + snippet) == snippet[..|snippet| - 1]
  {
    var head := "def mitigate_weakness(self):\n";
    var tail := " with self-optimization extension.')\n";
    var snippet := ExtensionSnippet(x);
    assert snippet == head + ("    print('Mitigating " + ReplaceChar(x, '\'', "\\'")) + tail;
    assert snippet[0] == head[0] == 'd';
    assert snippet[|snippet| - 1] == tail[|tail| - 1] == '\n';
    assert snippet[|snippet| - 2] == tail[|tail| - 2] == ')';
    StripAround(snippet);
  }

  /** A space before a text and a newline at its end are what stripping removes, when the text
      itself starts and ends (before the newline) with something else. */
  lemma StripAround(s: string)
    requires |s| >= 2 && !IsSpace(s[0]) && s[|s| - 1] == '\n' && !IsSpace(s[|s| - 2])
    ensures Strip(" " + s) == s[..|s| - 1]
  {
    SpaceCut(s);
    NewlineCut(s);
  }

  lemma SpaceCut(s: string)
    requires s != [] && !IsSpace(s[0])
    ensures TrimStart(" " + s) == s
  {
    assert (" " + s)[1..] == s;
  }

  lemma NewlineCut(s: string)
    requires |s| >= 2 && s[|s| - 1] == '\n' && !IsSpace(s[|s| - 2])
    ensures TrimEnd(s) == s[..|s| - 1]
  {
    var body := s[..|s| - 1];
    assert body[|body| - 1] == s[|s| - 2];
    assert TrimEnd(body) == body;
  }

  /** What `agents` say when each answers, by `respond`, what the agent before it said and
      the first answers `input`. */
  function ChainWith(respond: (Agent, string) -> string, agents: seq<Agent>, input: string)
    : (responses: seq<string>)
    ensures |responses| == |agents|
  {
    if agents == [] then []
    else
      var earlier := ChainWith(respond, agents[..|agents| - 1], input);
      var heard := if earlier == [] then input else earlier[|earlier| - 1];
      earlier + [respond(agents[|agents| - 1], heard)]
  }

  /** The responses of the agents in `discuss`, each to the previous one's response. */
  function Chain(agents: seq<Agent>, input: string): seq<string>
  {
    ChainWith(Respond, agents, input)
  }

  /** Each agent answers exactly what the agent before it said; the first answers the input. */
  lemma {:induction false} ChainFeedsPrevious(respond: (Agent, string) -> string, agents: seq<Agent>,
                                              input: string)
    ensures |agents| > 0 ==> ChainWith(respond, agents, input)[0] == respond(agents[0], input)
    ensures forall i :: 0 < i < |agents| ==>
      ChainWith(respond, agents, input)[i]
      == respond(agents[i], ChainWith(respond, agents, input)[i - 1])
  {
    if agents != [] {
      var n := |agents|;
      var front := agents[..n - 1];
      var earlier := ChainWith(respond, front, input);
      var all := ChainWith(respond, agents, input);
      assert all[..n - 1] == earlier;
      ChainFeedsPrevious(respond, front, input);
      if n > 1 {
        assert all[0] == earlier[0];
        assert agents[0] == front[0];
      }
      forall i | 0 < i < n
        ensures all[i] == respond(agents[i], all[i - 1])
      {
        if i < n - 1 {
          assert all[i] == earlier[i] && all[i - 1] == earlier[i - 1];
          assert agents[i] == front[i];
        }
      }
    }
  }

  /** For the four default agents the Tech agent hears the Creative agent's answer to the
      Analysis agent's answer to the prompt. */
  lemma DefaultChain(input: string)
    ensures var responses := Chain(DefaultAgents, input);
      responses[0] == Respond(DefaultAgents[0], input)
      && responses[1] == Respond(DefaultAgents[1], responses[0])
      && responses[2] == Respond(DefaultAgents[2], responses[1])
      && responses[3] == Respond(DefaultAgents[3], responses[2])
  {
    ChainFeedsPrevious(Respond, DefaultAgents, input);
  }

  function Names(agents: seq<Agent>): seq<string>
  {
    seq(|agents|, i requires 0 <= i < |agents| => agents[i].name)
  }

  /** A `context` dict entry as `str(dict)` shows it: the key's and the value's `repr`. */
  datatype ContextItem = ContextItem(keyRepr: string, valueRepr: string)

  /** `str(d)` for a dict. */
  function DictRepr(items: seq<ContextItem>): string
  {
    "{" + Join(seq(|items|, i requires 0 <= i < |items| => items[i].keyRepr + ": " + items[i].valueRepr), ", ")
    + "}"
  }

  /** The first agent's input: the task, followed by the context when one is given. */
  function Prompt(task: string, context: Option<seq<ContextItem>>): (prompt: string)
    ensures StartsWith(prompt, task)
    ensures prompt == task <==> context.None? || context.value == []
  {
    if context.Some? && context.value != [] then task + " | context: " + DictRepr(context.value)
    else task
  }

  datatype IndividualResponse = IndividualResponse(modelValue: string, recommendation: string)

  /** What `discuss` returns; the raw responses keep the dict's insertion order. */
  datatype Discussion = Discussion(
    consensusCode: string,
    individualResponses: seq<IndividualResponse>,
    rawResponses: seq<Entry<string, string>>)

  function ResponseLine(r: IndividualResponse): string
  {
    "  • " + Upper(r.modelValue) + ": " + r.recommendation
  }

  const SummaryTitle := "RoundTable Zusammenfassung:"
  const CodeHeading := "- Consensus Code (falls vorhanden):"
  const NoConsensus := "<kein consensus code>"
  const AnswersHeading := "- Einzelantworten:"

  /** `RoundTable.format_result`: the fixed header lines, the consensus code or a placeholder,
      then one line per individual response, joined by newlines. */
  function FormatResult(d: Discussion): string
  {
    var code := if d.consensusCode == "" then NoConsensus else d.consensusCode;
    var lines := seq(|d.individualResponses|, i requires 0 <= i < |d.individualResponses| =>
                       ResponseLine(d.individualResponses[i]));
    Join([SummaryTitle, CodeHeading, code, AnswersHeading] + lines, "\n")
  }

  /** The summary is the two header lines, the consensus code (never empty), the answers
      heading, and then a newline-led line per response, in the order of the responses. */
  lemma FormatResultLayout(d: Discussion)
    ensures var code := if d.consensusCode == "" then NoConsensus else d.consensusCode;
      FormatResult(d)
      == SummaryTitle + "\n" + CodeHeading + "\n" + code + "\n" + AnswersHeading
         + Concat(seq(|d.individualResponses|, i requires 0 <= i < |d.individualResponses| =>
                        "\n" + ResponseLine(d.individualResponses[i])))
  {
    var code := if d.consensusCode == "" then NoConsensus else d.consensusCode;
    var lines := seq(|d.individualResponses|, i requires 0 <= i < |d.individualResponses| =>
                       ResponseLine(d.individualResponses[i]));
    JoinAfterFour(SummaryTitle, CodeHeading, code, AnswersHeading, lines, "\n");
    assert seq(|lines|, i requires 0 <= i < |lines| => "\n" + lines[i])
        == seq(|d.individualResponses|, i requires 0 <= i < |d.individualResponses| =>
                 "\n" + ResponseLine(d.individualResponses[i]));
  }

  lemma JoinAfterFour(a: string, b: string, c: string, e: string, lines: seq<string>, sep: string)
    ensures Join([a, b, c, e] + lines, sep)
         == a + sep + b + sep + c + sep + e
            + Concat(seq(|lines|, i requires 0 <= i < |lines| => sep + lines[i]))
  {
    var s3 := [e] + lines;
    var s2 := [c] + s3;
    var s1 := [b] + s2;
    assert [a, b, c, e] + lines == [a] + s1;
    assert ([a] + s1)[1..] == s1 && s1[1..] == s2 && s2[1..] == s3;
    var t := Concat(seq(|lines|, i requires 0 <= i < |lines| => sep + lines[i]));
    JoinAsConcat(e, lines, sep);
    assert Join(s3, sep) == e + t;
    assert Join(s2, sep) == c + sep + Join(s3, sep);
    assert Join(s1, sep) == b + sep + Join(s2, sep);
    assert Join([a] + s1, sep) == a + sep + Join(s1, sep);
    Nest(a, sep, b, c, e, t);
  }

  lemma Nest(a: string, n: string, b: string, c: string, e: string, t: string)
    ensures a + n + (b + n + (c + n + (e + t))) == a + n + b + n + c + n + e + t
  {
  }

  /** `responses` holds, for each of `agents` and nothing else, that agent's entry of `said`. */
  ghost predicate Recorded(responses: seq<Entry<string, string>>, agents: seq<Agent>, said: seq<string>)
  {
    |agents| <= |said|
    && Keys(responses) == Names(agents)
    && forall j :: 0 <= j < |agents| ==> Get(responses, agents[j].name) == Some(said[j])
  }

  /** `individual` has one response per agent, in order, with the agent's role as its model
      value and what the agent said as its recommendation. */
  ghost predicate Attributed(individual: seq<IndividualResponse>, agents: seq<Agent>, said: seq<string>)
  {
    |individual| == |agents| <= |said|
    && forall j :: 0 <= j < |agents| ==> individual[j] == IndividualResponse(agents[j].role, said[j])
  }

  /** With distinct names, recording the next agent's answer keeps every earlier answer. */
  lemma RecordNext(responses: seq<Entry<string, string>>, agents: seq<Agent>, said: seq<string>, i: nat)
    requires i < |agents| <= |said| && NoDuplicates(Names(agents))
    requires Recorded(responses, agents[..i], said)
    ensures Recorded(Put(responses, agents[i].name, said[i]), agents[..i + 1], said)
  {
    var name := agents[i].name;
    var front := agents[..i + 1];
    assert Names(agents[..i]) == Names(agents)[..i];
    assert name == Names(agents)[i];
    assert name !in Names(agents[..i]);
    assert Names(front) == Names(agents[..i]) + [name];
    PutKeys(responses, name, said[i]);
    KeepEarlier(responses, agents, said, i);
  }

  /** Recording the next agent's answer, under a name not used before, keeps every earlier
      answer and adds the new one. */
  lemma KeepEarlier(responses: seq<Entry<string, string>>, agents: seq<Agent>, said: seq<string>, i: nat)
    requires i < |agents| <= |said| && NoDuplicates(Names(agents))
    requires Recorded(responses, agents[..i], said)
    ensures forall j :: 0 <= j <= i ==> Get(Put(responses, agents[i].name, said[i]), agents[j].name) == Some(said[j])
  {
    var name := agents[i].name;
    PutGet(responses, name, said[i]);
    forall j | 0 <= j < i
      ensures Get(Put(responses, name, said[i]), agents[j].name) == Some(said[j])
    {
      assert agents[..i][j] == agents[j];
      assert Names(agents)[j] == agents[j].name && Names(agents)[i] == name;
    }
  }

  lemma RecordedLookup(responses: seq<Entry<string, string>>, agents: seq<Agent>,
                       said: seq<string>, k: nat)
    requires Recorded(responses, agents, said) && k < |agents|
    ensures ValueOr(responses, agents[k].name, "") == said[k]
  {
  }

  lemma ChainStep(agents: seq<Agent>, input: string, i: nat)
    requires i < |agents|
    ensures Chain(agents, input)[i]
            == Respond(agents[i], if i == 0 then input else Chain(agents, input)[i - 1])
  {
    ChainFeedsPrevious(Respond, agents, input);
  }

  lemma DefaultNamesDistinct()
    ensures NoDuplicates(Names(DefaultAgents))
  {
    var names := Names(DefaultAgents);
    assert names == ["Analysis-KI", "Kreativ-KI", "Tech-KI", "Security-KI"];
  }

  // ----- The round table itself --------------------------------------------------------------

  /** An extension as stored: the loaded function bound to the round table that loaded it. */
  datatype Extension = BoundMethod(func: PyValue, receiver: RoundTable)

  class RoundTable {
    const agents: seq<Agent> := DefaultAgents
    /** The bound extension functions, by function name. */
    var extensions: map<string, Extension>

    constructor()
      ensures extensions == map[]
    {
      extensions := map[];
    }

    /**
     * `_validate_and_load_extension`: `(true, name)` with the function bound and stored under
     * its name when the snippet is admitted, `(false, message)` with nothing stored otherwise.
     */
    method ValidateAndLoad(snippet: string, parse: Parser, exec: Executor)
      returns (ok: bool, result: string)
      modifies this
      ensures var outcome := LoadResult(snippet, parse, exec);
        ok == outcome.Success?
        && (ok ==> result == outcome.value.name
                   && extensions == old(extensions)[result := BoundMethod(outcome.value.func, this)])
        && (!ok ==> result == Message(outcome.error) && extensions == old(extensions))
    {
      var parsed := parse(snippet);
      if parsed.Failure? {
        return false, Message(SyntaxInvalid(parsed.error));
      }
      var body := parsed.value;
      if |body| != 1 || !body[0].FunctionDef? {
        return false, Message(StructureInvalid);
      }
      var def := body[0];
      var name := def.name;
      var rejection := CheckWalk(def);
      if rejection.Some? {
        return false, Message(rejection.value);
      }
      var executed := exec(body);
      if executed.Failure? {
        return false, Message(ExecutionFailed(executed.error));
      }
      var found := OrElse(Lookup(executed.value, name), Lookup(SafeGlobals, name));
      if found.None? || !found.value.truthy || !found.value.isCallable {
        return false, Message(NotFound);
      }
      extensions := extensions[name := BoundMethod(found.value, this)];
      return true, name;
    }

    /**
     * The self-extension step of `discuss`: the code after the marker in the Tech agent's
     * response is offered to the loader, and is the consensus code only if it is admitted.
     */
    method AdoptProposal(techResponse: string, parse: Parser, exec: Executor)
      returns (consensusCode: string)
      modifies this
      ensures var code := ProposedCode(techResponse);
        if code.Some? && LoadResult(code.value, parse, exec).Success? then
          var loaded := LoadResult(code.value, parse, exec).value;
          consensusCode == code.value
          && extensions == old(extensions)[loaded.name := BoundMethod(loaded.func, this)]
        else
          consensusCode == "" && extensions == old(extensions)
    {
      consensusCode := "";
      if Contains(techResponse, ExtensionMarker) {
        var code := Strip(AfterFirst(techResponse, ExtensionMarker).value);
        var ok, _ := ValidateAndLoad(code, parse, exec);
        if ok {
          consensusCode := code;
        }
      }
    }

    /** The agent loop of `discuss`: every agent answers the previous answer, the first one
        the prompt, and each answer is stored under the agent's name. */
    method AskAgents(prompt: string) returns (responses: seq<Entry<string, string>>)
      ensures Recorded(responses, agents, Chain(agents, prompt))
    {
      ghost var said := Chain(agents, prompt);
      DefaultNamesDistinct();
      responses := [];
      var current := prompt;
      var i := 0;
      while i < |agents|
        invariant 0 <= i <= |agents|
        invariant Recorded(responses, agents[..i], said)
        invariant current == if i == 0 then prompt else said[i - 1]
      {
        var response := Respond(agents[i], current);
        ChainStep(agents, prompt, i);
        RecordNext(responses, agents, said, i);
        responses := Put(responses, agents[i].name, response);
        current := response;
        i := i + 1;
      }
      assert agents[..i] == agents;
    }

    /** The `individual_responses` list of `discuss`: each agent's role with its stored answer. */
    method Attribute(responses: seq<Entry<string, string>>, ghost said: seq<string>)
      returns (individual: seq<IndividualResponse>)
      requires Recorded(responses, agents, said)
      ensures Attributed(individual, agents, said)
    {
      individual := [];
      for k := 0 to |agents|
        invariant Attributed(individual, agents[..k], said)
      {
        var raw := ValueOr(responses, agents[k].name, "");
        RecordedLookup(responses, agents, said, k);
        individual := individual + [IndividualResponse(agents[k].role, raw)];
        assert agents[..k + 1][k] == agents[k];
      }
      assert agents[..|agents|] == agents;
    }

    /**
     * `discuss`: the agents answer in turn, each on the previous answer; the Tech agent's code
     * is offered to the loader and becomes the consensus code only if it is admitted.
     */
    method Discuss(task: string, context: Option<seq<ContextItem>>, parse: Parser, exec: Executor)
      returns (d: Discussion)
      modifies this
      ensures Recorded(d.rawResponses, agents, Chain(agents, Prompt(task, context)))
      ensures Attributed(d.individualResponses, agents, Chain(agents, Prompt(task, context)))
      ensures var code := ProposedCode(Chain(agents, Prompt(task, context))[2]);
        if code.Some? && LoadResult(code.value, parse, exec).Success? then
          var loaded := LoadResult(code.value, parse, exec).value;
          d.consensusCode == code.value
          && extensions == old(extensions)[loaded.name := BoundMethod(loaded.func, this)]
        else
          d.consensusCode == "" && extensions == old(extensions)
    {
      var prompt := Prompt(task, context);
      ghost var said := Chain(agents, prompt);
      var responses := AskAgents(prompt);
      var techResponse := ValueOr(responses, "Tech-KI", "");
      DefaultNamesDistinct();
      RecordedLookup(responses, agents, said, 2);
      var consensusCode := AdoptProposal(techResponse, parse, exec);
      var individual := Attribute(responses, said);
      d := Discussion(consensusCode, individual, responses);
    }
  }

  /** The Tech agent's proposal in `discuss` is always its snippet minus the final newline,
      whatever the task and context. */
  lemma DiscussProposesTechSnippet(prompt: string)
    ensures var said := Chain(DefaultAgents, prompt);
      var snippet := ExtensionSnippet(said[1]);
      ProposedCode(said[2]) == Some(snippet[..|snippet| - 1])
  {
    DefaultChain(prompt);
    TechResponseYieldsSnippet(DefaultAgents[2], Chain(DefaultAgents, prompt)[1]);
  }
}
