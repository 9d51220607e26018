# github-auto-coder core, modelled in Dafny

github-auto-coder turns a natural-language task ("Erstelle eine Flask Web App mit Login") into a
project plan and a map of generated files. A "round table" of AI agents discusses the task and
proposes consensus code. This project models the deterministic core of that system and proves
what it promises.

- **The restricted round table** (`RoundTableSafe`). Four agents answer one after another, each
  answering the previous agent's text. The Tech agent proposes a Python function. A conservative
  loader admits that function only if the module is exactly one plain `def`. Every node reached by
  `ast.walk` (a breadth-first traversal, `PyAst.Bfs`) must avoid the 21 banned node classes, and
  every call must go to the bare name `print`. An admitted function is bound and stored in the
  `extensions` registry; a refused one leaves the registry unchanged.
- **The task parser** (`TaskParser`):
  - first-match language detection;
  - maximum-score project-type detection, where the earlier type wins a tie;
  - the repository name, the description cut to 150 characters, the folder and dependency
    tables, and the feature list.
- **The code generator** (`CodeGenerator`): which files `generate_files` produces, with the
  `.gitkeep` files written last. Also the dependency dictionary of `package.json`, which is
  rendered by a model of `json.dumps(indent=2)` (`Json`), and the CI lookups. `Json` also holds a
  decoder (`Unescape`, `UnicodeEscape`, `Hex4Value`). The source never decodes: the decoder is
  the inverse against which the escaping is proved lossless.
- **The original round table** (`RoundTableSim`): the simulated discussion order, class-name
  extraction, consensus-template dispatch, the summary and the result layout.
- **The dashboard** (`Dashboard`):
  - the `history` list that `/api/discuss` appends to;
  - the last-ten view, the health count and the per-language and per-project-type histograms.
- **The CLI** (`RoundTableCli`): how the documentation file next to the generated code is named.
- **The local developer window** (`MioDeveloper`): its input guard and its own class-name helper.

Python dictionaries whose order is visible are sequences of entries (`OrderedDict`). Python's
string operations are modelled on ASCII (`Text`). `ast.parse`, `compile`/`exec`, the clock and the
template texts of the generated files are parameters of the model.

## Model

| member | source | states |
|---|---|---|
| PyAst.Bfs | roundtable_safe.py:159 | the breadth-first walk visits as many nodes as the queued trees hold |
| PyAst.BfsVisitsAll | roundtable_safe.py:159 | `ast.walk` yields every node of the queued trees exactly once (multiset equality) |
| PyAst.BfsQueueFirst | roundtable_safe.py:159 | the queued trees come out first, in queue order, before any descendant |
| PyAst.WalkVisitsTree | roundtable_safe.py:159 | `ast.walk(def)` starts with `def` and yields exactly the nodes of its tree, so decorators, defaults and annotations are visited too |
| PyAst.ChildrenMeasure | roundtable_safe.py:159 | a node is one more than its children, in size and in nodes |
| PyAst.ChildInTree | roundtable_safe.py:159 | a child of a node is a node of that node's tree |
| PyAst.SizeAllAppend | roundtable_safe.py:159 | the size of a queue is additive over concatenation |
| PyAst.NodesAllAppend | roundtable_safe.py:159 | the nodes of a queue are additive over concatenation |
| PyAst.ChildInAll | roundtable_safe.py:159 | a tree in the queue has its root among the queue's nodes |
| RoundTableSafe.FirstRejection | roundtable_safe.py:159-167 | no refusal iff every node passes the per-node test; a refusal is the verdict of some visited node |
| RoundTableSafe.CheckWalk | roundtable_safe.py:159-167 | the walk loop with early returns equals the first refusal along `ast.walk` order |
| RoundTableSafe.WalkFindsEveryRejection | roundtable_safe.py:135-167 | the walk refuses nothing iff every node of the tree is neither banned nor a non-`print` or indirect call |
| RoundTableSafe.RejectionIsWitnessed | roundtable_safe.py:160-167 | the refused class or callee named in the message really occurs in the definition |
| RoundTableSafe.LoadResult | roundtable_safe.py:124-183 | an admitted function is truthy and callable |
| RoundTableSafe.AdmittedIsCleanDefinition | roundtable_safe.py:124-183 | admission implies: parsed, exactly one plain `def`, every node passes, executed, loaded under the def's name |
| RoundTableSafe.RefusalIsWitnessed | roundtable_safe.py:129-167 | for one plain `def` the structure error never occurs, and every node-stage refusal is witnessed in the tree |
| RoundTableSafe.BannedNodeRefused | roundtable_safe.py:135-161 | a banned node anywhere in the definition causes a refusal, and the refusal names a banned class when no call is at fault |
| RoundTableSafe.BadCallRefused | roundtable_safe.py:162-167 | a call to anything but the bare name `print` causes a refusal, and with no banned node the refusal is a call refusal |
| RoundTableSafe.CallFreeDefinitionReachesExec | roundtable_safe.py:135-175 | a definition with neither banned nodes nor calls passes every node test and never gets the structure error; only exec or the name lookup after it can refuse it |
| RoundTableSafe.ReturnOnlyIsAdmissible | roundtable_safe.py:135-167 | `def f(): return 1` passes every node test |
| RoundTableSafe.ReturnOnlyWalk | roundtable_safe.py:159 | the walk of `def f(): return 1` is the def, its arguments, the return, the constant |
| RoundTableSafe.RoundTable.constructor | roundtable_safe.py:40-48 | the registry starts empty |
| RoundTableSafe.RoundTable.ValidateAndLoad | roundtable_safe.py:116-183 | `(true, name)` and `extensions[name]` replaced by the bound function exactly when admitted; otherwise `(false, message)` and the registry unchanged |
| RoundTableSafe.TechResponseYieldsSnippet | roundtable_safe.py:28-33 | for any input, the code after the marker in the Tech answer is its snippet without the final newline |
| RoundTableSafe.Respond | roundtable_safe.py:23-36 | `Agent.respond`: the role's template around the input, the Tech template with the escaped input in its snippet; no contract of its own, its use is stated by `TechResponseYieldsSnippet` and `ChainFeedsPrevious` |
| RoundTableSafe.StripSnippet | roundtable_safe.py:74 | stripping the text after the marker removes only the leading space and the final newline |
| RoundTableSafe.ChainWith | roundtable_safe.py:60-68 | one response per agent |
| RoundTableSafe.Chain | roundtable_safe.py:60-68 | the chain with `Agent.respond`; no contract of its own, `ChainWith` and `ChainFeedsPrevious` state it |
| RoundTableSafe.ChainFeedsPrevious | roundtable_safe.py:60-68 | the first agent answers the prompt; every later agent answers exactly the previous agent's response |
| RoundTableSafe.DefaultChain | roundtable_safe.py:41-68 | Analysis answers the prompt, Creative answers Analysis, Tech answers Creative, Security answers Tech |
| RoundTableSafe.Prompt | roundtable_safe.py:56-58 | the prompt starts with the task, and equals it iff no non-empty context is given |
| RoundTableSafe.RecordNext | roundtable_safe.py:67 | with distinct agent names, storing the next answer keeps every earlier one |
| RoundTableSafe.RecordedLookup | roundtable_safe.py:71 | looking up an agent's name gives that agent's answer |
| RoundTableSafe.ChainStep | roundtable_safe.py:64-68 | the i-th response is the i-th agent's answer to the previous response (the prompt for the first) |
| RoundTableSafe.DefaultNamesDistinct | roundtable_safe.py:41-46 | the four agent names are distinct |
| RoundTableSafe.RoundTable.AskAgents | roundtable_safe.py:60-68 | exactly one response per agent name, each the chained answer |
| RoundTableSafe.RoundTable.AdoptProposal | roundtable_safe.py:70-86 | the consensus code is the stripped text after the first marker iff the loader admits it, and then the registry gains it; otherwise `""` and the registry unchanged |
| RoundTableSafe.RoundTable.Attribute | roundtable_safe.py:88-95 | one individual response per agent, in order, with the role as model value and the agent's answer |
| RoundTableSafe.RoundTable.Discuss | roundtable_safe.py:50-102 | raw responses are the chain from the prompt; individual responses follow the agents; the consensus code and registry follow the loader's verdict on the Tech answer |
| RoundTableSafe.DiscussProposesTechSnippet | roundtable_safe.py:60-74 | whatever the task and context, the code offered to the loader is the Tech snippet for the Creative answer |
| RoundTableSafe.FormatResultLayout | roundtable_safe.py:104-114 | the two header lines, the code or `<kein consensus code>`, the answers heading, then one newline-led line per response in order |
| RoundTableSafe.FormatResult | roundtable_safe.py:104-114 | `format_result`; no contract of its own, `FormatResultLayout` states its layout |
| TaskParser.FirstMatch | task_parser.py:173-177 | the first table row, in order, with a keyword occurring in the text; none iff no row has one |
| TaskParser.KeywordIn | task_parser.py:174-175 | true iff some keyword is a substring of the text |
| TaskParser.DetectLanguage | task_parser.py:171-177 | the first language in table order with a keyword in the text, else `python` |
| TaskParser.Score | task_parser.py:184 | at most one point per keyword; a positive score iff some keyword occurs in the text |
| TaskParser.CollectScores | task_parser.py:181-186 | one entry per type with a positive score, in table order, with that score |
| TaskParser.FirstMax | task_parser.py:189 | the entry with the largest score, the first one on ties |
| TaskParser.MostHits | task_parser.py:181-190 | the type with the most hits, earliest in table order on ties, `cli` when nothing hits |
| TaskParser.DetectProjectType | task_parser.py:179-190 | the best type over `PROJECT_TYPES` as above |
| TaskParser.LetterRun | task_parser.py:195 | the length of the leading ASCII-letter run |
| TaskParser.LetterRuns | task_parser.py:195 | every run has three or more ASCII letters taken from the text |
| TaskParser.KeptWords | task_parser.py:198-199 | kept words come from the input and are never stopwords |
| TaskParser.KeptWordsMembership | task_parser.py:198-199 | a word is kept if and only if it is in the input and not a stopword |
| TaskParser.KeptWordsAppend | task_parser.py:198-199 | the filter distributes over concatenation, so kept words keep their input order |
| TaskParser.NameParts | task_parser.py:195-206 | the first three kept words, then the project type with `-` for `_` unless the task names an app, tool, system or api; no contract of its own, `HintLeavesOutType`, `FewWordsKeepType` and `ThreeWordsLeaveOutType` state it |
| TaskParser.RepoName | task_parser.py:192-213 | the name rule; no contract of its own, `RepoNameWellFormed`, `HintLeavesOutType`, `FewWordsKeepType` and `ThreeWordsLeaveOutType` state it |
| TaskParser.CleanName | task_parser.py:211 | only a-z, 0-9 and '-' remain; a clean text is unchanged |
| TaskParser.GenerateRepoName | task_parser.py:192-213 | the loop form equals the name rule |
| TaskParser.RepoNameWellFormed | task_parser.py:211-213 | the name is never empty and uses only a-z, 0-9 and '-' |
| TaskParser.RunsOfLowerAreLowercase | task_parser.py:195 | letter runs of the lower-cased task are lower case |
| TaskParser.ThreeWordsLeaveOutType | task_parser.py:202-208 | with three or more kept words the name is exactly the first three joined by '-' |
| TaskParser.KeptWordsLowercase | task_parser.py:195-199 | kept words are lower-case ASCII letters, at least three of them |
| TaskParser.CleanJoinedParts | task_parser.py:208-213 | parts of a-z, 0-9 and '-' with a non-empty first part come through lower-casing and the filter as their '-' join |
| TaskParser.DashedTypeIsName | task_parser.py:206 | a type of a-z and '_' with '-' for '_' is made of name characters, and non-empty when the type is |
| TaskParser.HintLeavesOutType | task_parser.py:204-213 | when the lower-cased task contains app, tool, system or api the type plays no part: the name is the first three (or fewer) kept words joined by '-', or `my-project` without any |
| TaskParser.FewWordsKeepType | task_parser.py:204-213 | without such a word and with fewer than three kept words the type with '-' for '_' is the last part; for a non-empty type of a-z and '_' the name is the words and then that type, joined by '-' |
| TaskParser.FullDescription | task_parser.py:218-220 | the first sentence stripped, " - ", the capitalised language and the type with spaces; no contract of its own, `Description` states what is kept of it |
| TaskParser.Description | task_parser.py:215-222 | at most 150 characters, a prefix of "first part - Language type", and the whole of it when shorter |
| TaskParser.PlanFolders | task_parser.py:224-258 | a non-empty list of distinct folders |
| TaskParser.GetDependencies | task_parser.py:260-297 | the list-building code equals the dependency rule |
| TaskParser.Dependencies | task_parser.py:260-297 | the dependency rule by language; no contract of its own, stated by the `…Rule`, `…Distinct` and `OtherLanguagesHaveNoDependencies` lemmas below |
| TaskParser.PythonDependencies | task_parser.py:264-282 | the Python list; no contract of its own, stated by `PythonGroups`, `PythonFrameworkRule`, `PythonExtrasRule` and `PythonDependenciesDistinct` |
| TaskParser.PythonGroups | task_parser.py:264-282 | the Python list is pytest, the framework, the data stack, sqlalchemy, requests, in that order |
| TaskParser.PythonFrameworkRule | task_parser.py:264-273 | the list starts with pytest; a web framework only for web apps, Flask before Django before FastAPI |
| TaskParser.PythonExtrasRule | task_parser.py:275-282 | the data stack iff data science; sqlalchemy iff "database" or "db"; requests iff "api" |
| TaskParser.PythonDependenciesDistinct | task_parser.py:264-282 | no Python dependency twice |
| TaskParser.ScriptDependencyRules | task_parser.py:284-295 | at most one framework, React before Vue before Express; TypeScript ends with typescript, @types/node |
| TaskParser.OtherLanguagesHaveNoDependencies | task_parser.py:260-297 | other languages get `[]` |
| TaskParser.ScriptDependenciesIgnoreType | task_parser.py:284-295 | for JavaScript and TypeScript the project type plays no part |
| TaskParser.ExtractFeatures | task_parser.py:299-319 | the loop equals the features matched in table order |
| TaskParser.MatchedMembership | task_parser.py:315-317 | a feature is listed iff one of its keywords occurs in the text |
| TaskParser.MatchedDistinct | task_parser.py:315-317 | with distinct features, each is listed once |
| TaskParser.FeaturesDistinct | task_parser.py:303-317 | `extract_features` never lists a feature twice |
| TaskParser.ParseTask | task_parser.py:123-169 | each plan field is its rule's result; license `MIT`, no files, the gitignore template or `""`, a non-empty folder list |
| CodeGenerator.LookupDefaults | code_generator.py:516-561 | unknown languages get `node`, the two placeholder commands and `language.capitalize()` |
| CodeGenerator.ScriptLanguagesShareTooling | code_generator.py:530-561 | JavaScript and TypeScript share setup, install and test steps |
| CodeGenerator.LanguageRequirement | code_generator.py:516-528 | `_get_language_requirement`: the table entry or the capitalised language; no contract of its own, `LookupDefaults` states the default |
| CodeGenerator.SetupAction | code_generator.py:530-539 | `_get_setup_action`: the table entry or `node`; no contract of its own, `LookupDefaults` and `ScriptLanguagesShareTooling` state it |
| CodeGenerator.InstallCommand | code_generator.py:541-550 | `_get_install_command`: the table entry or the placeholder; no contract of its own, stated as above |
| CodeGenerator.TestCommand | code_generator.py:552-561 | `_get_test_command`: the table entry or the placeholder; no contract of its own, stated as above |
| CodeGenerator.Readme | code_generator.py:65-132 | `_generate_readme`; no contract of its own, `ReadmeOpensWithTitle` states how it opens |
| CodeGenerator.ReadmeOpensWithTitle | code_generator.py:65-80 | the README opens with `# name`, an empty line and the description |
| CodeGenerator.License | code_generator.py:134-159 | the MIT text for `MIT`, `""` for anything else |
| CodeGenerator.RequirementsLines | code_generator.py:161-163 | splitting requirements.txt at line breaks gives the dependencies back |
| CodeGenerator.Requirements | code_generator.py:161-163 | `_generate_requirements`; no contract of its own, `RequirementsLines` states that it splits back into the dependencies |
| CodeGenerator.Pinned | code_generator.py:189-190 | the dependency dict has distinct keys |
| CodeGenerator.PinnedValues | code_generator.py:189-190 | every dependency maps to `^latest`, and nothing else is a key |
| CodeGenerator.PinnedStep | code_generator.py:189-190 | each iteration adds one dependency to the dict |
| CodeGenerator.PinnedKeys | code_generator.py:189-190 | without repeats the keys keep the dependencies' order |
| CodeGenerator.GeneratePackageJson | code_generator.py:165-192 | the loop's dict, dumped, is printable ASCII lines |
| CodeGenerator.PomXml | code_generator.py:194-216 | `_generate_pom_xml`: the repository name between the fixed parts; no contract of its own, `OneManifest` states where it lands |
| CodeGenerator.GoMod | code_generator.py:218-227 | `_generate_go_mod`: the module path under `github.com/username/`; no contract of its own, `OneManifest` states where it lands |
| CodeGenerator.CiWorkflow | code_generator.py:484-514 | the CI workflow text with the language and the three lookups; no contract of its own, `GeneratedFiles` states where it lands |
| CodeGenerator.PythonCodeFiles | code_generator.py:244-347 | cli gives exactly src/main.py; web_app/api without flask/fastapi give nothing; other types give an empty src/__init__.py and src/main.py |
| CodeGenerator.PythonCode | code_generator.py:244-347 | `_generate_python_code`; no contract of its own, `PythonCodeFiles` states its keys |
| CodeGenerator.ScriptCodeFiles | code_generator.py:349-424 | src/index.ext is always present, ext is `ts` iff TypeScript, tsconfig.json iff TypeScript |
| CodeGenerator.ScriptCode | code_generator.py:349-426 | `_generate_js_code`; no contract of its own, `ScriptCodeFiles` states its keys |
| CodeGenerator.MainCode | code_generator.py:229-242 | `_generate_main_code`; no contract of its own, `MainCodeKeys` states it |
| CodeGenerator.MainCodeKeys | code_generator.py:229-456 | Python and JavaScript/TypeScript dispatch to their generators; Java gets exactly `src/main/java/com/example/Main.java`, Go exactly `cmd/main.go`, other languages nothing |
| CodeGenerator.TestFiles | code_generator.py:458-482 | `_generate_test_files`; no contract of its own, `TestFilesKeys` states it |
| CodeGenerator.TestFilesKeys | code_generator.py:458-482 | exactly `tests/test_main.py` for Python, `tests/main.test.js` for JavaScript, `tests/main.test.ts` for TypeScript, nothing otherwise; the Python or the Jest template as content |
| CodeGenerator.Manifest | code_generator.py:38-45 | the manifest by language; no contract of its own, `ManifestPaths` and `OneManifest` state it |
| CodeGenerator.GitkeepsStep | code_generator.py:60-61 | one more folder adds its empty `.gitkeep` |
| CodeGenerator.AddGitkeeps | code_generator.py:60-61 | the folder loop merges the `.gitkeep` map over the earlier files |
| CodeGenerator.GenerateLayers | code_generator.py:25-57 | steps 1 to 7 build the layered map |
| CodeGenerator.GenerateManifest | code_generator.py:38-45 | step 4 gives the language's manifest |
| CodeGenerator.GenerateFiles | code_generator.py:15-63 | the method equals the assembled file map |
| CodeGenerator.CodePaths | code_generator.py:229-482 | main-code and test paths never clash with README, LICENSE, the manifests or the CI file |
| CodeGenerator.ScriptPaths | code_generator.py:349-424 | JavaScript and TypeScript paths are code paths |
| CodeGenerator.ManifestPaths | code_generator.py:38-45 | each manifest iff its language |
| CodeGenerator.LayersHold | code_generator.py:25-57 | README, LICENSE, CI always, with their contents; `.gitignore` iff the template is non-empty; manifests untouched by later steps |
| CodeGenerator.LayersCode | code_generator.py:25-57 | every code or test path holds the merged main-code and test content, and no other key than the fixed files, the manifest, the code and the tests is written |
| CodeGenerator.LayeredFiles | code_generator.py:25-63 | the same after the `.gitkeep` files are added, plus an empty `.gitkeep` per folder |
| CodeGenerator.LayeredCode | code_generator.py:25-63 | the same after the `.gitkeep` files, which never land on a code path, with those files added to the closing list |
| CodeGenerator.GeneratedFiles | code_generator.py:15-63 | for a plan: README.md, LICENSE, `.github/workflows/ci.yml`, `.gitignore` iff a template, the manifest, an empty `.gitkeep` per folder; every main-code and test file with its content (tests win a clash), no other code path; and no key outside those groups |
| CodeGenerator.GeneratedFixedFiles | code_generator.py:15-63 | the fixed-file, manifest and `.gitkeep` part of `GeneratedFiles` |
| CodeGenerator.GeneratedCodeFiles | code_generator.py:15-63 | the main-code, test and closing part of `GeneratedFiles` |
| CodeGenerator.OneManifest | code_generator.py:38-45 | exactly one manifest for each known language and none for the rest; requirements.txt is the dependencies joined by newlines |
| Json.HexDigit | code_generator.py:192 | a hex digit is printable |
| Json.Hex4 | code_generator.py:192 | four printable characters |
| Json.EscapeChar | code_generator.py:192 | every character is written as non-empty printable ASCII |
| Json.Escape | code_generator.py:192 | an escaped string is printable ASCII |
| Json.Quote | code_generator.py:192 | a quoted string starts and ends with `"` and is ASCII |
| Json.Indent | code_generator.py:192 | two spaces per level |
| Json.Dumps | code_generator.py:192 | `json.dumps(..., indent=2)`; no contract of its own, `RenderIsAscii` states that it is printable ASCII and `UnescapeEscape` that its strings are lossless |
| Json.AsciiConcat | code_generator.py:192 | ASCII text is closed under concatenation |
| Json.RenderIsAscii | code_generator.py:192 | the whole `json.dumps(indent=2)` document is printable ASCII lines |
| Json.RenderItemsAscii | code_generator.py:192 | the items of a list render as ASCII |
| Json.RenderMembersAscii | code_generator.py:192 | the members of a dict render as ASCII |
| Json.HexDigitValue | code_generator.py:192 | reading a written hex digit gives it back |
| Json.Hex4RoundTrip | code_generator.py:192 | reading a written `\uXXXX` number gives it back |
| Json.UnescapeShortEscape | code_generator.py:192 | the short escapes decode back to their character |
| Json.UnescapeBmpEscape | code_generator.py:192 | a `\uXXXX` escape decodes back to its character |
| Json.SurrogatesCombine | code_generator.py:192 | a surrogate pair combines back to its character |
| Json.UnescapeSurrogatePair | code_generator.py:192 | a character above U+FFFF decodes back from its pair |
| Json.UnescapeChar | code_generator.py:192 | every escaped character decodes back in front of any text |
| Json.UnescapeEscape | code_generator.py:192 | decoding undoes escaping for every string |
| OrderedDict.Keys | code_generator.py:189-190 | one key per entry, in order |
| OrderedDict.Get | dashboard.py:170-171 | missing iff not among the keys |
| OrderedDict.PutGet | dashboard.py:171 | after `d[k] = v`, `k` reads `v` and other keys read as before |
| OrderedDict.PutKeys | dashboard.py:171 | an existing key keeps its place; a new key goes last |
| OrderedDict.PutFacts | dashboard.py:171 | the above, and keys stay distinct |
| RoundTableSim.SimulateDiscussion | round_table.py:146-188 | four responses, Grok, Claude, GPT, Gemini, each with its focus and recommendation |
| RoundTableSim.SimulatedSpeakersOnce | round_table.py:146-188 | the models speak in that order, each once, with their own focus areas |
| RoundTableSim.EveryModelInOrder | round_table.py:151-180 | the order names every model exactly once |
| RoundTableSim.CleanWords | round_table.py:568 | kept words are alphabetic and longer than two; none kept iff none qualifies |
| RoundTableSim.CleanWordsFirst | round_table.py:568 | the first kept word is the first qualifying word, capitalised |
| RoundTableSim.ExtractClassName | round_table.py:565-574 | never empty, at least three letters, alphabetic |
| RoundTableSim.ClassNameFromFirstWords | round_table.py:567-574 | `GeneratedModule` when none of the first three words qualifies; otherwise it starts with the first qualifying word |
| RoundTableSim.ScriptConsensus | round_table.py:370-375 | the TypeScript variant iff the language is `typescript` |
| RoundTableSim.ConsensusDispatch | round_table.py:197-227 | python by default; Python template iff python, failing without four responses; its digests are prefixes of at most 60 characters; JS/TS by language; generic otherwise, labelled with that language |
| RoundTableSim.BuildConsensus | round_table.py:197-213 | `_build_consensus`; no contract of its own, `ConsensusDispatch` states its dispatch |
| RoundTableSim.SimulatedConsensus | round_table.py:206-227 | after the simulation the Python template gets the four digests in speaking order |
| RoundTableSim.ModelLabelIsUpper | round_table.py:581 | the label is `model.value.upper()` |
| RoundTableSim.Summary | round_table.py:576-584 | the summary text; no contract of its own, `CreateSummary` and `SummaryInOrder` state it |
| RoundTableSim.CreateSummary | round_table.py:576-584 | the loop equals the header followed by one block per response |
| RoundTableSim.SummaryInOrder | round_table.py:576-584 | the summary starts with the header, and the blocks of earlier responses come first |
| RoundTableSim.FormatResultTask | round_table.py:610-636 | the task follows the first task label |
| RoundTableSim.FormatResult | round_table.py:610-636 | `format_result`; no contract of its own, the three `FormatResult…` lemmas state its layout |
| RoundTableSim.FormatResultSummary | round_table.py:610-636 | the summary lines follow the first summary title, so the summary comes after the task |
| RoundTableSim.FormatResultCode | round_table.py:610-636 | the code lines follow the first code title, after the summary |
| RoundTableSim.CodeLinesHold | round_table.py:626-635 | the code section holds the consensus code and ends with the recommendation between two rules |
| Dashboard.PayloadOf | dashboard.py:61-77 | the answer echoes the result's task, code and responses, in order |
| Dashboard.LastTen | dashboard.py:97 | the last min(10, n) entries, in order |
| Dashboard.LastTenAfterAppend | dashboard.py:80-97 | after an append the view ends with the new entry and drops the oldest once full |
| Dashboard.HistogramStep | dashboard.py:169-171 | one more key tallies once more |
| Dashboard.Tally | dashboard.py:171 | `counts[key] = counts.get(key, 0) + 1`; no contract of its own, `TotalTally` and `HistogramCounts` state it |
| Dashboard.Histogram | dashboard.py:168-177 | the insertion-ordered counts; no contract of its own, `HistogramCounts` and `HistogramTotal` state it |
| Dashboard.HistogramCounts | dashboard.py:168-177 | each count equals the key's number of occurrences |
| Dashboard.TotalPut | dashboard.py:171 | the total changes by the difference of the old and new value |
| Dashboard.TotalTally | dashboard.py:171 | a tally adds one to the total |
| Dashboard.HistogramTotal | dashboard.py:168-177 | the counts add up to the number of keys |
| Dashboard.StatsAddUp | dashboard.py:158-183 | both histograms sum to `total_tasks` and count each key's entries, `unknown` for a missing key |
| Dashboard.App.constructor | dashboard.py:24 | the history starts empty |
| Dashboard.App.ApiDiscuss | dashboard.py:33-91 | 400 for a missing or empty task; 500 for an unreadable body, a raised discussion, or a result without `task`; history unchanged on every error; on success the payload, and exactly one entry appended |
| Dashboard.App.ApiHistory | dashboard.py:94-97 | the last ten entries |
| Dashboard.App.ApiHealth | dashboard.py:145-152 | `history_count` is the history's length |
| Dashboard.App.ApiStats | dashboard.py:155-183 | `total_tasks` is the length, and the two histograms are the counts of the history |
| RoundTableCli.DocFileName | round_table_cli.py:102-106 | ends in `.md`; a name without '.' gets `_discussion.md` appended |
| RoundTableCli.InteractiveDocFileName | round_table_cli.py:167 | ends in `_discussion.md`; a name without '.' keeps all of it |
| RoundTableCli.InteractiveKeepsStem | round_table_cli.py:167 | the interactive rule drops exactly the last extension |
| RoundTableCli.OneDotNaming | round_table_cli.py:102-106 | with one '.', `main` turns `stem.ext` into `stem_discussion.md` |
| RoundTableCli.SameNameIffAtMostOneDot | round_table_cli.py:102-167 | the two rules agree iff the name holds at most one '.' |
| RoundTableCli.DocFileNameSplitsDirectory | round_table_cli.py:102-106 | `./out.py` is documented in `_discussion./out_discussion.md` |
| RoundTableCli.TwoDotNaming | round_table_cli.py:102-106 | with two dots, `main` turns `a.b.ext` into `a_discussion.b_discussion.md` |
| RoundTableCli.InteractiveDropsName | round_table_cli.py:167 | `./out` is documented in `_discussion.md` |
| RoundTableCli.DocFileNameBesideCode | round_table_cli.py:102-167 | the corrected rule: the name lies in the code file's directory and ends in `_discussion.md` |
| RoundTableCli.BesideCodeKeepsStem | round_table_cli.py:102-167 | for any directory, `stem.ext` and a dot-free `stem` are both documented as `dir/stem_discussion.md` |
| RoundTableCli.BesideCodeAgrees | round_table_cli.py:102-167 | for a bare file name the corrected rule is the interactive one, and `main`'s too when there is at most one '.' |
| MioDeveloper.AlphaWords | mio-developer-local/mio_developer.py:238 | kept words are alphabetic, of any length; none kept iff none is alphabetic |
| MioDeveloper.ToClassName | mio-developer-local/mio_developer.py:235-239 | always alphabetic, so never empty; `GeneratedModule` when none of the first three words is alphabetic |
| MioDeveloper.AlphaWordsFirst | mio-developer-local/mio_developer.py:238 | the first alphabetic word is kept first |
| MioDeveloper.ClassNameStartsWithFirstAlpha | mio-developer-local/mio_developer.py:237-239 | the name starts with the first alphabetic word among the first three, however short |
| MioDeveloper.AlphaWordsAreCleanWords | mio-developer-local/mio_developer.py:238 | without short alphabetic words, the filter is the one in round_table.py |
| MioDeveloper.SameClassNameAsRoundTable | mio-developer-local/mio_developer.py:235-239 | the two class-name helpers agree when no alphabetic word among the first three is shorter than three |
| MioDeveloper.GenerateCode | mio-developer-local/mio_developer.py:112-122 | a warning iff the stripped input is empty or starts with `Beispiel:`; otherwise generation from the stripped task with `_to_class_name` |
| MioDeveloper.HeaderFileName | mio-developer-local/mio_developer.py:174 | `<first word>.py`, or `Module.py` without words; no contract of its own, `AcceptedTaskNamesFirstWord` states which case occurs |
| MioDeveloper.AcceptedTaskNamesFirstWord | mio-developer-local/mio_developer.py:174 | an accepted task has a first word, so the header always names it and never `Module.py` |
| Text.Words | round_table.py:567 | `str.split()`: every word is non-empty and free of whitespace, and there is no word iff the text is all whitespace |
| Text.Strip | mio-developer-local/mio_developer.py:115 | `str.strip()`: neither end of the result is whitespace; a text without whitespace at its ends is kept; an all-whitespace text becomes empty |
| Text.TrimStart | mio-developer-local/mio_developer.py:115 | a suffix of the text, not starting with whitespace, with only whitespace cut |
| Text.TrimEnd | mio-developer-local/mio_developer.py:115 | a prefix of the text, not ending in whitespace, with only whitespace cut |
| Text.Lower | task_parser.py:133 | `str.lower()` on ASCII letters: the same length, no upper-case letter left, every other character kept |
| Text.Capitalize | round_table.py:568 | `str.capitalize()` on ASCII letters: the same length, the first character not lower case, the rest not upper case |
| Text.ReplaceChar | round_table_cli.py:102 | `str.replace` of one character: none is left unless the replacement brings it, and a text without it is kept |
| Text.BeforeLast | round_table_cli.py:167 | `rsplit(c, 1)[0]`: a prefix of the text; all of it without `c`; otherwise it stops at the last `c` |

## Left out

- The consensus template bodies in round_table.py (220-563) and the generated-file templates in code_generator.py are not reproduced. They are a `Templates` parameter, with the file texts in `CodeTemplates.SourceTemplates`; the proofs are about which keys are chosen.
- The result text of mio_developer.py's `simulate_round_table` (147-232) is not reproduced: only the values filled in (task, header file name, class name).
- The README, LICENSE, CI workflow, pom.xml and go.mod texts keep their variable parts (name, description, language, lookups, dependency-dependent sections). The fixed text between those parts comes from the `Templates` parameter.
- Confidence values, `avg_confidence` and `_create_recommendation` are left out, because they are floating point with percent formatting. The final recommendation is an input.
- `datetime.now()` timestamps are left out (a clock). The formatted timestamp is a parameter.
- `ast.parse`, `compile`/`exec` and the lookup of the defined function are left out; they are parameters (`Parser`, `Executor`). A Python object is modelled only by its truth value and `callable()`. `MethodType` binding is a datatype value.
- RoundTableSafe.LoadResult: a `Parser` failure stands for the `SyntaxError` that roundtable_safe.py:124-127 catches. Other exceptions of `ast.parse` (a `ValueError` for a NUL character on Python before 3.12) are not caught there and propagate out of `_validate_and_load_extension` and `discuss`; the model has no such outcome.
- PyAst: a `Name` node's expression context (`Load`, `Store` or `Del`) is not kept, although `ast.iter_child_nodes` yields it as a child and `ast.walk` visits it. Those context nodes are leaves outside the banned tuple at roundtable_safe.py:135-157 and are not calls, so they never decide a verdict, and leaving them out keeps the breadth-first order of every other node. `WalkVisitsTree` is about the modelled tree, without them.
- The demonstration call of the bound function in `discuss` (roundtable_safe.py:80-86) is left out: its exceptions are swallowed and it changes nothing the model observes.
- `Agent.respond` raising is left out: the templates cannot raise, so the `except` branch at roundtable_safe.py:65-66 is unreachable.
- `RoundTable._real_discussion` (round_table.py:190-195) is left out: it only delegates to the simulation.
- `RoundTable.discuss` in round_table.py (96-144) is left out because it only prints and composes the modelled helpers. Its result is the `Completed` input of the dashboard.
- Unicode semantics of `lower`, `upper`, `capitalize`, `isalpha` and `re` classes are left out; the model uses ASCII letters. Whitespace (`Text.IsSpace`, used by `split()` and `strip()`) is Python's full `str.isspace` set, Unicode spaces and line separators included.
- The Flask request machinery, `jsonify` key order, the event loop, the constant `success: True` field and JSON values other than strings in the request body are left out. The discussion result is an input with three outcomes.
- Printing, colour output, Tk widgets, message boxes, file writes, argparse and the interactive `while True` loop are left out, because they are I/O.
- `/api/examples` and `/` in dashboard.py are left out: they return static data.
- github_client.py, auto_coder.py, web_interface.py, demo_round_table.py and mio-lifepilot-developer are not part of this model.

## Findings

| source | as written | input that shows it | evidently intended | confidence | as-written member | corrected member |
|---|---|---|---|---|---|---|
| round_table_cli.py:102-106 | every '.' of the output path becomes `_discussion.`, including a '.' in the directory part | `--output ./out.py` gives `_discussion./out_discussion.md` | `./out_discussion.md`, next to the code file | not executed | RoundTableCli.DocFileNameSplitsDirectory | RoundTableCli.BesideCodeKeepsStem |
| round_table_cli.py:167 | `rsplit('.', 1)` cuts at the last '.', even when it belongs to the directory | file name `./out` gives `_discussion.md` | `./out_discussion.md` | not executed | RoundTableCli.InteractiveDropsName | RoundTableCli.BesideCodeKeepsStem |
