/**
 * The task parser: from a free-text programming task to a project plan (language, project type,
 * repository name, description, folders, dependencies, `.gitignore` template, licence).
 * Detection works on the lower-cased task and matches keywords as substrings.
 */
module TaskParser {
  import opened Outcomes
  import opened Text

  /** `ProjectPlan`; the `.gitignore` template is always a string (possibly empty). */
  datatype ProjectPlan = ProjectPlan(
    repoName: string,
    description: string,
    language: string,
    projectType: string,
    files: map<string, string>,
    folders: seq<string>,
    dependencies: seq<string>,
    gitignoreTemplate: string,
    license: string)

  /** A row of a keyword table: a name and the keywords that point to it. */
  datatype Pattern = Pattern(name: string, keywords: seq<string>)

  /** `LANGUAGE_PATTERNS`, in its order. */
  const Languages: seq<Pattern> := [
    Pattern("python", ["python", "py", "flask", "django", "fastapi", "pandas", "numpy", "jupyter"]),
    Pattern("javascript", ["javascript", "js", "node", "react", "vue", "angular", "express", "next"]),
    Pattern("typescript", ["typescript", "ts", "tsx"]),
    Pattern("java", ["java", "spring", "maven", "gradle"]),
    Pattern("cpp", ["c++", "cpp", "cmake"]),
    Pattern("go", ["go", "golang"]),
    Pattern("rust", ["rust", "cargo"]),
    Pattern("ruby", ["ruby", "rails"]),
    Pattern("php", ["php", "laravel", "symfony"]),
    Pattern("swift", ["swift", "ios"]),
    Pattern("kotlin", ["kotlin", "android"]),
    Pattern("html", ["html", "css", "website", "webpage"])
  ]

  /** `PROJECT_TYPES`, in its order. */
  const ProjectTypes: seq<Pattern> := [
    Pattern("web_app", ["webapp", "web app", "website", "webseite", "dashboard"]),
    Pattern("api", ["api", "rest", "graphql", "backend"]),
    Pattern("cli", ["cli", "command line", "kommandozeile", "terminal"]),
    Pattern("library", ["library", "bibliothek", "package", "paket", "modul"]),
    Pattern("bot", ["bot", "chatbot", "discord", "telegram", "slack"]),
    Pattern("data_science", ["data", "analyse", "analysis", "jupyter", "notebook", "ml",
                             "machine learning"]),
    Pattern("mobile", ["mobile", "app", "ios", "android", "react native", "flutter"]),
    Pattern("desktop", ["desktop", "gui", "electron", "pyqt", "tkinter"]),
    Pattern("game", ["game", "spiel", "pygame", "unity"]),
    Pattern("microservice", ["microservice", "micro service", "docker", "kubernetes"])
  ]

  /** `GITIGNORE_TEMPLATES` */
  const GitignoreTemplates: map<string, string> := map[
    "python" := @"# Python
__pycache__/
*.py[cod]
*$py.class
*.so
.Python
env/
venv/
ENV/
.venv
pip-log.txt
pip-delete-this-directory.txt
.pytest_cache/
.coverage
htmlcov/
*.egg-info/
dist/
build/
*.egg
.ipynb_checkpoints
",
    "javascript" := @"# Node
node_modules/
npm-debug.log*
yarn-debug.log*
yarn-error.log*
.npm
.env
.env.local
.env.production
dist/
build/
coverage/
.cache/
*.log
",
    "java" := @"# Java
*.class
*.jar
*.war
*.ear
target/
*.iml
.idea/
.gradle/
build/
out/
",
    "go" := @"# Go
*.exe
*.exe~
*.dll
*.so
*.dylib
*.test
*.out
vendor/
go.work
"
  ]

  // ----- Language ---------------------------------------------------------------------------

  /** Some keyword of `keywords` occurs in `text`. */
  predicate AnyKeyword(keywords: seq<string>, text: string)
  {
    exists k :: 0 <= k < |keywords| && Contains(text, keywords[k])
  }

  /** Where the first row of `table` with a keyword in `text` stands (the nested loop of
      `_detect_language`, returning at the first hit). */
  function FirstMatch(table: seq<Pattern>, text: string): (r: Option<nat>)
    ensures r.Some? ==> r.value < |table| && AnyKeyword(table[r.value].keywords, text)
                        && forall j :: 0 <= j < r.value ==> !AnyKeyword(table[j].keywords, text)
    ensures r.None? ==> forall j :: 0 <= j < |table| ==> !AnyKeyword(table[j].keywords, text)
  {
    if table == [] then None
    else if KeywordIn(table[0].keywords, text) then Some(0)
    else
      match FirstMatch(table[1..], text)
      case None => None
      case Some(i) => Some(i + 1)
  }

  /** The inner loop: does any keyword, tried in order, occur in `text`? */
  function KeywordIn(keywords: seq<string>, text: string): (found: bool)
    ensures found <==> AnyKeyword(keywords, text)
  {
    if keywords == [] then false
    else if Contains(text, keywords[0]) then true
    else
      var rest := KeywordIn(keywords[1..], text);
      assert rest ==> AnyKeyword(keywords, text) by {
        if rest {
          var k :| 0 <= k < |keywords| - 1 && Contains(text, keywords[1..][k]);
          assert keywords[k + 1] == keywords[1..][k];
        }
      }
      assert AnyKeyword(keywords, text) ==> rest by {
        if AnyKeyword(keywords, text) {
          var k :| 0 <= k < |keywords| && Contains(text, keywords[k]);
          assert k > 0 && keywords[1..][k - 1] == keywords[k];
        }
      }
      rest
  }

  /** `_detect_language`: the first language, in table order, with a keyword in the lower-cased
      task; 'python' when there is none. */
  function DetectLanguage(taskLower: string): (language: string)
    ensures (exists i :: 0 <= i < |Languages| && Languages[i].name == language
               && AnyKeyword(Languages[i].keywords, taskLower)
               && forall j :: 0 <= j < i ==> !AnyKeyword(Languages[j].keywords, taskLower))
            || (language == "python"
                && forall j :: 0 <= j < |Languages| ==> !AnyKeyword(Languages[j].keywords, taskLower))
  {
    match FirstMatch(Languages, taskLower)
    case None => "python"
    case Some(i) => Languages[i].name
  }

  // ----- Project type -----------------------------------------------------------------------

  /** `sum(1 for keyword in keywords if keyword in text)`: at most one point per keyword, and a
      positive score exactly when some keyword occurs. */
  function Score(keywords: seq<string>, text: string): (score: nat)
    ensures score <= |keywords|
    ensures score > 0 <==> KeywordIn(keywords, text)
  {
    if keywords == [] then 0
    else (if Contains(text, keywords[0]) then 1 else 0) + Score(keywords[1..], text)
  }

  /** `t` is what the maximum-score choice should answer over `table`: the name with the highest
      positive score, the earliest in table order on a tie; 'cli' when nothing scores. */
  ghost predicate BestIn(table: seq<Pattern>, t: string, text: string)
  {
    (exists i :: 0 <= i < |table| && table[i].name == t && Score(table[i].keywords, text) > 0
       && (forall j :: 0 <= j < |table| ==> Score(table[j].keywords, text) <= Score(table[i].keywords, text))
       && (forall j :: 0 <= j < i ==> Score(table[j].keywords, text) < Score(table[i].keywords, text)))
    || (t == "cli" && forall j :: 0 <= j < |table| ==> Score(table[j].keywords, text) == 0)
  }

  /** What `_detect_project_type` should answer. */
  ghost predicate BestType(t: string, text: string)
  {
    BestIn(ProjectTypes, t, text)
  }

  /** A score table entry: project type and score. */
  datatype Scored = Scored(name: string, score: nat)

  /**
   * The body of `_detect_project_type` over a table: the `scores` dict collects the names with a
   * positive score in table order (the project types' names are distinct, so every assignment
   * adds a new key at the end); `max(scores, key=scores.get)` then keeps the first entry with the
   * largest score.
   */
  method MostHits(table: seq<Pattern>, text: string) returns (best: string)
    ensures BestIn(table, best, text)
  {
    var scores, origin := CollectScores(table, text);
    if scores == [] {
      return "cli";
    }
    var top := FirstMax(scores);
    best := scores[top].name;
    ghost var i := origin[top];
    forall j | 0 <= j < |table|
      ensures Score(table[j].keywords, text) <= Score(table[i].keywords, text)
      ensures j < i ==> Score(table[j].keywords, text) < Score(table[i].keywords, text)
    {
      if Score(table[j].keywords, text) > 0 {
        var l :| 0 <= l < |origin| && origin[l] == j;
        if j < i {
          assert l < top;
        }
      }
    }
  }

  /** The loop filling `scores`: one entry per name with a positive score, in table order;
      `origin` says which row each entry comes from. */
  method CollectScores(table: seq<Pattern>, text: string) returns (scores: seq<Scored>, ghost origin: seq<nat>)
    ensures |origin| == |scores|
    ensures forall k :: 0 <= k < |scores| ==>
      origin[k] < |table| && scores[k] == Scored(table[origin[k]].name, Score(table[origin[k]].keywords, text))
      && scores[k].score > 0
    ensures forall k, l :: 0 <= k < l < |scores| ==> origin[k] < origin[l]
    ensures forall j :: 0 <= j < |table| && Score(table[j].keywords, text) > 0 ==> j in origin
  {
    scores := [];
    origin := [];
    for i := 0 to |table|
      invariant |origin| == |scores|
      invariant forall k :: 0 <= k < |scores| ==>
        (origin[k] < i && scores[k] == Scored(table[origin[k]].name, Score(table[origin[k]].keywords, text))
         && scores[k].score > 0)
      invariant forall k, l :: 0 <= k < l < |scores| ==> origin[k] < origin[l]
      invariant forall j :: 0 <= j < i && Score(table[j].keywords, text) > 0 ==> j in origin
    {
      var score := Score(table[i].keywords, text);
      if score > 0 {
        scores := scores + [Scored(table[i].name, score)];
        origin := origin + [i];
      }
    }
  }

  /** `max(scores, key=scores.get)`: the first entry with the largest score. */
  method FirstMax(scores: seq<Scored>) returns (top: nat)
    requires scores != []
    ensures top < |scores|
    ensures forall l :: 0 <= l < |scores| ==> scores[l].score <= scores[top].score
    ensures forall l :: 0 <= l < top ==> scores[l].score < scores[top].score
  {
    top := 0;
    for k := 1 to |scores|
      invariant top < k
      invariant forall l :: 0 <= l < k ==> scores[l].score <= scores[top].score
      invariant forall l :: 0 <= l < top ==> scores[l].score < scores[top].score
    {
      if scores[k].score > scores[top].score {
        top := k;
      }
    }
  }


  /** `_detect_project_type` */
  method DetectProjectType(taskLower: string) returns (projectType: string)
    ensures BestType(projectType, taskLower)
  {
    projectType := MostHits(ProjectTypes, taskLower);
  }

  // ----- Repository name --------------------------------------------------------------------

  const Stopwords: set<string> :=
    {"erstelle", "create", "eine", "ein", "für", "for", "mit", "with", "und", "and", "das", "the"}

  /** Words whose presence in the task keeps the project type out of the name. */
  const NameHints: seq<string> := ["app", "tool", "system", "api"]

  /** The number of ASCII letters `s` starts with. */
  function LetterRun(s: string): (n: nat)
    ensures n <= |s| && forall i :: 0 <= i < n ==> IsLetter(s[i])
    ensures n < |s| ==> !IsLetter(s[n])
  {
    if s == [] || !IsLetter(s[0]) then 0
    else
      var n := LetterRun(s[1..]);
      assert forall i :: 1 <= i < n + 1 ==> s[i] == s[1..][i - 1];
      1 + n
  }

  /** `re.findall(r'[a-zA-Z]{3,}', s)`: the maximal runs of ASCII letters at least three long. */
  function LetterRuns(s: string): (runs: seq<string>)
    ensures forall k :: 0 <= k < |runs| ==> |runs[k]| >= 3
    ensures forall k, i :: 0 <= k < |runs| && 0 <= i < |runs[k]| ==> IsLetter(runs[k][i]) && runs[k][i] in s
    decreases |s|
  {
    if s == [] then []
    else if !IsLetter(s[0]) then
      var rest := LetterRuns(s[1..]);
      assert forall c :: c in s[1..] ==> c in s;
      rest
    else
      var n := LetterRun(s);
      var rest := LetterRuns(s[n..]);
      assert forall c :: c in s[n..] ==> c in s;
      assert forall i :: 0 <= i < n ==> s[..n][i] == s[i];
      (if n >= 3 then [s[..n]] else []) + rest
  }

  /** The list comprehension that drops stopwords, kept in order. */
  function KeptWords(words: seq<string>): (kept: seq<string>)
    ensures |kept| <= |words|
    ensures forall k :: 0 <= k < |kept| ==> kept[k] in words && kept[k] !in Stopwords
  {
    if words == [] then []
    else
      var front := KeptWords(words[..|words| - 1]);
      var last := words[|words| - 1];
      assert forall k :: 0 <= k < |front| ==> front[k] in words by {
        forall k | 0 <= k < |front| ensures front[k] in words {
          assert front[k] in words[..|words| - 1];
        }
      }
      if last in Stopwords then front else front + [last]
  }

  predicate IsNameChar(c: char) { 'a' <= c <= 'z' || '0' <= c <= '9' || c == '-' }

  /** `re.sub(r'[^a-z0-9-]', '', s)` */
  function CleanName(s: string): (r: string)
    ensures forall i :: 0 <= i < |r| ==> IsNameChar(r[i])
    ensures (forall i :: 0 <= i < |s| ==> IsNameChar(s[i])) ==> r == s
  {
    if s == [] then []
    else (if IsNameChar(s[0]) then [s[0]] else []) + CleanName(s[1..])
  }

  predicate HasNameHint(taskLower: string)
  {
    exists h :: 0 <= h < |NameHints| && Contains(taskLower, NameHints[h])
  }

  /** The parts `_generate_repo_name` joins: the first three kept words, then the project type
      with '-' for '_' unless the task mentions a hint word. */
  function NameParts(task: string, projectType: string): seq<string>
  {
    var words := KeptWords(LetterRuns(Lower(task)));
    Take(words, 3) + (if HasNameHint(Lower(task)) then [] else [ReplaceChar(projectType, '_', "-")])
  }

  /** What `_generate_repo_name` returns. */
  function RepoName(task: string, projectType: string): string
  {
    var name := CleanName(Lower(Join(Take(NameParts(task, projectType), 3), "-")));
    if name == "" then "my-project" else name
  }

  /** `_generate_repo_name`, with its stopword filter as the loop it is. */
  method GenerateRepoName(task: string, projectType: string) returns (repoName: string)
    ensures repoName == RepoName(task, projectType)
  {
    var runs := LetterRuns(Lower(task));
    var words: seq<string> := [];
    for i := 0 to |runs|
      invariant words == KeptWords(runs[..i])
    {
      assert runs[..i + 1][..i] == runs[..i];
      if runs[i] !in Stopwords {
        words := words + [runs[i]];
      }
    }
    assert runs[..|runs|] == runs;
    var nameParts := Take(words, 3);
    if !HasNameHint(Lower(task)) {
      nameParts := nameParts + [ReplaceChar(projectType, '_', "-")];
    }
    assert nameParts == NameParts(task, projectType);
    repoName := CleanName(Lower(Join(Take(nameParts, 3), "-")));
    if repoName == "" {
      repoName := "my-project";
    }
  }

  /** The name is never empty and uses only a-z, 0-9 and '-'. */
  lemma RepoNameWellFormed(task: string, projectType: string)
    ensures RepoName(task, projectType) != ""
    ensures forall i :: 0 <= i < |RepoName(task, projectType)| ==> IsNameChar(RepoName(task, projectType)[i])
  {
    var m := "my-project";
    assert forall i :: 0 <= i < |m| ==> IsNameChar(m[i]);
  }

  /** Every letter run of a lower-cased text is made of lower-case letters. */
  lemma RunsOfLowerAreLowercase(task: string)
    ensures forall k, i :: 0 <= k < |LetterRuns(Lower(task))| && 0 <= i < |LetterRuns(Lower(task))[k]|
              ==> IsLower(LetterRuns(Lower(task))[k][i])
  {
    var s := Lower(task);
    var runs := LetterRuns(s);
    forall k, i | 0 <= k < |runs| && 0 <= i < |runs[k]|
      ensures IsLower(runs[k][i])
    {
      var j :| 0 <= j < |s| && s[j] == runs[k][i];
      assert s[j] == LowerChar(task[j]);
    }
  }

  /** With three or more kept words the project type never reaches the name: it is exactly the
      first three kept words joined by '-'. */
  lemma ThreeWordsLeaveOutType(task: string, projectType: string)
    requires |KeptWords(LetterRuns(Lower(task)))| >= 3
    ensures RepoName(task, projectType) == Join(KeptWords(LetterRuns(Lower(task)))[..3], "-")
  {
    var runs := LetterRuns(Lower(task));
    var words := KeptWords(runs);
    var parts := words[..3];
    RunsOfLowerAreLowercase(task);
    assert Take(NameParts(task, projectType), 3) == parts;
    forall k, i | 0 <= k < |parts| && 0 <= i < |parts[k]|
      ensures IsLower(parts[k][i])
    {
      assert parts[k] in runs;
      var r :| 0 <= r < |runs| && runs[r] == parts[k];
    }
    var joined := Join(parts, "-");
    JoinKeeps(parts, "-", c => IsLower(c) || c == '-');
    LowerOfLowercase(joined);
    assert |parts[0]| >= 3 by {
      assert parts[0] in runs;
    }
    assert joined == parts[0] + "-" + Join(parts[1..], "-");
  }

  /** The stopword filter keeps exactly the words that are not stopwords. */
  lemma {:induction false} KeptWordsMembership(words: seq<string>, w: string)
    ensures w in KeptWords(words) <==> w in words && w !in Stopwords
    decreases |words|
  {
    if words != [] {
      var front := words[..|words| - 1];
      KeptWordsMembership(front, w);
      assert words == front + [words[|words| - 1]];
    }
  }

  /** The stopword filter works word by word, so it keeps the words' order. */
  lemma {:induction false} KeptWordsAppend(a: seq<string>, b: seq<string>)
    ensures KeptWords(a + b) == KeptWords(a) + KeptWords(b)
    decreases |b|
  {
    if b == [] {
      assert a + b == a;
    } else {
      var front := b[..|b| - 1];
      KeptWordsAppend(a, front);
      assert (a + b)[..|a + b| - 1] == a + front;
      assert (a + b)[|a + b| - 1] == b[|b| - 1];
    }
  }

  /** Every kept word of a task is made of lower-case ASCII letters and is at least three long. */
  lemma KeptWordsLowercase(task: string)
    ensures forall k, i :: 0 <= k < |KeptWords(LetterRuns(Lower(task)))| && 0 <= i < |KeptWords(LetterRuns(Lower(task)))[k]|
              ==> IsLower(KeptWords(LetterRuns(Lower(task)))[k][i])
    ensures forall k :: 0 <= k < |KeptWords(LetterRuns(Lower(task)))| ==> |KeptWords(LetterRuns(Lower(task)))[k]| >= 3
  {
    var runs := LetterRuns(Lower(task));
    var words := KeptWords(runs);
    RunsOfLowerAreLowercase(task);
    forall k | 0 <= k < |words|
      ensures |words[k]| >= 3 && forall i :: 0 <= i < |words[k]| ==> IsLower(words[k][i])
    {
      var r :| 0 <= r < |runs| && runs[r] == words[k];
    }
  }

  /** Name parts made of a-z, 0-9 and '-', the first of them non-empty, pass the lower-casing
      and the character filter unchanged, so the name is their join. */
  lemma CleanJoinedParts(parts: seq<string>)
    requires parts != [] && parts[0] != ""
    requires forall k, i :: 0 <= k < |parts| && 0 <= i < |parts[k]| ==> IsNameChar(parts[k][i])
    ensures CleanName(Lower(Join(parts, "-"))) == Join(parts, "-") != ""
  {
    var joined := Join(parts, "-");
    JoinKeeps(parts, "-", IsNameChar);
    LowerOfLowercase(joined);
    if |parts| > 1 {
      assert joined == parts[0] + "-" + Join(parts[1..], "-");
    }
  }

  /** A project type of a-z and '_' becomes, with '-' for '_', a non-empty run of name characters. */
  lemma {:induction false} DashedTypeIsName(projectType: string)
    requires forall i :: 0 <= i < |projectType| ==> IsLower(projectType[i]) || projectType[i] == '_'
    ensures forall i :: 0 <= i < |ReplaceChar(projectType, '_', "-")| ==> IsNameChar(ReplaceChar(projectType, '_', "-")[i])
    ensures projectType != "" ==> ReplaceChar(projectType, '_', "-") != ""
  {
    if projectType != [] {
      var rest := projectType[1..];
      DashedTypeIsName(rest);
      var head := if projectType[0] == '_' then "-" else [projectType[0]];
      assert ReplaceChar(projectType, '_', "-") == head + ReplaceChar(rest, '_', "-");
    }
  }

  /** When the lower-cased task contains app, tool, system or api, the project type plays no part:
      the name is the first (up to) three kept words joined by '-', or `my-project` without any. */
  lemma HintLeavesOutType(task: string, projectType: string, otherType: string)
    requires HasNameHint(Lower(task))
    ensures var words := KeptWords(LetterRuns(Lower(task)));
      RepoName(task, projectType) == if words == [] then "my-project" else Join(Take(words, 3), "-")
    ensures RepoName(task, projectType) == RepoName(task, otherType)
  {
    var words := KeptWords(LetterRuns(Lower(task)));
    assert NameParts(task, projectType) == Take(words, 3) == NameParts(task, otherType);
    assert Take(Take(words, 3), 3) == Take(words, 3);
    if words == [] {
      assert Join(Take(words, 3), "-") == "";
      assert CleanName(Lower("")) == "";
    } else {
      KeptWordsLowercase(task);
      CleanJoinedParts(Take(words, 3));
    }
  }

  /** Without a hint and with fewer than three kept words the project type, with '-' for '_', is
      the last name part; for a type of a-z and '_' the name is exactly the words then the type. */
  lemma FewWordsKeepType(task: string, projectType: string)
    requires !HasNameHint(Lower(task))
    requires |KeptWords(LetterRuns(Lower(task)))| < 3
    ensures NameParts(task, projectType)
              == KeptWords(LetterRuns(Lower(task))) + [ReplaceChar(projectType, '_', "-")]
    ensures (projectType != "" && forall i :: 0 <= i < |projectType| ==> IsLower(projectType[i]) || projectType[i] == '_')
      ==> RepoName(task, projectType)
            == Join(KeptWords(LetterRuns(Lower(task))) + [ReplaceChar(projectType, '_', "-")], "-")
  {
    var words := KeptWords(LetterRuns(Lower(task)));
    var parts := words + [ReplaceChar(projectType, '_', "-")];
    assert Take(words, 3) == words;
    assert Take(parts, 3) == parts;
    if projectType != "" && (forall i :: 0 <= i < |projectType| ==> IsLower(projectType[i]) || projectType[i] == '_') {
      DashedTypeIsName(projectType);
      KeptWordsLowercase(task);
      forall k, i | 0 <= k < |parts| && 0 <= i < |parts[k]|
        ensures IsNameChar(parts[k][i])
      {
        if k < |words| {
          assert IsLower(words[k][i]);
        }
      }
      CleanJoinedParts(parts);
    }
  }

  // ----- Description, folders, dependencies -------------------------------------------------

  /** The untruncated description: the task up to its first '.', stripped, then the language
      capitalised and the project type with spaces for '_'. */
  function FullDescription(task: string, language: string, projectType: string): string
  {
    Strip(BeforeFirst(task, '.')) + " - " + Capitalize(language) + " "
    + ReplaceChar(projectType, '_', " ")
  }

  /** `_generate_description`: cut to GitHub's 150-character limit. */
  function Description(task: string, language: string, projectType: string): (d: string)
    ensures |d| <= 150
    ensures StartsWith(FullDescription(task, language, projectType), d)
    ensures |d| == 150 || d == FullDescription(task, language, projectType)
  {
    Take(FullDescription(task, language, projectType), 150)
  }

  /** `_plan_folder_structure` */
  function PlanFolders(language: string, projectType: string): (folders: seq<string>)
    ensures |folders| > 0 && NoDuplicates(folders)
  {
    if language == "python" then
      if projectType == "library" then ["src", "tests", "docs"]
      else if projectType == "web_app" then ["app", "templates", "static", "tests"]
      else if projectType == "data_science" then ["notebooks", "data", "scripts", "models"]
      else if projectType == "api" then ["api", "models", "tests", "config"]
      else ["src", "tests"]
    else if language in {"javascript", "typescript"} then
      if projectType == "web_app" then ["src", "public", "components", "utils", "tests"]
      else if projectType == "api" then ["src", "routes", "controllers", "models", "middleware", "tests"]
      else ["src", "dist", "tests"]
    else if language == "java" then ["src/main/java", "src/main/resources", "src/test/java"]
    else if language == "go" then ["cmd", "pkg", "internal", "api"]
    else ["src", "tests"]
  }

  /** The web framework of a Python web app: Flask before Django before FastAPI. */
  function WebFramework(text: string): seq<string>
  {
    if Contains(text, "flask") then ["flask", "flask-cors"]
    else if Contains(text, "django") then ["django"]
    else if Contains(text, "fastapi") then ["fastapi", "uvicorn"]
    else []
  }

  /** The front-end or server framework of a JavaScript project: React before Vue before Express. */
  function ScriptFramework(text: string): seq<string>
  {
    if Contains(text, "react") then ["react", "react-dom"]
    else if Contains(text, "vue") then ["vue"]
    else if Contains(text, "express") then ["express"]
    else []
  }

  /** The dependency list of a Python project, group by group. */
  function PythonDependencies(projectType: string, text: string): seq<string>
  {
    ["pytest"]
    + (if projectType == "web_app" then WebFramework(text) else [])
    + (if projectType == "data_science" then ["pandas", "numpy", "matplotlib", "jupyter"] else [])
    + (if Contains(text, "database") || Contains(text, "db") then ["sqlalchemy"] else [])
    + (if Contains(text, "api") then ["requests"] else [])
  }

  /** The dependency list `_get_dependencies` builds. */
  function Dependencies(language: string, projectType: string, text: string): seq<string>
  {
    if language == "python" then PythonDependencies(projectType, text)
    else if language in {"javascript", "typescript"} then
      ScriptFramework(text) + (if language == "typescript" then ["typescript", "@types/node"] else [])
    else []
  }

  /** `_get_dependencies` */
  method GetDependencies(language: string, projectType: string, taskLower: string)
    returns (deps: seq<string>)
    ensures deps == Dependencies(language, projectType, taskLower)
  {
    deps := [];
    if language == "python" {
      deps := ["pytest"];
      if projectType == "web_app" {
        if Contains(taskLower, "flask") {
          deps := deps + ["flask", "flask-cors"];
        } else if Contains(taskLower, "django") {
          deps := deps + ["django"];
        } else if Contains(taskLower, "fastapi") {
          deps := deps + ["fastapi", "uvicorn"];
        }
      }
      ghost var web := if projectType == "web_app" then WebFramework(taskLower) else [];
      assert deps == ["pytest"] + web;
      if projectType == "data_science" {
        deps := deps + ["pandas", "numpy", "matplotlib", "jupyter"];
      }
      ghost var data := if projectType == "data_science" then ["pandas", "numpy", "matplotlib", "jupyter"] else [];
      assert deps == ["pytest"] + web + data;
      if Contains(taskLower, "database") || Contains(taskLower, "db") {
        deps := deps + ["sqlalchemy"];
      }
      ghost var db := if Contains(taskLower, "database") || Contains(taskLower, "db") then ["sqlalchemy"] else [];
      assert deps == ["pytest"] + web + data + db;
      if Contains(taskLower, "api") {
        deps := deps + ["requests"];
      }
    } else if language in {"javascript", "typescript"} {
      deps := [];
      if Contains(taskLower, "react") {
        deps := deps + ["react", "react-dom"];
      } else if Contains(taskLower, "vue") {
        deps := deps + ["vue"];
      } else if Contains(taskLower, "express") {
        deps := deps + ["express"];
      }
      assert deps == ScriptFramework(taskLower);
      if language == "typescript" {
        deps := deps + ["typescript", "@types/node"];
      }
    }
  }

  /** The Python list as its five groups. */
  lemma PythonGroups(projectType: string, text: string)
    ensures Dependencies("python", projectType, text)
         == ["pytest"] + (if projectType == "web_app" then WebFramework(text) else [])
            + (if projectType == "data_science" then ["pandas", "numpy", "matplotlib", "jupyter"] else [])
            + (if Contains(text, "database") || Contains(text, "db") then ["sqlalchemy"] else [])
            + (if Contains(text, "api") then ["requests"] else [])
  {
  }

  /** Python: the web framework is the first of Flask, Django, FastAPI the task names, and only
      for web apps. */
  lemma PythonFrameworkRule(projectType: string, text: string)
    ensures var deps := Dependencies("python", projectType, text);
      && |deps| > 0 && deps[0] == "pytest"
      && ("flask" in deps <==> projectType == "web_app" && Contains(text, "flask"))
      && ("django" in deps <==> projectType == "web_app" && !Contains(text, "flask") && Contains(text, "django"))
      && ("fastapi" in deps <==> projectType == "web_app" && !Contains(text, "flask")
                                 && !Contains(text, "django") && Contains(text, "fastapi"))
  {
    PythonGroups(projectType, text);
  }

  /** Python: the data-science stack only for data science; SQLAlchemy exactly when the task
      mentions a database, Requests exactly when it mentions an API. */
  lemma PythonExtrasRule(projectType: string, text: string)
    ensures var deps := Dependencies("python", projectType, text);
      && ("pandas" in deps <==> projectType == "data_science")
      && ("sqlalchemy" in deps <==> Contains(text, "database") || Contains(text, "db"))
      && ("requests" in deps <==> Contains(text, "api"))
  {
    PythonGroups(projectType, text);
    var web := if projectType == "web_app" then WebFramework(text) else [];
    assert "pandas" !in web && "sqlalchemy" !in web && "requests" !in web;
  }

  /** No Python dependency is listed twice. */
  lemma PythonDependenciesDistinct(projectType: string, text: string)
    ensures NoDuplicates(Dependencies("python", projectType, text))
  {
    PythonGroups(projectType, text);
  }

  /** JavaScript and TypeScript: at most one framework, React before Vue before Express;
      TypeScript projects end with 'typescript' and '@types/node'. */
  lemma ScriptDependencyRules(language: string, text: string)
    requires language in {"javascript", "typescript"}
    ensures var deps := Dependencies(language, "", text);
      && ("react" in deps <==> Contains(text, "react"))
      && ("vue" in deps <==> !Contains(text, "react") && Contains(text, "vue"))
      && ("express" in deps <==> !Contains(text, "react") && !Contains(text, "vue") && Contains(text, "express"))
      && ("typescript" in deps <==> language == "typescript")
      && (language == "typescript" ==> |deps| >= 2 && deps[|deps| - 2..] == ["typescript", "@types/node"])
      && NoDuplicates(deps)
  {
    ScriptMembership(language, text);
    ScriptTail(language, text);
    ScriptDistinct(language, text);
  }

  /** Which framework and whether the TypeScript pair is listed. */
  lemma ScriptMembership(language: string, text: string)
    requires language in {"javascript", "typescript"}
    ensures var deps := Dependencies(language, "", text);
      && ("react" in deps <==> Contains(text, "react"))
      && ("vue" in deps <==> !Contains(text, "react") && Contains(text, "vue"))
      && ("express" in deps <==> !Contains(text, "react") && !Contains(text, "vue") && Contains(text, "express"))
      && ("typescript" in deps <==> language == "typescript")
  {
    var fw := ScriptFramework(text);
    ScriptFrameworkFacts(text);
    assert |"typescript"| == 10;
    if language == "typescript" {
      var tail := ["typescript", "@types/node"];
      assert Dependencies(language, "", text) == fw + tail;
      InAppend("react", fw, tail);
      InAppend("vue", fw, tail);
      InAppend("express", fw, tail);
      InAppend("typescript", fw, tail);
    }
  }

  /** A TypeScript list ends with the TypeScript pair. */
  lemma ScriptTail(language: string, text: string)
    requires language in {"javascript", "typescript"}
    ensures var deps := Dependencies(language, "", text);
      language == "typescript" ==> |deps| >= 2 && deps[|deps| - 2..] == ["typescript", "@types/node"]
  {
  }

  /** No JavaScript or TypeScript dependency is listed twice. */
  lemma ScriptDistinct(language: string, text: string)
    requires language in {"javascript", "typescript"}
    ensures NoDuplicates(Dependencies(language, "", text))
  {
    var fw := ScriptFramework(text);
    ScriptFrameworkFacts(text);
    if language == "typescript" {
      var tail := ["typescript", "@types/node"];
      assert Dependencies(language, "", text) == fw + tail;
      assert |tail[0]| == 10 && |tail[1]| == 11;
      DistinctAppend(fw, tail);
    }
  }

  /** The framework group: React before Vue before Express, at most one of them, every name
      shorter than ten characters. */
  lemma ScriptFrameworkFacts(text: string)
    ensures var fw := ScriptFramework(text);
      && ("react" in fw <==> Contains(text, "react"))
      && ("vue" in fw <==> !Contains(text, "react") && Contains(text, "vue"))
      && ("express" in fw <==> !Contains(text, "react") && !Contains(text, "vue") && Contains(text, "express"))
      && NoDuplicates(fw)
      && forall w :: w in fw ==> |w| < 10
  {
  }

  lemma InAppend(w: string, a: seq<string>, b: seq<string>)
    ensures w in a + b <==> w in a || w in b
  {
  }

  /** Two duplicate-free lists without a common element append to a duplicate-free list. */
  lemma DistinctAppend(a: seq<string>, b: seq<string>)
    requires NoDuplicates(a) && NoDuplicates(b)
    requires forall w :: w in a ==> w !in b
    ensures NoDuplicates(a + b)
  {
    forall i, j | 0 <= i < j < |a + b|
      ensures (a + b)[i] != (a + b)[j]
    {
      if i < |a| && j >= |a| {
        assert (a + b)[i] in a && (a + b)[j] in b;
      }
    }
  }

  /** Languages other than Python, JavaScript and TypeScript get no dependencies, whatever the
      project type. */
  lemma OtherLanguagesHaveNoDependencies(language: string, projectType: string, text: string)
    requires language !in {"python", "javascript", "typescript"}
    ensures Dependencies(language, projectType, text) == []
  {
  }

  /** For JavaScript and TypeScript the project type plays no part. */
  lemma ScriptDependenciesIgnoreType(language: string, projectType: string, text: string)
    requires language in {"javascript", "typescript"}
    ensures Dependencies(language, projectType, text) == Dependencies(language, "", text)
  {
  }

  // ----- Features and the whole plan --------------------------------------------------------

  datatype FeatureRule = FeatureRule(keyword: string, feature: string)

  /** The `feature_keywords` dict of `extract_features`, in its order. */
  const FeatureRules: seq<FeatureRule> := [
    FeatureRule("login", "User Authentication"), FeatureRule("auth", "Authentication"),
    FeatureRule("database", "Database Integration"), FeatureRule("api", "REST API"),
    FeatureRule("test", "Unit Tests"), FeatureRule("docker", "Docker Support"),
    FeatureRule("cloud", "Cloud Deployment"), FeatureRule("ci/cd", "CI/CD Pipeline")
  ]

  /** The features of `rules` whose keyword occurs in `text`, in rule order. */
  function Matched(rules: seq<FeatureRule>, text: string): seq<string>
  {
    if rules == [] then []
    else
      var last := rules[|rules| - 1];
      Matched(rules[..|rules| - 1], text) + (if Contains(text, last.keyword) then [last.feature] else [])
  }

  /** `extract_features` */
  method ExtractFeatures(task: string) returns (features: seq<string>)
    ensures features == Matched(FeatureRules, Lower(task))
  {
    var taskLower := Lower(task);
    features := [];
    for i := 0 to |FeatureRules|
      invariant features == Matched(FeatureRules[..i], taskLower)
    {
      assert FeatureRules[..i + 1][..i] == FeatureRules[..i];
      if Contains(taskLower, FeatureRules[i].keyword) {
        features := features + [FeatureRules[i].feature];
      }
    }
    assert FeatureRules[..|FeatureRules|] == FeatureRules;
  }

  /** A feature is listed exactly when one of its rules' keywords occurs in the text. */
  lemma {:induction false} MatchedMembership(rules: seq<FeatureRule>, text: string, f: string)
    ensures f in Matched(rules, text)
            <==> exists i :: 0 <= i < |rules| && rules[i].feature == f && Contains(text, rules[i].keyword)
  {
    if rules != [] {
      var front := rules[..|rules| - 1];
      MatchedMembership(front, text, f);
      if exists i :: 0 <= i < |front| && front[i].feature == f && Contains(text, front[i].keyword) {
        var i :| 0 <= i < |front| && front[i].feature == f && Contains(text, front[i].keyword);
        assert rules[i] == front[i];
      }
      if exists i :: 0 <= i < |rules| && rules[i].feature == f && Contains(text, rules[i].keyword) {
        var i :| 0 <= i < |rules| && rules[i].feature == f && Contains(text, rules[i].keyword);
        if i < |front| {
          assert front[i] == rules[i];
        }
      }
    }
  }

  /** Matched features come each from a different rule, in rule order: with distinct feature
      names in the rules, no feature is listed twice. */
  lemma {:induction false} MatchedDistinct(rules: seq<FeatureRule>, text: string)
    requires forall i, j :: 0 <= i < j < |rules| ==> rules[i].feature != rules[j].feature
    ensures NoDuplicates(Matched(rules, text))
  {
    if rules != [] {
      var front := rules[..|rules| - 1];
      var last := rules[|rules| - 1];
      MatchedDistinct(front, text);
      if Contains(text, last.keyword) {
        forall i | 0 <= i < |Matched(front, text)|
          ensures Matched(front, text)[i] != last.feature
        {
          var f := Matched(front, text)[i];
          MatchedMembership(front, text, f);
          var k :| 0 <= k < |front| && front[k].feature == f && Contains(text, front[k].keyword);
          assert rules[k] == front[k];
        }
      }
    }
  }

  /** `extract_features` lists each matched feature once. */
  lemma FeaturesDistinct(task: string)
    ensures NoDuplicates(Matched(FeatureRules, Lower(task)))
  {
    MatchedDistinct(FeatureRules, Lower(task));
  }

  /** `parse_task` */
  method ParseTask(task: string) returns (plan: ProjectPlan)
    ensures plan.language == DetectLanguage(Lower(task))
    ensures BestType(plan.projectType, Lower(task))
    ensures plan.repoName == RepoName(task, plan.projectType)
    ensures plan.description == Description(task, plan.language, plan.projectType)
    ensures plan.folders == PlanFolders(plan.language, plan.projectType) && |plan.folders| > 0
    ensures plan.dependencies == Dependencies(plan.language, plan.projectType, Lower(task))
    ensures plan.gitignoreTemplate == GetOr(GitignoreTemplates, plan.language, "")
    ensures plan.files == map[] && plan.license == "MIT"
  {
    var taskLower := Lower(task);
    var language := DetectLanguage(taskLower);
    var projectType := DetectProjectType(taskLower);
    var repoName := GenerateRepoName(task, projectType);
    var description := Description(task, language, projectType);
    var folders := PlanFolders(language, projectType);
    var dependencies := GetDependencies(language, projectType, taskLower);
    var gitignore := GetOr(GitignoreTemplates, language, "");
    plan := ProjectPlan(repoName, description, language, projectType, map[], folders,
                        dependencies, gitignore, "MIT");
  }
}
