/**
 * The code generator: from a project plan to the map from file path to file content that is
 * pushed as the new repository. Later steps overwrite earlier ones on a key clash, as
 * `dict.update` and item assignment do; the `.gitkeep` files of the planned folders come last.
 */
module CodeGenerator {
  import opened Outcomes
  import opened Text
  import opened OrderedDict
  import opened TaskParser
  import opened CodeTemplates
  import Json

  // ----- Lookups --------------------------------------------------------------------------------

  const LanguageRequirements: map<string, string> := map[
    "python" := "Python 3.8+", "javascript" := "Node.js 16+",
    "typescript" := "Node.js 16+ and TypeScript", "java" := "Java 17+", "go" := "Go 1.21+",
    "rust" := "Rust 1.70+", "ruby" := "Ruby 3.0+", "php" := "PHP 8.0+"]

  const SetupActions: map<string, string> := map[
    "python" := "python", "javascript" := "node", "typescript" := "node", "java" := "java",
    "go" := "go"]

  const InstallCommands: map<string, string> := map[
    "python" := "pip install -r requirements.txt", "javascript" := "npm install",
    "typescript" := "npm install", "java" := "mvn install", "go" := "go mod download"]

  const TestCommands: map<string, string> := map[
    "python" := "pytest", "javascript" := "npm test", "typescript" := "npm test",
    "java" := "mvn test", "go" := "go test ./..."]

  /** `_get_language_requirement` */
  function LanguageRequirement(language: string): string
  {
    GetOr(LanguageRequirements, language, Capitalize(language))
  }

  /** `_get_setup_action` */
  function SetupAction(language: string): string { GetOr(SetupActions, language, "node") }

  /** `_get_install_command` */
  function InstallCommand(language: string): string
  {
    GetOr(InstallCommands, language, "echo \"No install command\"")
  }

  /** `_get_test_command` */
  function TestCommand(language: string): string
  {
    GetOr(TestCommands, language, "echo \"No test command\"")
  }

  /** A language without a CI entry is set up as a Node project with placeholder commands; one
      without a requirement entry is named by its capitalised name. */
  lemma LookupDefaults(language: string)
    ensures language !in {"python", "javascript", "typescript", "java", "go"} ==>
      SetupAction(language) == "node"
      && InstallCommand(language) == "echo \"No install command\""
      && TestCommand(language) == "echo \"No test command\""
    ensures language !in {"python", "javascript", "typescript", "java", "go", "rust", "ruby", "php"}
      ==> LanguageRequirement(language) == Capitalize(language)
  {
  }

  /** JavaScript and TypeScript share their CI setup, install and test steps. */
  lemma ScriptLanguagesShareTooling()
    ensures SetupAction("javascript") == SetupAction("typescript") == "node"
    ensures InstallCommand("javascript") == InstallCommand("typescript") == "npm install"
    ensures TestCommand("javascript") == TestCommand("typescript") == "npm test"
  {
  }

  // ----- Single files -----------------------------------------------------------------------------

  /** `_generate_readme` */
  function Readme(plan: ProjectPlan, t: Templates): string
  {
    ReadmeTitle(plan) + "\n" + ReadmeBody(plan, t)
  }

  /** The first lines of the README: the repository name as its title, then the description. */
  function ReadmeTitle(plan: ProjectPlan): string
  {
    "# " + plan.repoName + "\n\n" + plan.description + "\n"
  }

  /** The README from its feature list on: installation only when there are dependencies,
      install and test commands for Python and for JavaScript/TypeScript, the licence last. */
  function ReadmeBody(plan: ProjectPlan, t: Templates): string
  {
    var install :=
      if plan.dependencies == [] then ""
      else "\n## \U{1f527} Installation\n\n"
           + (if plan.language == "python" then t.pipInstall
              else if plan.language in {"javascript", "typescript"} then t.npmInstall
              else "");
    var testing :=
      if plan.language == "python" then t.pytestRun
      else if plan.language in {"javascript", "typescript"} then t.npmTestRun
      else "";
    "## \U{1f680} Features\n\n- Modern " + Capitalize(plan.language) + " "
    + ReplaceChar(plan.projectType, '_', " ") + "\n"
    + t.readmeFeatureLines + "- " + LanguageRequirement(plan.language) + "\n"
    + install + t.readmeUsage + testing
    + "\n## \U{1f4dd} License\n\n" + plan.license + t.readmeAuthor
  }

  /** The README opens with the repository name as its title, then the description. */
  lemma ReadmeOpensWithTitle(plan: ProjectPlan, t: Templates)
    ensures StartsWith(Readme(plan, t), "# " + plan.repoName + "\n\n" + plan.description + "\n")
  {
    var title := ReadmeTitle(plan);
    assert Readme(plan, t) == title + ("\n" + ReadmeBody(plan, t));
  }

  /** `_generate_license` */
  function License(licenseType: string, t: Templates): (text: string)
    ensures licenseType != "MIT" ==> text == ""
    ensures licenseType == "MIT" ==> text == t.mitLicense
  {
    if licenseType == "MIT" then t.mitLicense else ""
  }

  /** `_generate_requirements` */
  function Requirements(dependencies: seq<string>): string
  {
    Join(dependencies, "\n")
  }

  /** `requirements.txt` lists the dependencies one per line, in order: splitting it at the line
      breaks gives them back. */
  lemma RequirementsLines(dependencies: seq<string>)
    requires dependencies != [] && forall i :: 0 <= i < |dependencies| ==> '\n' !in dependencies[i]
    ensures Split(Requirements(dependencies), '\n') == dependencies
  {
    SplitJoin(dependencies, '\n');
  }

  /** The `dependencies` dict of `package.json` after the loop has put `"^latest"` under each
      dependency in turn. */
  function Pinned(dependencies: seq<string>): (d: seq<Entry<string, string>>)
    ensures Valid(d)
  {
    if dependencies == [] then []
    else
      var front := Pinned(dependencies[..|dependencies| - 1]);
      PutFacts(front, dependencies[|dependencies| - 1], "^latest");
      Put(front, dependencies[|dependencies| - 1], "^latest")
  }

  /** Every dependency, and nothing else, maps to `"^latest"`. */
  lemma {:induction false} PinnedValues(dependencies: seq<string>, k: string)
    ensures Get(Pinned(dependencies), k) == if k in dependencies then Some("^latest") else None
  {
    if dependencies != [] {
      var front := dependencies[..|dependencies| - 1];
      var last := dependencies[|dependencies| - 1];
      PinnedValues(front, k);
      PinnedStep(dependencies);
      LastAndFront(dependencies, k);
      PutGet(Pinned(front), last, "^latest");
    }
  }

  lemma PinnedStep(dependencies: seq<string>)
    requires dependencies != []
    ensures Pinned(dependencies)
         == Put(Pinned(dependencies[..|dependencies| - 1]), dependencies[|dependencies| - 1], "^latest")
  {
  }

  lemma LastAndFront(s: seq<string>, k: string)
    requires s != []
    ensures k in s <==> k in s[..|s| - 1] || k == s[|s| - 1]
  {
    assert s == s[..|s| - 1] + [s[|s| - 1]];
  }

  /** Without repeated dependencies the keys of the dict keep the dependencies' order. */
  lemma {:induction false} PinnedKeys(dependencies: seq<string>)
    requires NoDuplicates(dependencies)
    ensures Keys(Pinned(dependencies)) == dependencies
  {
    if dependencies != [] {
      var front := dependencies[..|dependencies| - 1];
      var last := dependencies[|dependencies| - 1];
      PinnedKeys(front);
      PinnedStep(dependencies);
      LastAndFront(dependencies, last);
      assert last !in front;
      PutKeys(Pinned(front), last, "^latest");
    }
  }

  /** The dict `_generate_package_json` dumps, with `dependencies` as its dependency dict. */
  function PackageValue(plan: ProjectPlan, dependencies: seq<Entry<string, string>>): Json.Value
  {
    Json.Dict([
      Json.Member("name", Json.Str(plan.repoName)),
      Json.Member("version", Json.Str("1.0.0")),
      Json.Member("description", Json.Str(plan.description)),
      Json.Member("main", Json.Str(if plan.language == "javascript" then "src/index.js" else "dist/index.js")),
      Json.Member("scripts", Json.Dict([
        Json.Member("start", Json.Str("node src/index.js")),
        Json.Member("test", Json.Str("jest")),
        Json.Member("build", Json.Str(if plan.language == "typescript" then "tsc" else "echo 'No build step'"))])),
      Json.Member("keywords", Json.List([Json.Str(plan.projectType)])),
      Json.Member("author", Json.Str("")),
      Json.Member("license", Json.Str(plan.license)),
      Json.Member("dependencies", Json.Dict(
        seq(|dependencies|, i requires 0 <= i < |dependencies| =>
          Json.Member(dependencies[i].key, Json.Str(dependencies[i].value))))),
      Json.Member("devDependencies", Json.Dict([Json.Member("jest", Json.Str("^29.0.0"))]))])
  }

  /** `_generate_package_json` */
  method GeneratePackageJson(plan: ProjectPlan) returns (text: string)
    ensures text == Json.Dumps(PackageValue(plan, Pinned(plan.dependencies)))
    ensures Json.IsAsciiText(text)
  {
    var dependencies: seq<Entry<string, string>> := [];
    for i := 0 to |plan.dependencies|
      invariant dependencies == Pinned(plan.dependencies[..i])
    {
      assert plan.dependencies[..i + 1][..i] == plan.dependencies[..i];
      dependencies := Put(dependencies, plan.dependencies[i], "^latest");
    }
    assert plan.dependencies[..|plan.dependencies|] == plan.dependencies;
    text := Json.Dumps(PackageValue(plan, dependencies));
    Json.RenderIsAscii(PackageValue(plan, dependencies), 0);
  }

  /** `_generate_pom_xml` */
  function PomXml(repoName: string, t: Templates): string { t.pomHead + repoName + t.pomTail }

  /** `_generate_go_mod` */
  function GoMod(repoName: string, t: Templates): string
  {
    "module github.com/username/" + repoName + "\n\n" + t.goModTail
  }

  /** The CI workflow of `_generate_config_files`. */
  function CiWorkflow(language: string, t: Templates): string
  {
    t.ciHead + language + "\n      uses: actions/setup-" + SetupAction(language) + "@v3\n    \n"
    + "    - name: Install dependencies\n      run: " + InstallCommand(language) + "\n    \n"
    + "    - name: Run tests\n      run: " + TestCommand(language) + "\n"
  }

  const CiPath := ".github/workflows/ci.yml"

  // ----- File groups -------------------------------------------------------------------------------

  /** `name in [d.lower() for d in dependencies]` */
  predicate HasDependency(dependencies: seq<string>, name: string)
  {
    exists i :: 0 <= i < |dependencies| && Lower(dependencies[i]) == name
  }

  /** `_generate_python_code` */
  function PythonCode(plan: ProjectPlan, t: Templates): map<string, string>
  {
    if plan.projectType == "web_app" then
      if HasDependency(plan.dependencies, "flask") then
        map["app/main.py" := t.flaskMain, "app/templates/index.html" := t.flaskIndexHtml]
      else map[]
    else if plan.projectType == "cli" then map["src/main.py" := t.cliMain]
    else if plan.projectType == "api" then
      if HasDependency(plan.dependencies, "fastapi") then map["api/main.py" := t.fastApiMain] else map[]
    else map["src/__init__.py" := "", "src/main.py" := t.genericMain]
  }

  /** The Python files follow the project type: a CLI gets exactly `src/main.py`; a web app or an
      API without its framework among the dependencies gets nothing; every other type gets an
      empty `src/__init__.py` and `src/main.py`. */
  lemma PythonCodeFiles(plan: ProjectPlan, t: Templates)
    ensures plan.projectType == "cli" ==> PythonCode(plan, t).Keys == {"src/main.py"}
    ensures plan.projectType == "web_app" ==>
      PythonCode(plan, t).Keys == if HasDependency(plan.dependencies, "flask")
                               then {"app/main.py", "app/templates/index.html"} else {}
    ensures plan.projectType == "api" ==>
      PythonCode(plan, t).Keys == if HasDependency(plan.dependencies, "fastapi") then {"api/main.py"} else {}
    ensures plan.projectType !in {"cli", "web_app", "api"} ==>
      PythonCode(plan, t).Keys == {"src/__init__.py", "src/main.py"}
      && PythonCode(plan, t)["src/__init__.py"] == ""
  {
  }

  /** The extension of JavaScript and TypeScript sources. */
  function ScriptExtension(language: string): string
  {
    if language == "typescript" then "ts" else "js"
  }

  /** `_generate_js_code` */
  function ScriptCode(plan: ProjectPlan, t: Templates): map<string, string>
  {
    var ext := ScriptExtension(plan.language);
    var code :=
      if plan.projectType == "web_app" && HasDependency(plan.dependencies, "react") then
        map["src/App." + ext := t.reactApp, "src/index." + ext := t.reactIndex]
      else if plan.projectType == "api" && HasDependency(plan.dependencies, "express") then
        map["src/index." + ext := t.expressIndex]
      else map["src/index." + ext := t.helloIndex];
    if plan.language == "typescript" then code["tsconfig.json" := t.tsConfig] else code
  }

  /** Every JavaScript or TypeScript project has an entry point `src/index.<ext>`, with `ts` exactly
      for TypeScript; `tsconfig.json` exactly for TypeScript. */
  lemma ScriptCodeFiles(plan: ProjectPlan, t: Templates)
    ensures "src/index." + ScriptExtension(plan.language) in ScriptCode(plan, t)
    ensures ScriptExtension(plan.language) == "ts" <==> plan.language == "typescript"
    ensures "tsconfig.json" in ScriptCode(plan, t) <==> plan.language == "typescript"
  {
    var ext := ScriptExtension(plan.language);
    assert ("src/App." + ext)[4] == 'A' && ("src/index." + ext)[4] == 'i';
    assert "tsconfig.json"[0] == 't';
  }

  /** `_generate_main_code` */
  function MainCode(plan: ProjectPlan, t: Templates): map<string, string>
  {
    if plan.language == "python" then PythonCode(plan, t)
    else if plan.language in {"javascript", "typescript"} then ScriptCode(plan, t)
    else if plan.language == "java" then map["src/main/java/com/example/Main.java" := t.javaMain]
    else if plan.language == "go" then map["cmd/main.go" := t.goMain]
    else map[]
  }

  /** `_generate_test_files` */
  function TestFiles(plan: ProjectPlan, t: Templates): map<string, string>
  {
    if plan.language == "python" then map["tests/test_main.py" := t.pythonTest]
    else if plan.language in {"javascript", "typescript"} then
      map["tests/main.test." + ScriptExtension(plan.language) := t.jsTest]
    else map[]
  }

  /** The main code of `_generate_main_code` by language: Java and Go get their one entry point,
      languages without a generator get nothing. */
  lemma MainCodeKeys(plan: ProjectPlan, t: Templates)
    ensures plan.language == "python" ==> MainCode(plan, t) == PythonCode(plan, t)
    ensures plan.language in {"javascript", "typescript"} ==> MainCode(plan, t) == ScriptCode(plan, t)
    ensures plan.language == "java" ==>
      MainCode(plan, t).Keys == {"src/main/java/com/example/Main.java"}
      && MainCode(plan, t)["src/main/java/com/example/Main.java"] == t.javaMain
    ensures plan.language == "go" ==>
      MainCode(plan, t).Keys == {"cmd/main.go"} && MainCode(plan, t)["cmd/main.go"] == t.goMain
    ensures plan.language !in {"python", "javascript", "typescript", "java", "go"} ==> MainCode(plan, t) == map[]
  {
  }

  /** The tests of `_generate_test_files`: `tests/test_main.py` for Python, `tests/main.test.js`
      and `tests/main.test.ts` for JavaScript and TypeScript, none for the other languages. */
  lemma TestFilesKeys(plan: ProjectPlan, t: Templates)
    ensures plan.language == "python" ==> TestFiles(plan, t).Keys == {"tests/test_main.py"}
    ensures plan.language == "javascript" ==> TestFiles(plan, t).Keys == {"tests/main.test.js"}
    ensures plan.language == "typescript" ==> TestFiles(plan, t).Keys == {"tests/main.test.ts"}
    ensures plan.language !in {"python", "javascript", "typescript"} ==> TestFiles(plan, t) == map[]
    ensures forall k :: k in TestFiles(plan, t) ==>
      TestFiles(plan, t)[k] == if plan.language == "python" then t.pythonTest else t.jsTest
  {
    assert "tests/main.test." + "js" == "tests/main.test.js";
    assert "tests/main.test." + "ts" == "tests/main.test.ts";
  }

  /** The manifest of the plan's language: at most one file. */
  function Manifest(plan: ProjectPlan, packageJson: string, t: Templates): map<string, string>
  {
    if plan.language == "python" then map["requirements.txt" := Requirements(plan.dependencies)]
    else if plan.language in {"javascript", "typescript"} then map["package.json" := packageJson]
    else if plan.language == "java" then map["pom.xml" := PomXml(plan.repoName, t)]
    else if plan.language == "go" then map["go.mod" := GoMod(plan.repoName, t)]
    else map[]
  }

  /** The `.gitkeep` files of the planned folders. */
  function Gitkeeps(folders: seq<string>): map<string, string>
  {
    map f | f in folders :: f + "/.gitkeep" := ""
  }

  /** Adding one more folder adds its `.gitkeep`. */
  lemma GitkeepsStep(folders: seq<string>, i: nat)
    requires i < |folders|
    ensures Gitkeeps(folders[..i + 1]) == Gitkeeps(folders[..i])[folders[i] + "/.gitkeep" := ""]
  {
    assert folders[..i + 1] == folders[..i] + [folders[i]];
  }

  /** The files of `generate_files` before the folder loop, whatever their contents: README,
      `.gitignore` when there is a template, LICENSE, the manifest; then the main code, the tests
      and the CI workflow, each layer overwriting the ones before it. */
  function Layers(readme: string, license: string, gitignore: string, manifest: map<string, string>,
                  main: map<string, string>, tests: map<string, string>, ci: string): map<string, string>
  {
    var withReadme := map[]["README.md" := readme];
    var withIgnore := if gitignore != "" then withReadme[".gitignore" := gitignore] else withReadme;
    withIgnore["LICENSE" := license] + manifest + main + tests + map[CiPath := ci]
  }

  /** The `package.json` text of a plan. */
  function PackageJson(plan: ProjectPlan): string
  {
    Json.Dumps(PackageValue(plan, Pinned(plan.dependencies)))
  }

  /** The files `generate_files` returns: the layers, then the `.gitkeep` files. */
  function Assembled(plan: ProjectPlan, t: Templates): map<string, string>
  {
    Layers(Readme(plan, t), License(plan.license, t), plan.gitignoreTemplate, Manifest(plan, PackageJson(plan), t),
           MainCode(plan, t), TestFiles(plan, t), CiWorkflow(plan.language, t))
    + Gitkeeps(plan.folders)
  }

  /** `generate_files` */
  method GenerateFiles(plan: ProjectPlan, t: Templates) returns (files: map<string, string>)
    ensures files == Assembled(plan, t)
  {
    var manifest := GenerateManifest(plan, t);
    var layered := GenerateLayers(plan, manifest, t);
    files := AddGitkeeps(layered, plan.folders);
  }

  /** Step 8 of `generate_files`: an empty `.gitkeep` in every planned folder. */
  method AddGitkeeps(layered: map<string, string>, folders: seq<string>) returns (files: map<string, string>)
    ensures files == layered + Gitkeeps(folders)
  {
    files := layered;
    for i := 0 to |folders|
      invariant files == layered + Gitkeeps(folders[..i])
    {
      GitkeepsStep(folders, i);
      UnionUpdate(layered, Gitkeeps(folders[..i]), folders[i] + "/.gitkeep", "");
      files := files[folders[i] + "/.gitkeep" := ""];
    }
    assert folders[..|folders|] == folders;
  }

  /** Assigning to a key after a merge is merging the assigned map. */
  lemma UnionUpdate(a: map<string, string>, b: map<string, string>, k: string, v: string)
    ensures (a + b)[k := v] == a + b[k := v]
  {
  }

  /** Steps 1 to 7 of `generate_files`, given the manifest. */
  method GenerateLayers(plan: ProjectPlan, manifest: map<string, string>, t: Templates) returns (files: map<string, string>)
    ensures files == Layers(Readme(plan, t), License(plan.license, t), plan.gitignoreTemplate, manifest,
                            MainCode(plan, t), TestFiles(plan, t), CiWorkflow(plan.language, t))
  {
    files := map[];
    files := files["README.md" := Readme(plan, t)];
    if plan.gitignoreTemplate != "" {
      files := files[".gitignore" := plan.gitignoreTemplate];
    }
    files := files["LICENSE" := License(plan.license, t)];
    files := files + manifest;
    files := files + MainCode(plan, t);
    files := files + TestFiles(plan, t);
    files := files + map[CiPath := CiWorkflow(plan.language, t)];
  }

  /** Step 4 of `generate_files`: the manifest of the plan's language. */
  method GenerateManifest(plan: ProjectPlan, t: Templates) returns (manifest: map<string, string>)
    ensures manifest == Manifest(plan, PackageJson(plan), t)
  {
    manifest := map[];
    if plan.language == "python" {
      manifest := manifest["requirements.txt" := Requirements(plan.dependencies)];
    } else if plan.language in {"javascript", "typescript"} {
      var packageJson := GeneratePackageJson(plan);
      manifest := manifest["package.json" := packageJson];
    } else if plan.language == "java" {
      manifest := manifest["pom.xml" := PomXml(plan.repoName, t)];
    } else if plan.language == "go" {
      manifest := manifest["go.mod" := GoMod(plan.repoName, t)];
    }
  }

  // ----- Properties of the file map --------------------------------------------------------------

  /** A path of the main code or the tests: it begins with 'a', 'c', 's' or 't' and, unlike
      every `.gitkeep` path, does not end in 'p'. */
  predicate CodePath(k: string) { |k| > 0 && k[0] in {'a', 'c', 's', 't'} && k[|k| - 1] != 'p' }

  /** A manifest path: it begins with 'g', 'p' or 'r' and does not end in 'p'. */
  predicate ManifestPath(k: string) { |k| > 0 && k[0] in {'g', 'p', 'r'} && k[|k| - 1] != 'p' }

  /** Every `.gitkeep` path ends in 'p', so a path ending otherwise is never overwritten by the
      folder loop. */
  lemma NotGitkeep(key: string, folders: seq<string>)
    requires key == [] || key[|key| - 1] != 'p'
    ensures key !in Gitkeeps(folders)
  {
  }

  lemma CodePaths(plan: ProjectPlan, t: Templates)
    ensures forall k :: k in MainCode(plan, t) || k in TestFiles(plan, t) ==> CodePath(k)
  {
    var ext := ScriptExtension(plan.language);
    if plan.language == "python" {
      PythonCodeFiles(plan, t);
      assert CodePath("src/main.py") && CodePath("src/__init__.py") && CodePath("api/main.py");
      assert CodePath("app/main.py") && CodePath("app/templates/index.html");
    } else if plan.language in {"javascript", "typescript"} {
      ScriptPaths(plan, t);
      assert ("tests/main.test." + ext)[0] == 't';
      assert ("tests/main.test." + ext)[|"tests/main.test." + ext| - 1] == 's';
    } else {
      assert CodePath("src/main/java/com/example/Main.java") && CodePath("cmd/main.go");
    }
  }

  /** The JavaScript and TypeScript paths begin with 's' or 't'. */
  lemma ScriptPaths(plan: ProjectPlan, t: Templates)
    ensures forall k :: k in ScriptCode(plan, t) ==> CodePath(k)
  {
    var ext := ScriptExtension(plan.language);
    assert ("src/App." + ext)[0] == 's' && ("src/index." + ext)[0] == 's';
    assert ("src/App." + ext)[|"src/App." + ext| - 1] == 's';
    assert ("src/index." + ext)[|"src/index." + ext| - 1] == 's';
    assert CodePath("tsconfig.json");
  }

  /** The manifest is the one file its language calls for. */
  lemma ManifestPaths(plan: ProjectPlan, packageJson: string, t: Templates)
    ensures var m := Manifest(plan, packageJson, t);
      && ("requirements.txt" in m <==> plan.language == "python")
      && ("package.json" in m <==> plan.language in {"javascript", "typescript"})
      && ("pom.xml" in m <==> plan.language == "java")
      && ("go.mod" in m <==> plan.language == "go")
      && forall k :: k in m ==> ManifestPath(k)
  {
  }

  /** The files before the folder loop, whatever their contents, once the code and test paths are
      `CodePath`s and the manifest paths `ManifestPath`s. */
  lemma LayersHold(readme: string, license: string, gitignore: string, manifest: map<string, string>,
                   main: map<string, string>, tests: map<string, string>, ci: string)
    requires forall k :: k in main || k in tests ==> CodePath(k)
    requires forall k :: k in manifest ==> ManifestPath(k)
    ensures var files := Layers(readme, license, gitignore, manifest, main, tests, ci);
      && "README.md" in files && files["README.md"] == readme
      && "LICENSE" in files && files["LICENSE"] == license
      && CiPath in files && files[CiPath] == ci
      && (".gitignore" in files <==> gitignore != "")
      && (".gitignore" in files ==> files[".gitignore"] == gitignore)
      && (forall k :: ManifestPath(k) ==> (k in files <==> k in manifest) && (k in manifest ==> files[k] == manifest[k]))
  {
    assert !CodePath("README.md") && !ManifestPath("README.md");
  }

  /** The code and test files before the folder loop, and the closing list of what else there is:
      the fixed files, the manifest, the code and the tests. */
  lemma LayersCode(readme: string, license: string, gitignore: string, manifest: map<string, string>,
                   main: map<string, string>, tests: map<string, string>, ci: string)
    requires forall k :: k in main || k in tests ==> CodePath(k)
    requires forall k :: k in manifest ==> ManifestPath(k)
    ensures var files := Layers(readme, license, gitignore, manifest, main, tests, ci);
      && (forall k :: CodePath(k) ==> (k in files <==> k in main + tests) && (k in main + tests ==> files[k] == (main + tests)[k]))
      && (forall k :: k in files ==> k in FixedNames || k in manifest || k in main || k in tests)
  {
    assert !CodePath(CiPath);
    forall k | k in manifest
      ensures !CodePath(k)
    {
    }
  }

  /** The paths every generation may write besides the manifest, the code, the tests and the
      `.gitkeep` files. */
  const FixedNames := {"README.md", ".gitignore", "LICENSE", CiPath}

  /** `LayersHold` with the `.gitkeep` files added: every folder has an empty `.gitkeep`, and
      nothing else changes. */
  lemma LayeredFiles(readme: string, license: string, gitignore: string, manifest: map<string, string>,
                     main: map<string, string>, tests: map<string, string>, ci: string, folders: seq<string>)
    requires forall k :: k in main || k in tests ==> CodePath(k)
    requires forall k :: k in manifest ==> ManifestPath(k)
    ensures var files := Layers(readme, license, gitignore, manifest, main, tests, ci) + Gitkeeps(folders);
      && "README.md" in files && files["README.md"] == readme
      && "LICENSE" in files && files["LICENSE"] == license
      && CiPath in files && files[CiPath] == ci
      && (".gitignore" in files <==> gitignore != "")
      && (".gitignore" in files ==> files[".gitignore"] == gitignore)
      && (forall k :: ManifestPath(k) ==> (k in files <==> k in manifest) && (k in manifest ==> files[k] == manifest[k]))
      && (forall f :: f in folders ==> f + "/.gitkeep" in files && files[f + "/.gitkeep"] == "")
  {
    LayersHold(readme, license, gitignore, manifest, main, tests, ci);
    NotGitkeep("README.md", folders);
    NotGitkeep("LICENSE", folders);
    NotGitkeep(CiPath, folders);
    NotGitkeep(".gitignore", folders);
    forall k | ManifestPath(k)
      ensures k !in Gitkeeps(folders)
    {
      NotGitkeep(k, folders);
    }
  }

  /** `LayersCode` with the `.gitkeep` files added, which never land on a code path. */
  lemma LayeredCode(readme: string, license: string, gitignore: string, manifest: map<string, string>,
                    main: map<string, string>, tests: map<string, string>, ci: string, folders: seq<string>)
    requires forall k :: k in main || k in tests ==> CodePath(k)
    requires forall k :: k in manifest ==> ManifestPath(k)
    ensures var files := Layers(readme, license, gitignore, manifest, main, tests, ci) + Gitkeeps(folders);
      && (forall k :: k in main + tests ==> k in files && files[k] == (main + tests)[k])
      && (forall k :: CodePath(k) && k in files ==> k in main + tests)
      && (forall k :: k in files ==> k in FixedNames || k in manifest || k in main + tests || k in Gitkeeps(folders))
  {
    LayersCode(readme, license, gitignore, manifest, main, tests, ci);
    forall k | CodePath(k)
      ensures k !in Gitkeeps(folders)
    {
      NotGitkeep(k, folders);
    }
  }

  /** The files of a plan: README.md, LICENSE and the CI workflow always; `.gitignore` exactly when
      the plan has a template; the manifest paths exactly as the manifest has them; an empty
      `.gitkeep` in every planned folder; every main-code and test file with its content, and no
      other code path; nothing else at all. */
  lemma GeneratedFiles(plan: ProjectPlan, t: Templates)
    ensures var files := Assembled(plan, t);
      var manifest := Manifest(plan, PackageJson(plan), t);
      var code := MainCode(plan, t) + TestFiles(plan, t);
      && "README.md" in files && files["README.md"] == Readme(plan, t)
      && "LICENSE" in files && files["LICENSE"] == License(plan.license, t)
      && CiPath in files && files[CiPath] == CiWorkflow(plan.language, t)
      && (".gitignore" in files <==> plan.gitignoreTemplate != "")
      && (".gitignore" in files ==> files[".gitignore"] == plan.gitignoreTemplate)
      && (forall k :: ManifestPath(k) ==> (k in files <==> k in manifest) && (k in manifest ==> files[k] == manifest[k]))
      && (forall f :: f in plan.folders ==> f + "/.gitkeep" in files && files[f + "/.gitkeep"] == "")
      && (forall k :: k in code ==> k in files && files[k] == code[k])
      && (forall k :: CodePath(k) && k in files ==> k in code)
      && (forall k :: k in files ==> k in FixedNames || k in manifest || k in code || k in Gitkeeps(plan.folders))
  {
    GeneratedFixedFiles(plan, t);
    GeneratedCodeFiles(plan, t);
  }

  /** The fixed files, the manifest and the `.gitkeep` files of a plan. */
  lemma GeneratedFixedFiles(plan: ProjectPlan, t: Templates)
    ensures var files := Assembled(plan, t);
      var manifest := Manifest(plan, PackageJson(plan), t);
      && "README.md" in files && files["README.md"] == Readme(plan, t)
      && "LICENSE" in files && files["LICENSE"] == License(plan.license, t)
      && CiPath in files && files[CiPath] == CiWorkflow(plan.language, t)
      && (".gitignore" in files <==> plan.gitignoreTemplate != "")
      && (".gitignore" in files ==> files[".gitignore"] == plan.gitignoreTemplate)
      && (forall k :: ManifestPath(k) ==> (k in files <==> k in manifest) && (k in manifest ==> files[k] == manifest[k]))
      && (forall f :: f in plan.folders ==> f + "/.gitkeep" in files && files[f + "/.gitkeep"] == "")
  {
    CodePaths(plan, t);
    ManifestPaths(plan, PackageJson(plan), t);
    LayeredFiles(Readme(plan, t), License(plan.license, t), plan.gitignoreTemplate, Manifest(plan, PackageJson(plan), t),
                 MainCode(plan, t), TestFiles(plan, t), CiWorkflow(plan.language, t), plan.folders);
  }

  /** The main-code and test files of a plan, and the closing list of every path written. */
  lemma GeneratedCodeFiles(plan: ProjectPlan, t: Templates)
    ensures var files := Assembled(plan, t);
      var manifest := Manifest(plan, PackageJson(plan), t);
      var code := MainCode(plan, t) + TestFiles(plan, t);
      && (forall k :: k in code ==> k in files && files[k] == code[k])
      && (forall k :: CodePath(k) && k in files ==> k in code)
      && (forall k :: k in files ==> k in FixedNames || k in manifest || k in code || k in Gitkeeps(plan.folders))
  {
    CodePaths(plan, t);
    ManifestPaths(plan, PackageJson(plan), t);
    LayeredCode(Readme(plan, t), License(plan.license, t), plan.gitignoreTemplate, Manifest(plan, PackageJson(plan), t),
                MainCode(plan, t), TestFiles(plan, t), CiWorkflow(plan.language, t), plan.folders);
  }

  /** Exactly one manifest per language: `requirements.txt` (the dependencies, one per line) for
      Python, `package.json` for JavaScript and TypeScript, `pom.xml` for Java, `go.mod` for Go,
      none for the rest. */
  lemma OneManifest(plan: ProjectPlan, t: Templates)
    ensures var files := Assembled(plan, t);
      && ("requirements.txt" in files <==> plan.language == "python")
      && ("package.json" in files <==> plan.language in {"javascript", "typescript"})
      && ("pom.xml" in files <==> plan.language == "java")
      && ("go.mod" in files <==> plan.language == "go")
      && (plan.language == "python" ==> files["requirements.txt"] == Join(plan.dependencies, "\n"))
      && (plan.language in {"javascript", "typescript"} ==> files["package.json"] == PackageJson(plan))
      && (plan.language == "java" ==> files["pom.xml"] == t.pomHead + plan.repoName + t.pomTail)
  {
    GeneratedFixedFiles(plan, t);
    ManifestPaths(plan, PackageJson(plan), t);
    assert ManifestPath("requirements.txt") && ManifestPath("package.json");
    assert ManifestPath("pom.xml") && ManifestPath("go.mod");
  }
}
