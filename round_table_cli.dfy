/**
 * The round-table command line names a Markdown file for the discussion next to the code file it
 * writes. `main` (for `--output`) and the interactive loop do this by two different rules; both
 * are modelled here as written, together with the rule both evidently mean.
 */
module RoundTableCli {
  import opened Text

  const Marker := "_discussion"
  const DocSuffix := Marker + ".md"

  /** What `main` puts in place of every '.' before it cuts the extension. */
  const DotMarker := Marker + "."

  /** How many '.' a name holds. */
  function Dots(s: string): nat { multiset(s)['.'] }

  /**
   * `main`, as written: every '.' of the output name becomes "_discussion."; a name that then
   * holds no '.' gets "_discussion.md" appended, and otherwise the text from the last '.' on is
   * replaced by ".md".
   */
  function DocFileName(output: string): (name: string)
    ensures EndsWith(name, ".md")
    ensures '.' !in output ==> name == output + DocSuffix
  {
    var replaced := ReplaceChar(output, '.', DotMarker);
    ReplaceKeeps(output, '.', DotMarker);
    if '.' !in replaced then
      output + DocSuffix
    else
      BeforeLast(replaced, '.') + ".md"
  }

  /** `interactive_mode`: the text before the last '.' (all of it when there is none), then
      "_discussion.md". */
  function InteractiveDocFileName(filename: string): (name: string)
    ensures EndsWith(name, DocSuffix)
    ensures '.' !in filename ==> name == filename + DocSuffix
  {
    BeforeLast(filename, '.') + DocSuffix
  }

  /** A name with one extension loses it under the interactive rule, whatever dots come before. */
  lemma InteractiveKeepsStem(stem: string, ext: string)
    requires '.' !in ext
    ensures InteractiveDocFileName(stem + "." + ext) == stem + DocSuffix
  {
    BeforeLastAt(stem, '.', ext);
  }

  /** Cutting at the last '.' of a text whose last '.' ends the marker `m`. */
  lemma CutAfter(p: string, m: string, q: string)
    requires '.' !in q
    ensures '.' in p + (m + ".") + q
    ensures BeforeLast(p + (m + ".") + q, '.') == p + m
  {
    assert p + (m + ".") + q == (p + m) + ['.'] + q;
    BeforeLastAt(p + m, '.', q);
    assert (p + (m + ".") + q)[|p| + |m|] == '.';
  }

  /** With exactly one '.', `main` also keeps the stem: "out.py" is documented in
      "out_discussion.md". */
  lemma OneDotNaming(stem: string, ext: string)
    requires '.' !in stem && '.' !in ext
    ensures DocFileName(stem + "." + ext) == stem + DocSuffix
  {
    ReplaceOnly(stem, '.', ext, DotMarker);
    assert stem + "." + ext == stem + ['.'] + ext;
    CutAfter(stem, Marker, ext);
    assert stem + Marker + ".md" == stem + DocSuffix;
  }

  /** The two rules name the documentation alike exactly when the name holds at most one '.'. */
  lemma SameNameIffAtMostOneDot(name: string)
    ensures DocFileName(name) == InteractiveDocFileName(name) <==> Dots(name) <= 1
  {
    if Dots(name) == 0 {
      assert '.' !in name;
    } else if Dots(name) == 1 {
      var i := LastIndex(name, '.').value;
      var stem, ext := name[..i], name[i + 1..];
      assert name == stem + "." + ext;
      assert multiset(name) == multiset(stem) + multiset(['.']) + multiset(ext);
      assert '.' !in stem;
      OneDotNaming(stem, ext);
      InteractiveKeepsStem(stem, ext);
    } else {
      var a, rest := FirstDot(name);
      InteractiveKeepsFirstDot(a, rest);
      MainMarksFirstDot(a, rest);
    }
  }

  /** A name with two or more dots is its first dot-free part, a '.', and a rest with a '.'. */
  lemma FirstDot(name: string) returns (a: string, rest: string)
    requires Dots(name) >= 2
    ensures name == a + "." + rest && '.' !in a && '.' in rest
  {
    a := BeforeFirst(name, '.');
    assert '.' in name;
    assert |a| < |name|;
    rest := name[|a| + 1..];
    assert name == a + [name[|a|]] + rest;
    assert multiset(name) == multiset(a) + multiset(['.']) + multiset(rest);
  }

  /** The interactive rule cuts at a later '.', so it keeps the first one. */
  lemma InteractiveKeepsFirstDot(a: string, rest: string)
    requires '.' in rest
    ensures var name := InteractiveDocFileName(a + "." + rest); |a| < |name| && name[|a|] == '.'
  {
    var name := a + "." + rest;
    assert name[|a| + 1..] == rest;
    LastIndexAtLeast(name, '.', |a| + 1);
  }

  /** `main` writes the marker at the first '.' and cuts only inside the rest, so the name has
      '_' where the first '.' stood. */
  lemma MainMarksFirstDot(a: string, rest: string)
    requires '.' !in a && '.' in rest
    ensures var name := DocFileName(a + "." + rest); |a| < |name| && name[|a|] == '_'
  {
    ReplaceFirst(a, '.', rest, DotMarker);
    assert a + "." + rest == a + ['.'] + rest;
    ReplaceKeeps(rest, '.', DotMarker);
    var replaced := a + DotMarker + ReplaceChar(rest, '.', DotMarker);
    assert replaced[|a| + |DotMarker|..] == ReplaceChar(rest, '.', DotMarker);
    LastIndexAtLeast(replaced, '.', |a| + |DotMarker|);
    assert replaced[|a|] == DotMarker[0] == '_';
  }

  // ----- Findings ----------------------------------------------------------------------------

  /** `main` turns every '.' into "_discussion.", including the one of a "./" directory:
      "./out.py" is documented in "_discussion./out_discussion.md". */
  lemma DocFileNameSplitsDirectory()
    ensures DocFileName("./out.py") == DotMarker + "/out" + DocSuffix
  {
    assert "./out.py" == "" + "." + "/out" + "." + "py";
    assert '.' !in "/out" && '.' !in "py";
    TwoDotNaming("", "/out", "py");
  }

  /** With two dots, `main` keeps the first as the marker and cuts at the second. */
  lemma TwoDotNaming(a: string, b: string, ext: string)
    requires '.' !in a && '.' !in b && '.' !in ext
    ensures DocFileName(a + "." + b + "." + ext) == a + DotMarker + b + DocSuffix
  {
    TwoDotsMarked(a, b, ext);
    CutAfter(a + DotMarker + b, Marker, ext);
    assert a + DotMarker + b + Marker + ".md" == a + DotMarker + b + DocSuffix;
  }

  /** Both dots of a two-dot name become the marker. */
  lemma TwoDotsMarked(a: string, b: string, ext: string)
    requires '.' !in a && '.' !in b && '.' !in ext
    ensures ReplaceChar(a + "." + b + "." + ext, '.', DotMarker) == (a + DotMarker + b) + (Marker + ".") + ext
  {
    var rest := b + "." + ext;
    assert a + "." + b + "." + ext == a + ['.'] + rest;
    ReplaceFirst(a, '.', rest, DotMarker);
    assert rest == b + ['.'] + ext;
    ReplaceOnly(b, '.', ext, DotMarker);
  }

  /** The interactive rule cuts at a '.' that belongs to the directory when the file name has
      no extension, and so loses the file name and the directory. */
  lemma InteractiveDropsName()
    ensures InteractiveDocFileName("./out") == DocSuffix
  {
    BeforeLastAt([], '.', "/out");
    assert [] + ['.'] + "/out" == "./out";
  }

  /** The directory part of a path: everything up to and including its last '/'. */
  function Directory(path: string): (dir: string)
    ensures StartsWith(path, dir)
    ensures '/' !in path[|dir|..]
    ensures dir == [] || dir[|dir| - 1] == '/'
  {
    match LastIndex(path, '/')
    case None => ""
    case Some(i) => path[..i + 1]
  }

  /**
   * The rule both evidently mean: the documentation sits in the code file's directory and is
   * named after the file with its extension (from the last '.' of the file name on) dropped.
   */
  function DocFileNameBesideCode(path: string): (name: string)
    ensures StartsWith(name, Directory(path)) && EndsWith(name, DocSuffix)
  {
    var dir := Directory(path);
    dir + BeforeLast(path[|dir|..], '.') + DocSuffix
  }

  /** The directory of `dir + file` is `dir` when `dir` is one and `file` holds no '/'. */
  lemma DirectoryOf(dir: string, file: string)
    requires dir == [] || dir[|dir| - 1] == '/'
    requires '/' !in file
    ensures Directory(dir + file) == dir
  {
    if dir == [] {
      assert dir + file == file;
    } else {
      var p := dir[..|dir| - 1];
      assert dir + file == p + ['/'] + file;
      BeforeLastAt(p, '/', file);
      assert BeforeLast(dir + file, '/') == p;
    }
  }

  /** Under the intended rule a code file in any directory, with or without an extension and
      whatever dots its directory holds, is documented beside itself under its stem. */
  lemma BesideCodeKeepsStem(dir: string, stem: string, ext: string)
    requires dir == [] || dir[|dir| - 1] == '/'
    requires '/' !in stem && '/' !in ext && '.' !in ext
    ensures DocFileNameBesideCode(dir + stem + "." + ext) == dir + stem + DocSuffix
    ensures '.' !in stem ==> DocFileNameBesideCode(dir + stem) == dir + stem + DocSuffix
  {
    var file := stem + "." + ext;
    assert dir + stem + "." + ext == dir + file;
    DirectoryOf(dir, file);
    assert (dir + file)[|dir|..] == file;
    BeforeLastAt(stem, '.', ext);
    if '.' !in stem {
      DirectoryOf(dir, stem);
      assert (dir + stem)[|dir|..] == stem;
    }
  }

  /** For a bare file name (no directory) the intended rule is the interactive one, and it is
      `main`'s as well when the name holds at most one '.'. */
  lemma BesideCodeAgrees(name: string)
    requires '/' !in name
    ensures DocFileNameBesideCode(name) == InteractiveDocFileName(name)
    ensures Dots(name) <= 1 ==> DocFileNameBesideCode(name) == DocFileName(name)
  {
    DirectoryOf([], name);
    assert [] + name == name;
    assert name[|Directory(name)|..] == name;
    assert DocFileNameBesideCode(name) == [] + BeforeLast(name, '.') + DocSuffix;
    SameNameIffAtMostOneDot(name);
  }
}
