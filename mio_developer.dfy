/**
 * The local Mio developer window: the check it makes on the typed task before anything is
 * generated, the class name it derives from the task, and the values it fills into the
 * generated demo module.
 */
module MioDeveloper {
  import opened Text
  import RoundTableSim

  const Fallback := "GeneratedModule"

  /** `[w.capitalize() for w in words if w.isalpha()]`: unlike the round table, words of any
      length are kept. */
  function AlphaWords(words: seq<string>): (kept: seq<string>)
    ensures |kept| <= |words|
    ensures forall i :: 0 <= i < |kept| ==> IsAlpha(kept[i])
    ensures kept == [] <==> NoAlpha(words)
  {
    if words == [] then []
    else
      var rest := AlphaWords(words[1..]);
      assert forall j :: 1 <= j < |words| ==> words[j] == words[1..][j - 1];
      if IsAlpha(words[0]) then
        CapitalizeAlpha(words[0]);
        [Capitalize(words[0])] + rest
      else rest
  }

  /** Every alphabetic word of `words` has three letters or more. */
  predicate NoShortAlpha(words: seq<string>)
  {
    forall j :: 0 <= j < |words| && IsAlpha(words[j]) ==> |words[j]| > 2
  }

  /** No word of `words` is alphabetic. */
  predicate NoAlpha(words: seq<string>) { forall j :: 0 <= j < |words| ==> !IsAlpha(words[j]) }

  /** `MioDeveloperGUI._to_class_name`: the alphabetic words among the first three, capitalised
      and joined, or "GeneratedModule" when there are none; never empty. */
  function ToClassName(text: string): (name: string)
    ensures IsAlpha(name)
    ensures NoAlpha(Take(Words(text), 3)) ==> name == Fallback
  {
    var kept := AlphaWords(Take(Words(text), 3));
    if kept == [] then
      assert Concat(kept) == "";
      Fallback
    else
      ConcatAlpha(kept);
      var joined := Concat(kept);
      if joined != "" then joined else Fallback
  }

  /** The first alphabetic word is kept first. */
  lemma {:induction false} AlphaWordsFirst(words: seq<string>, j: nat)
    requires j < |words| && IsAlpha(words[j]) && NoAlpha(words[..j])
    ensures AlphaWords(words) != [] && AlphaWords(words)[0] == Capitalize(words[j])
  {
    if j > 0 {
      assert !IsAlpha(words[..j][0]);
      assert words[1..][..j - 1] == words[1..j];
      assert forall i :: 0 <= i < j - 1 ==> words[1..j][i] == words[..j][i + 1];
      AlphaWordsFirst(words[1..], j - 1);
    }
  }

  /** The class name begins with the first alphabetic word among the first three, capitalised,
      however short it is. */
  lemma ClassNameStartsWithFirstAlpha(text: string, j: nat)
    requires var first := Take(Words(text), 3); j < |first| && IsAlpha(first[j]) && NoAlpha(first[..j])
    ensures StartsWith(ToClassName(text), Capitalize(Take(Words(text), 3)[j]))
  {
    var first := Take(Words(text), 3);
    var kept := AlphaWords(first);
    AlphaWordsFirst(first, j);
    ConcatAlpha(kept);
    assert ToClassName(text) == Concat(kept);
  }

  /** Where every alphabetic word has three letters or more, keeping the alphabetic words is the
      round table's filter. */
  lemma {:induction false} AlphaWordsAreCleanWords(words: seq<string>)
    requires NoShortAlpha(words)
    ensures AlphaWords(words) == RoundTableSim.CleanWords(words)
  {
    if words != [] {
      assert forall j :: 1 <= j < |words| ==> words[j] == words[1..][j - 1];
      AlphaWordsAreCleanWords(words[1..]);
    }
  }

  /** The two class-name helpers agree whenever no alphabetic word among the first three is
      shorter than three letters. */
  lemma SameClassNameAsRoundTable(text: string)
    requires NoShortAlpha(Take(Words(text), 3))
    ensures ToClassName(text) == RoundTableSim.ExtractClassName(text)
  {
    var first := Take(Words(text), 3);
    AlphaWordsAreCleanWords(first);
    var kept := AlphaWords(first);
    if kept != [] {
      ConcatAlpha(kept);
    }
  }

  // ----- `generate_code` ---------------------------------------------------------------------

  const SamplePrefix := "Beispiel:"
  const WarningTitle := "Keine Eingabe"
  const WarningText := "Bitte gib eine Beschreibung ein, was du entwickeln möchtest!"

  /** What pressing the button leads to: a warning box, or the simulated result shown for the
      stripped task, with the file name of its header line and the class name it declares. */
  datatype Outcome =
    | Warned(title: string, message: string)
    | Generated(task: string, fileName: string, className: string)

  /** The header line of the generated module names `<first word>.py`, or `Module.py` for a
      task without words. */
  function HeaderFileName(task: string): string
  {
    (if Words(task) == [] then "Module" else Words(task)[0]) + ".py"
  }

  /** `generate_code`: the stripped input is refused when it is empty or still starts with the
      "Beispiel:" placeholder; otherwise the result is generated from it. */
  function GenerateCode(input: string): (o: Outcome)
    ensures o.Warned? <==> Strip(input) == "" || StartsWith(Strip(input), SamplePrefix)
    ensures o.Warned? ==> o == Warned(WarningTitle, WarningText)
    ensures o.Generated? ==> o.task == Strip(input) && o.className == ToClassName(o.task)
  {
    var task := Strip(input);
    if task == "" || StartsWith(task, SamplePrefix) then Warned(WarningTitle, WarningText)
    else Generated(task, HeaderFileName(task), ToClassName(task))
  }

  /** A task that passes the guard has a first word, so the header always names it and the
      "Module" fallback is never written from this window. */
  lemma AcceptedTaskNamesFirstWord(input: string)
    requires GenerateCode(input).Generated?
    ensures var task := Strip(input);
      Words(task) != [] && GenerateCode(input).fileName == Words(task)[0] + ".py"
  {
    var task := Strip(input);
    assert Words(task) != [] by {
      assert !IsSpace(task[0]);
    }
  }
}
