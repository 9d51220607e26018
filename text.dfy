/**
 * The parts of Python's `str` that the core uses, over Dafny strings (sequences of Unicode
 * scalar values, as Python's are). Letters and case mapping are ASCII only; whitespace is
 * Python's full `isspace` set, which `split()` and `strip()` use.
 */
module Text {
  import opened Outcomes

  predicate IsUpper(c: char) { 'A' <= c <= 'Z' }
  predicate IsLower(c: char) { 'a' <= c <= 'z' }
  predicate IsLetter(c: char) { IsUpper(c) || IsLower(c) }

  /** `c.isspace()` */
  predicate IsSpace(c: char)
  {
    c == ' ' || '\t' <= c <= '\r' || '\U{1c}' <= c <= '\U{1f}' || c == '\U{85}' || c == '\U{a0}'
    || c == '\U{1680}' || '\U{2000}' <= c <= '\U{200a}' || c == '\U{2028}' || c == '\U{2029}'
    || c == '\U{202f}' || c == '\U{205f}' || c == '\U{3000}'
  }

  function LowerChar(c: char): char { if IsUpper(c) then (c as int + 32) as char else c }
  function UpperChar(c: char): char { if IsLower(c) then (c as int - 32) as char else c }

  /** `s.lower()`: as long as `s`, with no upper-case letter left and every other character kept. */
  function Lower(s: string): (low: string)
    ensures |low| == |s|
    ensures forall i :: 0 <= i < |s| ==> !IsUpper(low[i])
    ensures forall i :: 0 <= i < |s| && !IsUpper(s[i]) ==> low[i] == s[i]
  {
    seq(|s|, i requires 0 <= i < |s| => LowerChar(s[i]))
  }

  /** `s.upper()` */
  function Upper(s: string): string { seq(|s|, i requires 0 <= i < |s| => UpperChar(s[i])) }

  /** `s.isalpha()`: non-empty and letters only. */
  predicate IsAlpha(s: string) { |s| > 0 && forall i :: 0 <= i < |s| ==> IsLetter(s[i]) }

  /** `s.capitalize()`: the first character in upper case, the rest in lower case. */
  function Capitalize(s: string): (cap: string)
    ensures |cap| == |s|
    ensures s != [] ==> !IsLower(cap[0])
    ensures forall i :: 1 <= i < |s| ==> !IsUpper(cap[i])
  {
    if s == [] then [] else [UpperChar(s[0])] + Lower(s[1..])
  }

  predicate StartsWith(s: string, prefix: string) { |prefix| <= |s| && s[..|prefix|] == prefix }
  predicate EndsWith(s: string, suffix: string) { |suffix| <= |s| && s[|s| - |suffix|..] == suffix }

  /** `sub in s` */
  predicate Contains(s: string, sub: string)
  {
    StartsWith(s, sub) || (s != [] && Contains(s[1..], sub))
  }

  /** `s.find(sep)` as an Option: where the first occurrence of `sep` starts. */
  function FindFirst(s: string, sep: string): (r: Option<nat>)
    ensures r.Some? <==> Contains(s, sep)
    ensures r.Some? ==> r.value + |sep| <= |s| && s[r.value..r.value + |sep|] == sep
  {
    if StartsWith(s, sep) then Some(0)
    else if s == [] then None
    else match FindFirst(s[1..], sep)
      case None => None
      case Some(i) =>
        assert s[1..][i..i + |sep|] == s[i + 1..i + 1 + |sep|];
        Some(i + 1)
  }

  /** `s.split(sep, 1)[1]`, defined when `sep` occurs: the text after its first occurrence. */
  function AfterFirst(s: string, sep: string): Option<string>
  {
    match FindFirst(s, sep)
    case None => None
    case Some(i) => Some(s[i + |sep|..])
  }

  /** `s.split(c)[0]`: the text before the first `c`, or all of `s`. */
  function BeforeFirst(s: string, c: char): (r: string)
    ensures c !in r && StartsWith(s, r)
    ensures |r| < |s| ==> s[|r|] == c
  {
    if s == [] || s[0] == c then "" else [s[0]] + BeforeFirst(s[1..], c)
  }

  /** Where the last `c` in `s` stands. */
  function LastIndex(s: string, c: char): (r: Option<nat>)
    ensures r.None? <==> c !in s
    ensures r.Some? ==> r.value < |s| && s[r.value] == c && c !in s[r.value + 1..]
  {
    if s == [] then None
    else if s[|s| - 1] == c then Some(|s| - 1)
    else
      assert s == s[..|s| - 1] + [s[|s| - 1]];
      LastIndex(s[..|s| - 1], c)
  }

  /** `s.rsplit(c, 1)[0]`: the text before the last `c`, or all of `s` when there is none. */
  function BeforeLast(s: string, c: char): (r: string)
    ensures StartsWith(s, r)
    ensures c !in s ==> r == s
    ensures c in s ==> |r| < |s| && s[|r|] == c && c !in s[|r| + 1..]
  {
    match LastIndex(s, c)
    case None => s
    case Some(i) => s[..i]
  }

  /** `s.lstrip()`: a suffix of `s` that does not start with whitespace, only whitespace cut. */
  function TrimStart(s: string): (r: string)
    ensures EndsWith(s, r)
    ensures r == [] || !IsSpace(r[0])
    ensures forall i :: 0 <= i < |s| - |r| ==> IsSpace(s[i])
  {
    if s != [] && IsSpace(s[0]) then TrimStart(s[1..]) else s
  }

  /** `s.rstrip()`: a prefix of `s` that does not end in whitespace, only whitespace cut. */
  function TrimEnd(s: string): (r: string)
    ensures StartsWith(s, r)
    ensures r == [] || !IsSpace(r[|r| - 1])
    ensures forall i :: |r| <= i < |s| ==> IsSpace(s[i])
  {
    if s != [] && IsSpace(s[|s| - 1]) then TrimEnd(s[..|s| - 1]) else s
  }

  /** `s.strip()`: neither end of the result is whitespace; a text without whitespace at its ends
      is kept whole, and a text of whitespace only becomes empty. */
  function Strip(s: string): (stripped: string)
    ensures stripped == [] || (!IsSpace(stripped[0]) && !IsSpace(stripped[|stripped| - 1]))
    ensures s == [] || (!IsSpace(s[0]) && !IsSpace(s[|s| - 1])) ==> stripped == s
    ensures (forall i :: 0 <= i < |s| ==> IsSpace(s[i])) ==> stripped == []
  {
    var front := TrimStart(s);
    var r := TrimEnd(front);
    assert r != [] ==> r[0] == front[0];
    assert (forall i :: 0 <= i < |s| ==> IsSpace(s[i])) ==> front == [] by {
      if front != [] {
        assert front[0] == s[|s| - |front|];
      }
    }
    r
  }

  /** The length of the run of non-whitespace characters that begins `s`. */
  function TokenLength(s: string): (n: nat)
    ensures n <= |s|
    ensures s != [] && !IsSpace(s[0]) ==> n > 0
    ensures forall j :: 0 <= j < n ==> !IsSpace(s[j])
  {
    if s == [] || IsSpace(s[0]) then 0 else 1 + TokenLength(s[1..])
  }

  /** `s.split()`: the maximal runs of non-whitespace characters, in order. Every word is
      non-empty and free of whitespace, and there is none exactly when `s` is all whitespace. */
  function Words(s: string): (words: seq<string>)
    ensures forall i :: 0 <= i < |words| ==> words[i] != [] && forall j :: 0 <= j < |words[i]| ==> !IsSpace(words[i][j])
    ensures words == [] <==> forall i :: 0 <= i < |s| ==> IsSpace(s[i])
    decreases |s|
  {
    if s == [] then []
    else if IsSpace(s[0]) then
      var rest := Words(s[1..]);
      assert forall i :: 1 <= i < |s| ==> s[i] == s[1..][i - 1];
      rest
    else
      var n := TokenLength(s);
      [s[..n]] + Words(s[n..])
  }

  /** `s.split(c)` for a one-character separator: the pieces between the occurrences of `c`. */
  function Split(s: string, c: char): (parts: seq<string>)
    ensures |parts| > 0
    decreases |s|
  {
    var head := BeforeFirst(s, c);
    if |head| == |s| then [s] else [head] + Split(s[|head| + 1..], c)
  }

  /** The text before the first `c` of `p + [c] + rest` is `p` when `p` holds no `c`. */
  lemma {:induction false} BeforeFirstOf(p: string, c: char, rest: string)
    requires c !in p
    ensures BeforeFirst(p + [c] + rest, c) == p
  {
    if p != [] {
      assert (p + [c] + rest)[1..] == p[1..] + [c] + rest;
      BeforeFirstOf(p[1..], c, rest);
    }
  }

  /** `sep.join(parts)` */
  function Join(parts: seq<string>, sep: string): string
  {
    if parts == [] then ""
    else if |parts| == 1 then parts[0]
    else parts[0] + sep + Join(parts[1..], sep)
  }

  /** `''.join(parts)` */
  function Concat(parts: seq<string>): string
  {
    if parts == [] then "" else parts[0] + Concat(parts[1..])
  }

  /** `s.replace(c, r)` for a one-character `c`: no `c` is left unless `r` brings one, and a text
      without `c` is kept. */
  function ReplaceChar(s: string, c: char, r: string): (replaced: string)
    ensures c !in r ==> c !in replaced
    ensures c !in s ==> replaced == s
  {
    if s == [] then "" else (if s[0] == c then r else [s[0]]) + ReplaceChar(s[1..], c, r)
  }

  /** Replacing distributes over concatenation. */
  lemma {:induction false} ReplaceAppend(a: string, b: string, c: char, r: string)
    ensures ReplaceChar(a + b, c, r) == ReplaceChar(a, c, r) + ReplaceChar(b, c, r)
  {
    if a != [] {
      var head := if a[0] == c then r else [a[0]];
      assert (a + b)[0] == a[0] && (a + b)[1..] == a[1..] + b;
      assert ReplaceChar(a + b, c, r) == head + ReplaceChar(a[1..] + b, c, r);
      assert ReplaceChar(a, c, r) == head + ReplaceChar(a[1..], c, r);
      ReplaceAppend(a[1..], b, c, r);
    } else {
      assert a + b == b;
    }
  }

  /** The last `c` of `p + [c] + q` is the one after `p` when `q` holds none. */
  lemma {:induction false} BeforeLastAt(p: string, c: char, q: string)
    requires c !in q
    ensures BeforeLast(p + [c] + q, c) == p
  {
    var s := p + [c] + q;
    assert s[|p|] == c;
    var i := LastIndex(s, c).value;
    assert s[..i] == p;
  }

  /** Replacing the only `c` of `p + [c] + q`. */
  lemma ReplaceOnly(p: string, c: char, q: string, r: string)
    requires c !in p && c !in q
    ensures ReplaceChar(p + [c] + q, c, r) == p + r + q
  {
    ReplaceAppend(p, [c] + q, c, r);
    ReplaceAppend([c], q, c, r);
    assert ReplaceChar([c], c, r) == r;
    assert p + [c] + q == p + ([c] + q);
  }

  /** Replacing the first `c` of `p + [c] + q`, where `p` holds none. */
  lemma ReplaceFirst(p: string, c: char, q: string, r: string)
    requires c !in p
    ensures ReplaceChar(p + [c] + q, c, r) == p + r + ReplaceChar(q, c, r)
  {
    ReplaceAppend(p, [c] + q, c, r);
    ReplaceAppend([c], q, c, r);
    assert ReplaceChar([c], c, r) == r;
    assert p + [c] + q == p + ([c] + q);
  }

  /** A `c` at or after position `j` puts the last `c` at or after `j`. */
  lemma LastIndexAtLeast(s: string, c: char, j: nat)
    requires j <= |s| && c in s[j..]
    ensures LastIndex(s, c).Some? && LastIndex(s, c).value >= j
  {
    var t :| j <= t < |s| && s[t] == c;
    assert s[t] in s;
  }

  /** When the replacement holds `c` itself, replacing keeps `c` in the text exactly when it was
      there. */
  lemma ReplaceKeeps(s: string, c: char, r: string)
    requires c in r
    ensures c in ReplaceChar(s, c, r) <==> c in s
  {
    if c in s {
      var i :| 0 <= i < |s| && s[i] == c;
      assert s == s[..i] + ([c] + s[i + 1..]);
      ReplaceAppend(s[..i], [c] + s[i + 1..], c, r);
      ReplaceAppend([c], s[i + 1..], c, r);
      assert ReplaceChar([c], c, r) == r;
    }
  }

  /** The lower-case letter form of `s`: unchanged by `Lower`. */
  lemma LowerOfLowercase(s: string)
    requires forall i :: 0 <= i < |s| ==> !IsUpper(s[i])
    ensures Lower(s) == s
  {
  }

  /** Joining parts whose characters all satisfy `p`, with a separator whose characters do too,
      gives a text whose characters all satisfy `p`. */
  lemma {:induction false} JoinKeeps(parts: seq<string>, sep: string, p: char -> bool)
    requires forall i, j :: 0 <= i < |parts| && 0 <= j < |parts[i]| ==> p(parts[i][j])
    requires forall j :: 0 <= j < |sep| ==> p(sep[j])
    ensures forall j :: 0 <= j < |Join(parts, sep)| ==> p(Join(parts, sep)[j])
  {
    if |parts| > 1 {
      JoinKeeps(parts[1..], sep, p);
      var rest := Join(parts[1..], sep);
      assert Join(parts, sep) == parts[0] + sep + rest;
      forall j | 0 <= j < |Join(parts, sep)|
        ensures p(Join(parts, sep)[j])
      {
        if j < |parts[0]| {
          assert Join(parts, sep)[j] == parts[0][j];
        } else if j < |parts[0]| + |sep| {
          assert Join(parts, sep)[j] == sep[j - |parts[0]|];
        } else {
          assert Join(parts, sep)[j] == rest[j - |parts[0]| - |sep|];
        }
      }
    }
  }

  /** `s[:n]` */
  function Take<T>(s: seq<T>, n: nat): seq<T>
  {
    if |s| <= n then s else s[..n]
  }

  predicate NoDuplicates<T(==)>(s: seq<T>)
  {
    forall i, j :: 0 <= i < j < |s| ==> s[i] != s[j]
  }

  /** Once `prefix` holds no first character of `sep`, the first `sep` in
      `prefix + sep + rest` is the one right after `prefix`. */
  lemma {:induction false} FindFirstAfter(prefix: string, sep: string, rest: string)
    requires sep != [] && sep[0] !in prefix
    ensures FindFirst(prefix + sep + rest, sep) == Some(|prefix|)
  {
    var s := prefix + sep + rest;
    if prefix == [] {
      assert s == sep + rest;
      assert s[..|sep|] == sep;
    } else {
      assert s[0] == prefix[0] != sep[0];
      assert !StartsWith(s, sep);
      assert s[1..] == prefix[1..] + sep + rest;
      FindFirstAfter(prefix[1..], sep, rest);
    }
  }

  /** `s.split(sep, 1)[1]` of `prefix + sep + rest` is `rest` when `prefix` holds no first
      character of `sep`. */
  lemma AfterFirstAt(prefix: string, sep: string, rest: string)
    requires sep != [] && sep[0] !in prefix
    ensures AfterFirst(prefix + sep + rest, sep) == Some(rest)
  {
    FindFirstAfter(prefix, sep, rest);
    assert (prefix + sep + rest)[|prefix| + |sep|..] == rest;
  }

  /** Moves the text before a separator into the prefix. */
  lemma Regroup(a: string, b: string, c: string, d: string, e: string)
    ensures a + b + (c + d + e) == a + b + c + d + e
  {
  }

  /** Concatenation distributes over `Join` with a separator. */
  lemma {:induction false} JoinAppend(a: seq<string>, b: seq<string>, sep: string)
    requires a != [] && b != []
    ensures Join(a + b, sep) == Join(a, sep) + sep + Join(b, sep)
  {
    if |a| == 1 {
      assert (a + b)[0] == a[0];
      assert (a + b)[1..] == b;
    } else {
      assert (a + b)[0] == a[0];
      assert (a + b)[1..] == a[1..] + b;
      JoinAppend(a[1..], b, sep);
    }
  }

  /** Joining with a separator puts the separator in front of every part after the first. */
  lemma {:induction false} JoinAsConcat(head: string, rest: seq<string>, sep: string)
    ensures Join([head] + rest, sep)
         == head + Concat(seq(|rest|, i requires 0 <= i < |rest| => sep + rest[i]))
    decreases |rest|
  {
    var prefixed := seq(|rest|, i requires 0 <= i < |rest| => sep + rest[i]);
    if rest == [] {
      assert [head] + rest == [head];
    } else {
      assert ([head] + rest)[1..] == rest;
      assert rest == [rest[0]] + rest[1..];
      JoinAsConcat(rest[0], rest[1..], sep);
      var tail := seq(|rest| - 1, i requires 0 <= i < |rest| - 1 => sep + rest[1..][i]);
      assert prefixed[1..] == tail;
    }
  }

  lemma {:induction false} ConcatAppend(a: seq<string>, b: seq<string>)
    ensures Concat(a + b) == Concat(a) + Concat(b)
  {
    if a == [] {
      assert a + b == b;
    } else {
      assert (a + b)[1..] == a[1..] + b;
      ConcatAppend(a[1..], b);
    }
  }

  /** Splitting at `c` undoes joining with `c`, when no part holds `c`. */
  lemma {:induction false} SplitJoin(parts: seq<string>, c: char)
    requires parts != [] && forall i :: 0 <= i < |parts| ==> c !in parts[i]
    ensures Split(Join(parts, [c]), c) == parts
  {
    if |parts| == 1 {
      assert BeforeFirst(parts[0], c) == parts[0];
    } else {
      var rest := Join(parts[1..], [c]);
      assert Join(parts, [c]) == parts[0] + [c] + rest;
      SplitStep(parts[0], c, rest);
      SplitJoin(parts[1..], c);
      assert parts == [parts[0]] + parts[1..];
    }
  }

  /** Splitting at the first `c` takes off the text before it. */
  lemma SplitStep(head: string, c: char, rest: string)
    requires c !in head
    ensures Split(head + [c] + rest, c) == [head] + Split(rest, c)
  {
    var s := head + [c] + rest;
    BeforeFirstOf(head, c, rest);
    assert s[|head| + 1..] == rest;
  }

  /** Capitalising an alphabetic word keeps it alphabetic and as long, with an upper-case first
      letter. */
  lemma CapitalizeAlpha(w: string)
    requires IsAlpha(w)
    ensures var c := Capitalize(w); IsAlpha(c) && |c| == |w| && IsUpper(c[0])
  {
  }

  /** Concatenating alphabetic words gives an alphabetic text at least as long as the first. */
  lemma {:induction false} ConcatAlpha(parts: seq<string>)
    requires parts != [] && forall i :: 0 <= i < |parts| ==> IsAlpha(parts[i])
    ensures IsAlpha(Concat(parts)) && StartsWith(Concat(parts), parts[0])
  {
    if |parts| > 1 {
      ConcatAlpha(parts[1..]);
    } else {
      assert Concat(parts) == parts[0] + Concat([]);
    }
  }
}
