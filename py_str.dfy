/**
 * The handful of Python `str` and `os.path` (POSIX) operations the profile
 * builder relies on, written out on `seq<char>`.
 */
module PyStr {
  import opened Wrappers

  /** `str.upper()` on one character, ASCII letters only. */
  function UpperChar(c: char): char {
    if 'a' <= c <= 'z' then (c as int - 32) as char else c
  }

  /** `str.lower()` on one character, ASCII letters only. */
  function LowerChar(c: char): char {
    if 'A' <= c <= 'Z' then (c as int + 32) as char else c
  }

  function Upper(s: string): string {
    seq(|s|, i requires 0 <= i < |s| => UpperChar(s[i]))
  }

  function Lower(s: string): string {
    seq(|s|, i requires 0 <= i < |s| => LowerChar(s[i]))
  }

  /** Case mapping after case mapping: the second one decides. */
  lemma CaseOfCase(c: char)
    ensures UpperChar(UpperChar(c)) == UpperChar(c) && UpperChar(LowerChar(c)) == UpperChar(c)
    ensures LowerChar(LowerChar(c)) == LowerChar(c) && LowerChar(UpperChar(c)) == LowerChar(c)
  {
  }

  lemma LowerOfCase(s: string)
    ensures Lower(Lower(s)) == Lower(s)
    ensures Lower(Upper(s)) == Lower(s)
  {
    forall i | 0 <= i < |s|
      ensures Lower(Lower(s))[i] == Lower(s)[i] && Lower(Upper(s))[i] == Lower(s)[i]
    {
      CaseOfCase(s[i]);
    }
  }

  /** `s.startswith(prefix)`. */
  predicate StartsWith(s: string, prefix: string) {
    |prefix| <= |s| && s[..|prefix|] == prefix
  }

  /** `"sep".join(fields)` for a one-character separator. */
  function Join(fields: seq<string>, sep: char): string
    requires |fields| >= 1
  {
    if |fields| == 1 then fields[0] else fields[0] + [sep] + Join(fields[1..], sep)
  }

  /** `s.split(sep)`: every field, empty ones included; never an empty list. */
  function Split(s: string, sep: char): (fields: seq<string>)
    ensures |fields| >= 1
    ensures forall i | 0 <= i < |fields| :: sep !in fields[i]
    decreases |s|
  {
    if s == [] then [""]
    else
      var rest := Split(s[1..], sep);
      if s[0] == sep then [""] + rest
      else [[s[0]] + rest[0]] + rest[1..]
  }

  /** Splitting and joining again with the same separator gives back the text. */
  lemma {:induction false} SplitJoin(s: string, sep: char)
    ensures Join(Split(s, sep), sep) == s
    decreases |s|
  {
    if s != [] {
      var rest := Split(s[1..], sep);
      SplitJoin(s[1..], sep);
      if s[0] == sep {
        assert Split(s, sep)[1..] == rest;
      } else if |rest| == 1 {
        assert Join(Split(s, sep), sep) == [s[0]] + rest[0];
      } else {
        assert Split(s, sep)[1..] == rest[1..];
        assert Join(rest, sep) == rest[0] + [sep] + Join(rest[1..], sep);
      }
    }
  }

  /** There is one more field than there are separators. */
  lemma {:induction false} SplitCount(s: string, sep: char)
    ensures |Split(s, sep)| == multiset(s)[sep] + 1
    decreases |s|
  {
    if s != [] {
      SplitCount(s[1..], sep);
      assert s == [s[0]] + s[1..];
      assert multiset(s) == multiset([s[0]]) + multiset(s[1..]);
    }
  }

  /** `s.rfind(c)`, with `None` for Python's -1. */
  function RFind(s: string, c: char): (r: Option<nat>)
    ensures r.None? <==> c !in s
    ensures r.Some? ==> r.value < |s| && s[r.value] == c && c !in s[r.value + 1..]
  {
    if s == [] then None
    else if s[|s| - 1] == c then Some(|s| - 1)
    else
      assert s == s[..|s| - 1] + [s[|s| - 1]];
      RFind(s[..|s| - 1], c)
  }

  /** An occurrence of `c` with none after it is the one RFind finds. */
  lemma RFindIs(s: string, c: char, i: nat)
    requires i < |s| && s[i] == c
    requires forall j | i < j < |s| :: s[j] != c
    ensures RFind(s, c) == Some(i)
  {
    var r := RFind(s, c);
    assert r.Some?;
  }

  /** `s.rsplit(c, 1)[0]`: the text before the last `c`, or all of `s`. */
  function BeforeLast(s: string, c: char): string {
    match RFind(s, c)
    case None => s
    case Some(i) => s[..i]
  }

  /** `os.path.basename(p)` on POSIX: what follows the last "/". */
  function Basename(p: string): string {
    match RFind(p, '/')
    case None => p
    case Some(i) => p[i + 1..]
  }

  /**
   * `os.path.splitext(p)[0]` on POSIX: drop the text from the last "." on,
   * unless that dot belongs to the final path component's run of leading
   * dots (".bashrc" keeps its name).
   */
  function SplitextRoot(p: string): string {
    var sepIndex := RFind(p, '/');
    var dotIndex := RFind(p, '.');
    if dotIndex.Some? && (sepIndex.None? || dotIndex.value > sepIndex.value) then
      var filenameIndex := if sepIndex.None? then 0 else sepIndex.value + 1;
      if exists j | filenameIndex <= j < dotIndex.value :: p[j] != '.' then p[..dotIndex.value] else p
    else p
  }

  /** Python's `xs[i]` index rule: negative indices count from the end. */
  function PyIndex(length: nat, i: int): (r: Option<nat>)
    ensures r.Some? ==> r.value < length
    ensures r.Some? <==> 0 <= length + i && i < length
    ensures r.Some? && i >= 0 ==> r.value == i
    ensures r.Some? && i < 0 ==> r.value == length + i
  {
    if 0 <= i < length then Some(i)
    else if 0 <= length + i && i < 0 then Some(length + i)
    else None
  }
}
