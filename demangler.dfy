/**
 * The best-effort name simplifier of drakpdb/drakpdb.py (class Demangler):
 * an ordered list of rules, the first that applies wins. The regular
 * expressions of the source are written out as explicit matchers.
 */
module Demangler {
  import opened Wrappers
  import opened PdbRecords
  import opened PyStr

  /**
   * The escape tokens of a mangled string literal and the text each stands
   * for, in the order the alternation tries them. "?2" stands for two
   * backslash characters.
   */
  const StringMangleMap: seq<(string, string)> := [
      ("?0", ","),
      ("?1", "/"),
      ("?2", "\\\\"),
      ("?4", "."),
      ("?3", ":"),
      ("?5", "_"),
      ("?6", "."),
      ("?7", "\""),
      ("?8", "'"),
      ("?9", "-"),
      ("?$AA", ""),
      ("?$AN", ""),
      ("?$CF", "%"),
      ("?$EA", "@"),
      ("?$CD", "#"),
      ("?$CG", "&"),
      ("?$HO", "~"),
      ("?$CI", "("),
      ("?$CJ", ")"),
      ("?$DM1", "</"),
      ("?$DMO", ">"),
      ("?$DN", "="),
      ("?$CK", "*"),
      ("?$CB", "!")
    ]

  /** `[A-Za-z0-9_]` */
  predicate IsIdentChar(c: char) {
    'A' <= c <= 'Z' || 'a' <= c <= 'z' || '0' <= c <= '9' || c == '_'
  }

  /** `\d`, read as the ASCII digits. */
  predicate IsDigit(c: char) {
    '0' <= c <= '9'
  }

  predicate IsIdent(s: string) {
    |s| >= 1 && forall i | 0 <= i < |s| :: IsIdentChar(s[i])
  }

  /** `\d{1,3}` matching the whole of `s`. */
  predicate IsShortDigitRun(s: string) {
    1 <= |s| <= 3 && forall i | 0 <= i < |s| :: IsDigit(s[i])
  }

  /** The length of the longest run of identifier characters `s` starts with. */
  function IdentPrefixLength(s: string): (n: nat)
    ensures n <= |s|
    ensures forall i | 0 <= i < n :: IsIdentChar(s[i])
    ensures n < |s| ==> !IsIdentChar(s[n])
  {
    if s == [] || !IsIdentChar(s[0]) then 0 else 1 + IdentPrefixLength(s[1..])
  }

  /**
   * `SIMPLE_X86_CALL.match`, the pattern `[_@]([A-Za-z0-9_]+)@(\d{1,3})$`:
   * the identifier, when the whole name matches. As in Python, `$` also
   * matches just before a final newline.
   */
  function MatchX86Call(s: string): Option<string> {
    if |s| == 0 || (s[0] != '_' && s[0] != '@') then None
    else
      var n := IdentPrefixLength(s[1..]);
      if n == 0 || 1 + n >= |s| || s[1 + n] != '@' then None
      else
        var tail := s[2 + n..];
        var digits := if |tail| > 0 && tail[|tail| - 1] == '\n' then tail[..|tail| - 1] else tail;
        if IsShortDigitRun(digits) then Some(s[1..1 + n]) else None
  }

  /** `FUNCTION_NAME_RE.match`, the pattern `\?([A-Za-z0-9_]+)@` at the start of the name. */
  function MatchFunctionName(s: string): Option<string> {
    if |s| == 0 || s[0] != '?' then None
    else
      var n := IdentPrefixLength(s[1..]);
      if n == 0 || 1 + n >= |s| || s[1 + n] != '@' then None
      else Some(s[1..1 + n])
  }

  /**
   * The first escape token, in table order, that `s` starts with: the
   * alternation tries its branches in order and takes the first that
   * matches, and matches nothing exactly when no branch does.
   */
  function FirstToken(s: string, entries: seq<(string, string)>): (r: Option<(string, string)>)
    ensures r.None? <==> forall i | 0 <= i < |entries| :: !StartsWith(s, entries[i].0)
    ensures r.Some? ==> exists i | 0 <= i < |entries| ::
      && entries[i] == r.value
      && StartsWith(s, entries[i].0)
      && forall j | 0 <= j < i :: !StartsWith(s, entries[j].0)
  {
    if entries == [] then None
    else if StartsWith(s, entries[0].0) then Some(entries[0])
    else FirstToken(s, entries[1..])
  }

  /** Every token is a "?" and at least one more character, and stands for no longer a text. */
  lemma TokensNonEmpty()
    ensures forall i | 0 <= i < |StringMangleMap| ::
      |StringMangleMap[i].0| >= 2 && StringMangleMap[i].0[0] == '?'
      && |StringMangleMap[i].1| <= |StringMangleMap[i].0|
  {
  }

  /**
   * `STRING_MANGLE_RE.sub`: scanning left to right, each escape token is
   * replaced by its text; every other character is kept.
   */
  function UnescapeLiteral(s: string): string
    decreases |s|
  {
    if s == [] then ""
    else
      match FirstToken(s, StringMangleMap)
      case Some((token, replacement)) =>
        TokensNonEmpty();
        replacement + UnescapeLiteral(s[|token|..])
      case None => [s[0]] + UnescapeLiteral(s[1..])
  }

  /** `_UnpackMangledString`: "str:" and the unescaped fourth "@"-separated field. */
  function UnpackMangledString(s: string): Result<string, Raised> {
    var fields := Split(s, '@');
    if |fields| < 4 then Err(IndexError("list index out of range"))
    else Ok("str:" + UnescapeLiteral(fields[3]))
  }

  /** `DemangleName`: the first rule that applies decides. */
  function DemangleName(mangledName: string): Result<string, Raised> {
    match MatchX86Call(mangledName)
    case Some(ident) => Ok(ident)
    case None =>
      match MatchFunctionName(mangledName)
      case Some(ident) => Ok(ident)
      case None =>
        if |mangledName| > 0 && (mangledName[0] == '_' || mangledName[0] == '.') then Ok(mangledName[1..])
        else if StartsWith(mangledName, "??_C@") then UnpackMangledString(mangledName)
        else Ok(mangledName)
  }

  /** The declarative reading of SIMPLE_X86_CALL: the whole name is `[_@]ident@ddd`. */
  ghost predicate X86CallShape(s: string, ident: string) {
    && IsIdent(ident)
    && |s| >= |ident| + 3
    && (s[0] == '_' || s[0] == '@')
    && s[1..1 + |ident|] == ident
    && s[1 + |ident|] == '@'
    && (IsShortDigitRun(s[2 + |ident|..])
        || (s[|s| - 1] == '\n' && IsShortDigitRun(s[2 + |ident|..|s| - 1])))
  }

  /** The declarative reading of FUNCTION_NAME_RE: the name starts `?ident@`. */
  ghost predicate FunctionNameShape(s: string, ident: string) {
    && IsIdent(ident)
    && |s| >= |ident| + 2
    && s[0] == '?'
    && s[1..1 + |ident|] == ident
    && s[1 + |ident|] == '@'
  }

  /** A maximal identifier run of length `k` is what IdentPrefixLength finds. */
  lemma IdentPrefixLengthIs(t: string, k: nat)
    requires k <= |t|
    requires forall i | 0 <= i < k :: IsIdentChar(t[i])
    requires k < |t| ==> !IsIdentChar(t[k])
    ensures IdentPrefixLength(t) == k
  {
  }

  /** MatchX86Call finds exactly the identifiers of the declarative shape. */
  lemma X86CallMatches(s: string, ident: string)
    ensures MatchX86Call(s) == Some(ident) <==> X86CallShape(s, ident)
  {
    if X86CallShape(s, ident) {
      X86CallFound(s, ident);
    }
    if MatchX86Call(s) == Some(ident) {
      X86CallSound(s, ident);
    }
  }

  /** A name of the declarative shape is matched, with its identifier. */
  lemma X86CallFound(s: string, ident: string)
    requires X86CallShape(s, ident)
    ensures MatchX86Call(s) == Some(ident)
  {
    IdentPrefixLengthIs(s[1..], |ident|);
    var tail := s[2 + |ident|..];
    assert |tail| > 0 && tail[|tail| - 1] == s[|s| - 1];
    if s[|s| - 1] == '\n' {
      assert !IsShortDigitRun(tail);
      assert tail[..|tail| - 1] == s[2 + |ident|..|s| - 1];
    }
  }

  /** Whatever is matched has the declarative shape. */
  lemma X86CallSound(s: string, ident: string)
    requires MatchX86Call(s) == Some(ident)
    ensures X86CallShape(s, ident)
  {
    var n := IdentPrefixLength(s[1..]);
    assert ident == s[1..1 + n];
    var tail := s[2 + n..];
    if |tail| > 0 && tail[|tail| - 1] == '\n' {
      var head, rest := tail[..|tail| - 1], s[2 + n..|s| - 1];
      assert |head| == |rest|;
      forall k | 0 <= k < |head|
        ensures head[k] == rest[k]
      {
      }
      assert head == rest;
    }
  }

  /** MatchFunctionName finds exactly the identifiers of the declarative shape. */
  lemma FunctionNameMatches(s: string, ident: string)
    ensures MatchFunctionName(s) == Some(ident) <==> FunctionNameShape(s, ident)
  {
    if FunctionNameShape(s, ident) {
      IdentPrefixLengthIs(s[1..], |ident|);
    }
  }

  /** Rule 1: an x86 `_cdecl`/`__stdcall` name gives its bare identifier. */
  lemma DemangleX86Call(s: string, ident: string)
    requires X86CallShape(s, ident)
    ensures DemangleName(s) == Ok(ident)
  {
    X86CallMatches(s, ident);
  }

  /** Rule 2: a C++ name `?ident@...` gives its identifier. */
  lemma DemangleFunctionName(s: string, ident: string)
    requires FunctionNameShape(s, ident)
    ensures DemangleName(s) == Ok(ident)
  {
    FunctionNameMatches(s, ident);
  }

  /** Rule 3: otherwise one leading "_" or "." is dropped. */
  lemma DemangleStripsLeadingMark(s: string)
    requires |s| > 0 && (s[0] == '_' || s[0] == '.')
    requires forall ident :: !X86CallShape(s, ident)
    ensures DemangleName(s) == Ok(s[1..])
  {
    if MatchX86Call(s).Some? {
      X86CallMatches(s, MatchX86Call(s).value);
    }
  }

  /** Rule 4: a mangled string literal is unpacked, and unpacking fails when it has fewer than three "@". */
  lemma DemangleStringLiteral(s: string)
    requires StartsWith(s, "??_C@")
    ensures DemangleName(s) == UnpackMangledString(s)
    ensures DemangleName(s).Err? <==> multiset(s)['@'] < 3
    ensures DemangleName(s).Err? ==> DemangleName(s).error.IndexError?
  {
    assert s[1] == "??_C@"[1];
    SplitCount(s, '@');
  }

  /** Rule 5: a name no earlier rule applies to is returned as it is. */
  lemma DemangleKeepsOtherNames(s: string)
    requires MatchX86Call(s).None? && MatchFunctionName(s).None?
    requires !(|s| > 0 && (s[0] == '_' || s[0] == '.'))
    requires !StartsWith(s, "??_C@")
    ensures DemangleName(s) == Ok(s)
  {
  }

  /** No escape token starts with anything but "?". */
  lemma {:induction false} NoTokenWithoutMark(s: string, entries: seq<(string, string)>)
    requires s != [] && s[0] != '?'
    requires forall i | 0 <= i < |entries| :: |entries[i].0| >= 1 && entries[i].0[0] == '?'
    ensures FirstToken(s, entries) == None
  {
    if entries != [] {
      NoTokenWithoutMark(s, entries[1..]);
    }
  }

  /** Text without a "?" is left unchanged by the unescaping. */
  lemma {:induction false} UnescapeKeepsPlainText(s: string)
    requires '?' !in s
    ensures UnescapeLiteral(s) == s
    decreases |s|
  {
    if s != [] {
      TokensNonEmpty();
      NoTokenWithoutMark(s, StringMangleMap);
      assert UnescapeLiteral(s) == [s[0]] + UnescapeLiteral(s[1..]);
      assert '?' !in s[1..] by {
        assert forall i | 0 <= i < |s[1..]| :: s[1..][i] == s[i + 1];
      }
      UnescapeKeepsPlainText(s[1..]);
    }
  }

  /** Two tokens disagree at their second, third, fourth or fifth character. */
  predicate Differ(a: string, b: string) {
    || (1 < |a| && 1 < |b| && a[1] != b[1])
    || (3 < |a| && 3 < |b| && (a[2] != b[2] || a[3] != b[3]))
    || (4 < |a| && 4 < |b| && a[4] != b[4])
  }

  /** Any two tokens of the table disagree somewhere both are defined. */
  lemma TokensDiffer()
    ensures forall j, i | 0 <= j < i < |StringMangleMap| :: Differ(StringMangleMap[j].0, StringMangleMap[i].0)
  {
  }

  /** A text that starts with one of two disagreeing tokens does not start with the other. */
  lemma DifferExcludes(s: string, a: string, b: string)
    requires Differ(a, b) && StartsWith(s, b)
    ensures !StartsWith(s, a)
  {
  }

  /**
   * A token at the head of the text is the one the alternation picks, so
   * it is replaced by its own text and the scan goes on after it.
   */
  lemma UnescapeToken(i: nat, rest: string)
    requires i < |StringMangleMap|
    ensures UnescapeLiteral(StringMangleMap[i].0 + rest) == StringMangleMap[i].1 + UnescapeLiteral(rest)
  {
    var (token, replacement) := StringMangleMap[i];
    var s := token + rest;
    assert s[..|token|] == token;
    TokensDiffer();
    forall j | 0 <= j < i
      ensures !StartsWith(s, StringMangleMap[j].0)
    {
      DifferExcludes(s, StringMangleMap[j].0, token);
    }
    var r := FirstToken(s, StringMangleMap);
    assert r == Some((token, replacement));
    assert s[|token|..] == rest;
  }

  /** Unescaping never makes the text longer. */
  lemma {:induction false} UnescapeNeverLonger(s: string)
    ensures |UnescapeLiteral(s)| <= |s|
    decreases |s|
  {
    if s != [] {
      TokensNonEmpty();
      match FirstToken(s, StringMangleMap)
      case Some((token, replacement)) =>
        UnescapeNeverLonger(s[|token|..]);
      case None =>
        UnescapeNeverLonger(s[1..]);
    }
  }

  lemma DemangleX86Example()
    ensures DemangleName("_Baz@4") == Ok("Baz")
  {
    var s := "_Baz@4";
    assert s[1..4] == "Baz";
    assert IsShortDigitRun(s[5..]);
    DemangleX86Call(s, "Baz");
  }

  lemma DemangleFunctionNameExample()
    ensures DemangleName("?Bar@@YAHXZ") == Ok("Bar")
  {
    var s := "?Bar@@YAHXZ";
    assert s[1..4] == "Bar";
    DemangleFunctionName(s, "Bar");
  }
}
