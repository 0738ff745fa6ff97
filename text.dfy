/**
 * The JavaScript string primitives the routes and components rely on, over Unicode
 * scalar values: `toLowerCase` restricted to ASCII, the `\s` class and `trim`,
 * `includes`, and the word-boundary test `\b` of a regular expression without the
 * `u` flag (word characters are ASCII `[A-Za-z0-9_]`).
 */
module Text {
  import opened Wrappers

  // ---------------------------------------------------------------------------
  // Characters

  /** ECMAScript WhiteSpace or LineTerminator: what `\s` matches and `trim` removes. */
  predicate IsSpace(c: char) {
    c == '\t' || c == '\n' || c == '\U{000B}' || c == '\U{000C}' || c == '\r' || c == ' '
    || c == '\U{00A0}' || c == '\U{1680}' || ('\U{2000}' <= c <= '\U{200A}')
    || c == '\U{2028}' || c == '\U{2029}' || c == '\U{202F}' || c == '\U{205F}'
    || c == '\U{3000}' || c == '\U{FEFF}'
  }

  /** `\w` of a regular expression without the `u` flag. */
  predicate IsWordChar(c: char) {
    ('A' <= c <= 'Z') || ('a' <= c <= 'z') || ('0' <= c <= '9') || c == '_'
  }

  /** `toLowerCase` on one character, restricted to ASCII. */
  function Lower(c: char): char {
    if 'A' <= c <= 'Z' then (c as int + 32) as char else c
  }

  /**
   * `s.toLowerCase()` over ASCII: each upper-case letter becomes its lower-case
   * letter, no upper-case letter is left, and word characters stay word
   * characters, so `\b` positions do not move.
   */
  function LowerStr(s: string): (r: string)
    ensures |r| == |s|
    ensures forall i :: 0 <= i < |s| && 'A' <= s[i] <= 'Z' ==> r[i] as int == s[i] as int + 32
    ensures forall i :: 0 <= i < |r| ==> !('A' <= r[i] <= 'Z') && (IsWordChar(r[i]) <==> IsWordChar(s[i]))
    ensures forall i :: 0 <= i < |r| ==> !('A' <= s[i] <= 'Z') ==> r[i] == s[i]
  {
    seq(|s|, i requires 0 <= i < |s| => Lower(s[i]))
  }

  /** No character of `s` is in the `\s` class. */
  predicate NoSpace(s: string) {
    forall i :: 0 <= i < |s| ==> !IsSpace(s[i])
  }

  /** Every character of `s` is in the `\s` class (`s.trim()` is empty). */
  predicate Blank(s: string) {
    forall i :: 0 <= i < |s| ==> IsSpace(s[i])
  }

  // ---------------------------------------------------------------------------
  // trim

  /** Number of leading `\s` characters. */
  function LeadingSpaces(s: string): (n: nat)
    ensures n <= |s|
    ensures forall i :: 0 <= i < n ==> IsSpace(s[i])
    ensures n < |s| ==> !IsSpace(s[n])
  {
    if |s| > 0 && IsSpace(s[0]) then 1 + LeadingSpaces(s[1..]) else 0
  }

  /** Number of trailing `\s` characters. */
  function TrailingSpaces(s: string): (n: nat)
    ensures n <= |s|
    ensures forall i :: |s| - n <= i < |s| ==> IsSpace(s[i])
    ensures n < |s| ==> !IsSpace(s[|s| - 1 - n])
  {
    if |s| > 0 && IsSpace(s[|s| - 1]) then 1 + TrailingSpaces(s[..|s| - 1]) else 0
  }

  /** `String.prototype.trim`: no whitespace is left at either end, and nothing is left of all-whitespace text. */
  function Trim(s: string): (r: string)
    ensures r != [] ==> !IsSpace(r[0]) && !IsSpace(r[|r| - 1])
    ensures r == [] <==> Blank(s)
  {
    var a := LeadingSpaces(s);
    var t := s[a..];
    var r := t[..|t| - TrailingSpaces(t)];
    TrimEdges(s, a, t, r);
    TrimEmpty(s, a, t, r);
    r
  }

  /** What `Trim` removes is whitespace only, from the two ends of the text. */
  lemma TrimCutsEnds(s: string)
    ensures var r := Trim(s);
      exists i :: SubstringAt(s, r, i) && Blank(s[..i]) && Blank(s[i + |r|..])
  {
    var a := LeadingSpaces(s);
    var t := s[a..];
    TrimSubstring(s, a, t, t[..|t| - TrailingSpaces(t)]);
  }

  lemma TrimSubstring(s: string, a: nat, t: string, r: string)
    requires a == LeadingSpaces(s) && t == s[a..] && r == t[..|t| - TrailingSpaces(t)]
    ensures SubstringAt(s, r, a) && Blank(s[..a]) && Blank(s[a + |r|..])
  {
    assert r == s[a..a + |r|];
    var tail := s[a + |r|..];
    assert tail == t[|r|..];
    assert Blank(tail) by {
      forall i | 0 <= i < |tail| ensures IsSpace(tail[i]) {
        assert tail[i] == t[|r| + i];
      }
    }
  }

  lemma TrimEdges(s: string, a: nat, t: string, r: string)
    requires a == LeadingSpaces(s) && t == s[a..] && r == t[..|t| - TrailingSpaces(t)]
    ensures r != [] ==> !IsSpace(r[0]) && !IsSpace(r[|r| - 1])
  {
    if r != [] {
      assert r[0] == s[a];
    }
  }

  lemma TrimEmpty(s: string, a: nat, t: string, r: string)
    requires a == LeadingSpaces(s) && t == s[a..] && r == t[..|t| - TrailingSpaces(t)]
    ensures r == [] <==> Blank(s)
  {
    NotAllTrailing(s, a, t);
  }

  /** Once the leading spaces are cut, what is left does not consist of trailing spaces alone. */
  lemma NotAllTrailing(s: string, a: nat, t: string)
    requires a == LeadingSpaces(s) && t == s[a..]
    ensures a < |s| ==> TrailingSpaces(t) < |t|
  {
    if a < |s| {
      assert t[0] == s[a];
    }
  }

  /** A string with no space at either end is its own trim. */
  lemma TrimUnchanged(s: string)
    requires s != [] && !IsSpace(s[0]) && !IsSpace(s[|s| - 1])
    ensures Trim(s) == s
  {
    assert LeadingSpaces(s) == 0 && TrailingSpaces(s) == 0;
    assert s[0..] == s && s[..|s|] == s;
  }

  // ---------------------------------------------------------------------------
  // includes

  /** `w` occurs in `s` starting at index `i`. */
  predicate SubstringAt(s: string, w: string, i: int) {
    0 <= i && i + |w| <= |s| && s[i..i + |w|] == w
  }

  /** `s.includes(w)`: `w` occurs somewhere in `s`. */
  predicate Includes(s: string, w: string) {
    exists i | 0 <= i <= |s| - |w| :: SubstringAt(s, w, i)
  }

  /**
   * `s.includes(ws[0]) || s.includes(ws[1]) || ...`; the tests have no side
   * effects, so the order in which they run does not matter.
   */
  predicate IncludesAny(s: string, ws: seq<string>) {
    exists k | 0 <= k < |ws| :: Includes(s, ws[k])
  }

  // ---------------------------------------------------------------------------
  // Whole words: /\b(w0|w1|...)\b/.test(s)

  /** Position `p` holds a word character. */
  predicate WordCharAt(s: string, p: int) {
    0 <= p < |s| && IsWordChar(s[p])
  }

  /** `\b` holds between positions `p - 1` and `p`. */
  predicate BoundaryAt(s: string, p: int) {
    WordCharAt(s, p - 1) != WordCharAt(s, p)
  }

  /** `\bw\b` matches `s` at index `i`. */
  predicate WholeWordAt(s: string, w: string, i: int) {
    SubstringAt(s, w, i) && BoundaryAt(s, i) && BoundaryAt(s, i + |w|)
  }

  /** `/\bw\b/.test(s)`: `w` occurs somewhere in `s` as a whole word. */
  predicate HasWord(s: string, w: string) {
    exists i | 0 <= i <= |s| - |w| :: WholeWordAt(s, w, i)
  }

  /**
   * `/\b(ws[0]|ws[1]|...)\b/.test(s)`: the regular expression backtracks over the
   * alternatives at every start index, so it matches exactly when one alternative
   * matches as a whole word somewhere.
   */
  predicate HasAnyWord(s: string, ws: seq<string>) {
    exists k | 0 <= k < |ws| :: HasWord(s, ws[k])
  }

  // ---------------------------------------------------------------------------
  // First-match rule tables: an if / else-if chain of `includes` tests

  /** One row of a first-match table: a value guarded by the keys that select it. */
  datatype Rule<T> = Rule(keys: seq<string>, value: T)

  /** Index of the first rule at or after `k` one of whose keys `s` includes. */
  function FirstRule<T>(rules: seq<Rule<T>>, s: string, k: nat): (r: Option<nat>)
    decreases |rules| - k
    ensures r.Some? ==> k <= r.value < |rules|
  {
    if k >= |rules| then None
    else if IncludesAny(s, rules[k].keys) then Some(k)
    else FirstRule(rules, s, k + 1)
  }

  /** The scan stops at a matching rule with no match before it, and finds nothing only when no rule matches. */
  lemma {:induction false} FirstRuleFinds<T>(rules: seq<Rule<T>>, s: string, k: nat)
    decreases |rules| - k
    ensures FirstRule(rules, s, k).Some? ==>
      var i := FirstRule(rules, s, k).value;
      IncludesAny(s, rules[i].keys) && forall j :: k <= j < i ==> !IncludesAny(s, rules[j].keys)
    ensures FirstRule(rules, s, k).None? ==>
      forall j :: k <= j < |rules| ==> !IncludesAny(s, rules[j].keys)
  {
    if k < |rules| && !IncludesAny(s, rules[k].keys) {
      FirstRuleFinds(rules, s, k + 1);
    }
  }

  /** First match wins: rule `i` is selected exactly when it matches and no earlier rule does. */
  lemma FirstRuleIs<T>(rules: seq<Rule<T>>, s: string, i: nat)
    ensures FirstRule(rules, s, 0) == Some(i) <==>
      i < |rules| && IncludesAny(s, rules[i].keys)
      && forall j :: 0 <= j < i ==> !IncludesAny(s, rules[j].keys)
  {
    FirstRuleFinds(rules, s, 0);
  }

  /** One step of the scan, for callers that follow a table row by row. */
  lemma FirstRuleStep<T>(rules: seq<Rule<T>>, s: string, k: nat)
    requires k < |rules|
    ensures FirstRule(rules, s, k)
      == if IncludesAny(s, rules[k].keys) then Some(k) else FirstRule(rules, s, k + 1)
  {
  }

  /** The value of the first rule that matches `s`, or `default` when none does. */
  function Choose<T>(rules: seq<Rule<T>>, s: string, default: T): T {
    match FirstRule(rules, s, 0)
    case Some(i) => rules[i].value
    case None => default
  }

  // ---------------------------------------------------------------------------
  // join and split

  /** `ls.join(sep)`. */
  function Join(ls: seq<string>, sep: char): string {
    if |ls| == 0 then "" else if |ls| == 1 then ls[0] else ls[0] + [sep] + Join(ls[1..], sep)
  }

  /** `s.split(sep)`: the pieces between the separators, always at least one. */
  function Split(s: string, sep: char): (r: seq<string>)
    ensures |r| >= 1
  {
    if s == [] then [[]]
    else if s[0] == sep then [[]] + Split(s[1..], sep)
    else var t := Split(s[1..], sep); [[s[0]] + t[0]] + t[1..]
  }

  /** `sep` does not occur in `s`. */
  predicate Free(s: string, sep: char) {
    forall i :: 0 <= i < |s| ==> s[i] != sep
  }

  /** Two pieces free of `sep` make a string free of it. */
  lemma FreeConcat(a: string, b: string, sep: char)
    requires Free(a, sep) && Free(b, sep)
    ensures Free(a + b, sep)
  {
    forall i | 0 <= i < |a + b| ensures (a + b)[i] != sep {
      if i >= |a| { assert (a + b)[i] == b[i - |a|]; }
    }
  }

  /** A piece free of the separator, then the separator, starts the split with that piece. */
  lemma {:induction false} SplitPiece(e: string, sep: char, rest: string)
    requires Free(e, sep)
    ensures Split(e + [sep] + rest, sep) == [e] + Split(rest, sep)
    ensures Split(e, sep) == [e]
  {
    if e != [] {
      assert (e + [sep] + rest)[1..] == e[1..] + [sep] + rest;
      SplitPiece(e[1..], sep, rest);
      assert [e[0]] + e[1..] == e;
    }
  }

  /** Splitting a join gives back the pieces when none of them holds the separator. */
  lemma {:induction false} SplitJoin(ls: seq<string>, sep: char)
    requires |ls| >= 1
    requires forall k :: 0 <= k < |ls| ==> Free(ls[k], sep)
    ensures Split(Join(ls, sep), sep) == ls
  {
    if |ls| == 1 {
      SplitPiece(ls[0], sep, "");
    } else {
      SplitJoin(ls[1..], sep);
      SplitPiece(ls[0], sep, Join(ls[1..], sep));
      assert [ls[0]] + ls[1..] == ls;
    }
  }

  // ---------------------------------------------------------------------------
  // Environment variables

  /** `process.env.X` is truthy: present and not the empty string. */
  predicate IsSet(v: Option<string>) {
    v.Some? && v.value != ""
  }
}
