/**
 * The JavaScript string operations the application relies on, over
 * `seq<char>`: `includes`, `indexOf`, `replace` with a string pattern (first
 * occurrence), `replace` with a global pattern that contains no regular
 * expression metacharacters (every occurrence, left to right), an ASCII
 * `toLowerCase`, the blank test `!s.trim()`, decimal rendering of a number and
 * `join`.
 */
module Strings {
  import opened Wrappers

  /** `pat` occurs in `s` starting at index `k`. */
  predicate StartsAt(s: string, pat: string, k: nat) {
    k + |pat| <= |s| && s[k..k + |pat|] == pat
  }

  /** `s.indexOf(pat, from)`: the first index at or after `from` where `pat` occurs. */
  function IndexOfFrom(s: string, pat: string, from: nat): (r: Option<nat>)
    decreases |s| - from
    ensures r.Some? ==> from <= r.value && StartsAt(s, pat, r.value)
    ensures r.Some? ==> forall j :: from <= j < r.value ==> !StartsAt(s, pat, j)
    ensures r.None? ==> forall j :: from <= j ==> !StartsAt(s, pat, j)
  {
    if from + |pat| > |s| then None
    else if s[from..from + |pat|] == pat then Some(from)
    else IndexOfFrom(s, pat, from + 1)
  }

  /** An occurrence with none before it, from `from` on, is what the search finds. */
  lemma IndexOfFromAt(s: string, pat: string, from: nat, k: nat)
    requires from <= k && StartsAt(s, pat, k)
    requires forall j :: from <= j < k ==> !StartsAt(s, pat, j)
    ensures IndexOfFrom(s, pat, from) == Some(k)
  {
  }

  /** Every middle piece of a concatenation occurs in it. */
  lemma ContainsMiddle(a: string, b: string, c: string)
    ensures Contains(a + b + c, b)
  {
    ContainsSelf(b);
    ContainsInfix(a, b, c, b);
  }

  /** `s.indexOf(pat)`. */
  function IndexOf(s: string, pat: string): Option<nat> {
    IndexOfFrom(s, pat, 0)
  }

  /** `s.includes(pat)`. */
  predicate Contains(s: string, pat: string) {
    IndexOf(s, pat).Some?
  }

  lemma ContainsAt(s: string, pat: string, k: nat)
    requires StartsAt(s, pat, k)
    ensures Contains(s, pat)
  {
  }

  lemma ContainsSelf(u: string)
    ensures Contains(u, u)
  {
    assert StartsAt(u, u, 0);
  }

  /** A pattern does not start where the string holds a different first character. */
  lemma NotStartsAt(s: string, pat: string, k: nat)
    requires |pat| > 0 && k < |s| && s[k] != pat[0]
    ensures !StartsAt(s, pat, k)
  {
    if k + |pat| <= |s| {
      assert s[k..k + |pat|][0] == s[k];
    }
  }

  /** A pattern holding a character the string lacks does not occur in it. */
  lemma MissingChar(s: string, pat: string, c: char)
    requires c in pat && c !in s
    ensures !Contains(s, pat)
  {
  }

  /** Containment is transitive: a string holding `t` holds everything `t` holds. */
  lemma ContainsTransitive(s: string, t: string, u: string)
    requires Contains(s, t) && Contains(t, u)
    ensures Contains(s, u)
  {
    var i := IndexOf(s, t).value;
    var j := IndexOf(t, u).value;
    forall m | 0 <= m < |u|
      ensures s[i + j + m] == u[m]
    {
      assert u[m] == t[j..j + |u|][m] == t[j + m];
      assert t[j + m] == s[i..i + |t|][j + m];
    }
    assert s[i + j..i + j + |u|] == u;
    ContainsAt(s, u, i + j);
  }

  /** Whatever a piece holds, the concatenation around it holds too. */
  lemma ContainsInfix(a: string, b: string, c: string, u: string)
    requires Contains(b, u)
    ensures Contains(a + b + c, u)
  {
    var j := IndexOf(b, u).value;
    assert (a + b + c)[|a| + j..|a| + j + |u|] == b[j..j + |u|];
    ContainsAt(a + b + c, u, |a| + j);
  }

  /** Whatever a string holds, any extension of it holds too. */
  lemma ContainsPrefix(a: string, b: string, u: string)
    requires Contains(a, u)
    ensures Contains(a + b, u)
  {
    var j := IndexOf(a, u).value;
    assert (a + b)[j..j + |u|] == a[j..j + |u|];
    ContainsAt(a + b, u, j);
  }

  /** `s.replace(pat, rep)` with a string pattern: only the first occurrence is replaced. */
  function ReplaceFirst(s: string, pat: string, rep: string): (r: string)
    ensures IndexOf(s, pat).None? ==> r == s
    ensures IndexOf(s, pat).Some? ==>
      var k := IndexOf(s, pat).value;
      r == s[..k] + rep + s[k + |pat|..] && Contains(r, rep)
  {
    match IndexOf(s, pat)
    case None => s
    case Some(k) =>
      ContainsSelf(rep);
      ContainsInfix(s[..k], rep, s[k + |pat|..], rep);
      s[..k] + rep + s[k + |pat|..]
  }

  /** Replacing the first occurrence of a pattern that occurs before `m` leaves `m` untouched at the end. */
  lemma ReplaceFirstWithin(h: string, pat: string, m: string, rep: string) returns (front: string)
    requires |pat| > 0
    ensures ReplaceFirst(h + pat + m, pat, rep) == front + m && Contains(front + m, rep)
  {
    var s := h + pat + m;
    assert s[|h|..|h| + |pat|] == pat;
    assert StartsAt(s, pat, |h|);
    var k := IndexOf(s, pat).value;
    front := s[..k] + rep + s[k + |pat|..|h| + |pat|];
    assert s[k + |pat|..] == s[k + |pat|..|h| + |pat|] + m;
  }

  /**
   * `s.replace(new RegExp(pat, 'g'), rep)` for a pattern without metacharacters:
   * the search resumes after each replaced occurrence, so every non-overlapping
   * occurrence, found left to right, is replaced.
   */
  function ReplaceAll(s: string, pat: string, rep: string): (r: string)
    requires |pat| > 0
    ensures !Contains(s, pat) ==> r == s
    ensures Contains(s, pat) ==>
      var k := IndexOf(s, pat).value;
      k <= |r| && r[..k] == s[..k] && Contains(r, rep)
    decreases |s|
  {
    match IndexOf(s, pat)
    case None => s
    case Some(k) =>
      var tail := ReplaceAll(s[k + |pat|..], pat, rep);
      ContainsSelf(rep);
      ContainsInfix(s[..k], rep, tail, rep);
      assert (s[..k] + rep + tail)[..k] == s[..k];
      s[..k] + rep + tail
  }

  /** JavaScript's `toLowerCase`, restricted to the ASCII letters. */
  function LowerChar(c: char): (r: char)
    ensures 'A' <= c <= 'Z' ==> r == c - 'A' + 'a'
    ensures !('A' <= c <= 'Z') ==> r == c
  {
    if 'A' <= c <= 'Z' then c - 'A' + 'a' else c
  }

  function Lower(s: string): (r: string)
    ensures |r| == |s|
    ensures forall i :: 0 <= i < |s| ==> r[i] == LowerChar(s[i])
  {
    seq(|s|, i requires 0 <= i < |s| => LowerChar(s[i]))
  }

  /** Lowering a slice is slicing the lowered string. */
  lemma LowerSlice(s: string, i: nat, j: nat)
    requires i <= j <= |s|
    ensures Lower(s[i..j]) == Lower(s)[i..j]
  {
  }

  /** Lowering twice is lowering once. */
  lemma LowerIdempotent(s: string)
    ensures Lower(Lower(s)) == Lower(s)
  {
  }

  /** No ASCII letter occurs in `pat`, so lowering cannot produce or change any of its characters. */
  predicate NoLetters(pat: string) {
    forall i :: 0 <= i < |pat| ==> !('A' <= pat[i] <= 'Z') && !('a' <= pat[i] <= 'z')
  }

  lemma LowerKeepsOccurrence(s: string, pat: string, k: nat)
    requires NoLetters(pat) && StartsAt(s, pat, k)
    ensures StartsAt(Lower(s), pat, k)
  {
    forall i | 0 <= i < |pat|
      ensures Lower(s)[k + i] == pat[i]
    {
      assert s[k + i] == s[k..k + |pat|][i];
    }
  }

  lemma LowerRevealsOccurrence(s: string, pat: string, k: nat)
    requires NoLetters(pat) && StartsAt(Lower(s), pat, k)
    ensures StartsAt(s, pat, k)
  {
    forall i | 0 <= i < |pat|
      ensures s[k + i] == pat[i]
    {
      assert Lower(s)[k + i] == Lower(s)[k..k + |pat|][i];
      assert LowerChar(s[k + i]) == pat[i];
    }
  }

  /** Searching the lowered string for a pattern without letters is searching the string itself. */
  lemma ContainsLowerNoLetters(s: string, pat: string)
    requires NoLetters(pat)
    ensures Contains(Lower(s), pat) <==> Contains(s, pat)
  {
    if Contains(s, pat) {
      LowerKeepsOccurrence(s, pat, IndexOf(s, pat).value);
      ContainsAt(Lower(s), pat, IndexOf(s, pat).value);
    }
    if Contains(Lower(s), pat) {
      LowerRevealsOccurrence(s, pat, IndexOf(Lower(s), pat).value);
      ContainsAt(s, pat, IndexOf(Lower(s), pat).value);
    }
  }

  /** The characters `trim` removes (the ASCII ones). */
  predicate IsSpace(c: char) {
    c == ' ' || c == '\t' || c == '\n' || c == '\r' || c == '\U{000B}' || c == '\U{000C}'
  }

  /** `!s.trim()`: the string is empty once surrounding white space is removed. */
  predicate IsBlank(s: string) {
    forall i :: 0 <= i < |s| ==> IsSpace(s[i])
  }

  function DigitChar(d: nat): (c: char)
    requires d < 10
    ensures '0' <= c <= '9'
  {
    '0' + d as char
  }

  predicate AllDigits(s: string) {
    forall i :: 0 <= i < |s| ==> '0' <= s[i] <= '9'
  }

  /** The number a string of decimal digits denotes, most significant digit first. */
  function DecimalValue(s: string): nat
    requires AllDigits(s)
    decreases |s|
  {
    if s == [] then 0 else DecimalValue(s[..|s| - 1]) * 10 + (s[|s| - 1] - '0') as nat
  }

  /**
   * The decimal rendering of a natural number, as a template literal `${n}`
   * produces it: digits that denote `n`, with no leading zero.
   */
  function NatToString(n: nat): (r: string)
    ensures |r| > 0 && AllDigits(r)
    ensures DecimalValue(r) == n
    ensures |r| > 1 ==> r[0] != '0'
  {
    if n < 10 then [DigitChar(n)]
    else
      var r := NatToString(n / 10) + [DigitChar(n % 10)];
      assert r[..|r| - 1] == NatToString(n / 10);
      r
  }

  /** Different numbers render differently. */
  lemma NatToStringInjective(a: nat, b: nat)
    ensures NatToString(a) == NatToString(b) ==> a == b
  {
  }

  /** `parts.join(sep)`. */
  function Join(parts: seq<string>, sep: string): (r: string)
    ensures |parts| == 1 ==> r == parts[0]
    decreases |parts|
  {
    if |parts| == 0 then ""
    else if |parts| == 1 then parts[0]
    else parts[0] + sep + Join(parts[1..], sep)
  }
}
