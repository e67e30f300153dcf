/**
 * The Python string operations the uploader relies on, restricted to ASCII:
 * lower(), upper(), `in`, startswith(), strip(), replace() and slicing.
 */
module Text {
  import opened Common

  function LowerChar(c: char): char {
    if 'A' <= c <= 'Z' then (c as int + 32) as char else c
  }

  function UpperChar(c: char): char {
    if 'a' <= c <= 'z' then (c as int - 32) as char else c
  }

  /** str.lower() on ASCII letters. */
  function Lower(s: string): (r: string)
    ensures |r| == |s|
    ensures forall i :: 0 <= i < |s| ==> r[i] == LowerChar(s[i])
  {
    if s == [] then [] else [LowerChar(s[0])] + Lower(s[1..])
  }

  /** str.upper() on ASCII letters. */
  function Upper(s: string): (r: string)
    ensures |r| == |s|
    ensures forall i :: 0 <= i < |s| ==> r[i] == UpperChar(s[i])
  {
    if s == [] then [] else [UpperChar(s[0])] + Upper(s[1..])
  }

  lemma LowerIdempotent(s: string)
    ensures Lower(Lower(s)) == Lower(s)
  {
    assert forall i :: 0 <= i < |s| ==> Lower(Lower(s))[i] == Lower(s)[i];
  }

  /** Lower-casing an upper-cased string gives the lower-cased original. */
  lemma LowerOfUpper(s: string)
    ensures Lower(Upper(s)) == Lower(s)
  {
    assert forall i :: 0 <= i < |s| ==> Lower(Upper(s))[i] == Lower(s)[i];
  }

  lemma LowerConcat(a: string, b: string)
    ensures Lower(a + b) == Lower(a) + Lower(b)
  {
    assert forall i :: 0 <= i < |a + b| ==> Lower(a + b)[i] == (Lower(a) + Lower(b))[i];
  }

  /** Text without upper-case letters is its own lower-case form. */
  lemma LowerNoUpper(s: string)
    requires forall i :: 0 <= i < |s| ==> !('A' <= s[i] <= 'Z')
    ensures Lower(s) == s
  {
    assert forall i :: 0 <= i < |s| ==> Lower(s)[i] == s[i];
  }

  /** `pat` occurs in `s` starting at index `i`. */
  predicate OccursAt(s: string, pat: string, i: int) {
    0 <= i && i + |pat| <= |s| && s[i..i + |pat|] == pat
  }

  /** The leftmost occurrence of `pat` in `s` at or after `from` (str.find). */
  function IndexFrom(s: string, pat: string, from: nat): Option<nat>
    decreases |s| - from
  {
    if from + |pat| > |s| then None
    else if s[from..from + |pat|] == pat then Some(from)
    else IndexFrom(s, pat, from + 1)
  }

  /** str.find finds an occurrence, and none before it; without a result there is none at all. */
  lemma {:induction false} IndexFromSpec(s: string, pat: string, from: nat)
    decreases |s| - from
    ensures IndexFrom(s, pat, from).Some? ==>
      from <= IndexFrom(s, pat, from).value && OccursAt(s, pat, IndexFrom(s, pat, from).value)
    ensures IndexFrom(s, pat, from).Some? ==>
      forall j :: from <= j < IndexFrom(s, pat, from).value ==> !OccursAt(s, pat, j)
    ensures IndexFrom(s, pat, from).None? ==> forall j :: from <= j ==> !OccursAt(s, pat, j)
  {
    if from + |pat| <= |s| && s[from..from + |pat|] != pat {
      IndexFromSpec(s, pat, from + 1);
    }
  }

  /** Python's `pat in s`. */
  predicate Contains(s: string, pat: string) {
    IndexFrom(s, pat, 0).Some?
  }

  lemma ContainsIff(s: string, pat: string)
    ensures Contains(s, pat) <==> exists i :: OccursAt(s, pat, i)
  {
    IndexFromSpec(s, pat, 0);
  }

  /** The leftmost occurrence that `pat in s` finds. */
  lemma ContainsFirst(s: string, pat: string)
    requires Contains(s, pat)
    ensures OccursAt(s, pat, IndexFrom(s, pat, 0).value)
  {
    IndexFromSpec(s, pat, 0);
  }

  lemma ContainsAt(s: string, pat: string, i: int)
    requires OccursAt(s, pat, i)
    ensures Contains(s, pat)
  {
    ContainsIff(s, pat);
  }

  /** Whatever occurs inside an occurring string occurs in the whole string. */
  lemma ContainsTransitive(s: string, big: string, small: string)
    requires Contains(s, big) && Contains(big, small)
    ensures Contains(s, small)
  {
    var i := IndexFrom(s, big, 0).value;
    var k := IndexFrom(big, small, 0).value;
    ContainsFirst(s, big);
    ContainsFirst(big, small);
    assert s[i..i + |big|] == big;
    assert forall j :: 0 <= j < |small| ==> s[i + k + j] == big[k + j] == small[j];
    assert s[i + k..i + k + |small|] == small;
    ContainsAt(s, small, i + k);
  }

  /** A text without the pattern's first letter does not contain the pattern. */
  lemma NoLetterNoContains(s: string, pat: string)
    requires pat != []
    requires forall k :: 0 <= k < |s| ==> s[k] != pat[0]
    ensures !Contains(s, pat)
  {
    forall i ensures !OccursAt(s, pat, i) {
      if 0 <= i && i + |pat| <= |s| {
        assert s[i..i + |pat|][0] == s[i];
      }
    }
    ContainsIff(s, pat);
  }

  predicate StartsWith(s: string, prefix: string) {
    |prefix| <= |s| && s[..|prefix|] == prefix
  }

  /** The characters str.isspace() accepts in the ASCII range (also what `\s` matches). */
  predicate IsSpace(c: char) {
    c == ' ' || '\t' <= c <= '\r' || '\U{1c}' <= c <= '\U{1f}'
  }

  function LeadingSpaces(s: string): (n: nat)
    ensures n <= |s|
    ensures forall i :: 0 <= i < n ==> IsSpace(s[i])
    ensures n < |s| ==> !IsSpace(s[n])
  {
    if s == [] || !IsSpace(s[0]) then 0 else 1 + LeadingSpaces(s[1..])
  }

  function TrailingSpaces(s: string): (n: nat)
    ensures n <= |s|
    ensures forall i :: |s| - n <= i < |s| ==> IsSpace(s[i])
    ensures n < |s| ==> !IsSpace(s[|s| - n - 1])
  {
    if s == [] || !IsSpace(s[|s| - 1]) then 0 else 1 + TrailingSpaces(s[..|s| - 1])
  }

  /** str.strip(): the bounds of the part between the leading and trailing white space. */
  function StripBounds(s: string): (b: (nat, nat))
    ensures b.0 <= b.1 <= |s|
    ensures forall i :: 0 <= i < b.0 ==> IsSpace(s[i])
    ensures forall i :: b.1 <= i < |s| ==> IsSpace(s[i])
    ensures b.0 < b.1 ==> !IsSpace(s[b.0]) && !IsSpace(s[b.1 - 1])
    ensures b.0 == b.1 ==> forall i :: 0 <= i < |s| ==> IsSpace(s[i])
  {
    var lead := LeadingSpaces(s);
    var t := s[lead..];
    var trail := TrailingSpaces(t);
    (lead, |s| - trail)
  }

  function Strip(s: string): (r: string)
    ensures |r| <= |s|
    ensures r == s[StripBounds(s).0..StripBounds(s).1]
  {
    var b := StripBounds(s);
    s[b.0..b.1]
  }

  /** A string without surrounding white space is its own strip(). */
  lemma StripUnchanged(s: string)
    requires s == [] || (!IsSpace(s[0]) && !IsSpace(s[|s| - 1]))
    ensures Strip(s) == s
  {
  }

  /** strip() is idempotent. */
  lemma StripIdempotent(s: string)
    ensures Strip(Strip(s)) == Strip(s)
  {
    var b := StripBounds(s);
    var r := Strip(s);
    if b.0 < b.1 {
      assert r[0] == s[b.0] && r[|r| - 1] == s[b.1 - 1];
    }
    StripUnchanged(r);
  }

  /** strip() removes characters only at the ends, so it keeps a text lower-case. */
  lemma StripNoUpper(s: string)
    requires NoUpper(s)
    ensures NoUpper(Strip(s))
  {
    var b := StripBounds(s);
    assert forall i :: 0 <= i < |Strip(s)| ==> Strip(s)[i] == s[b.0 + i];
  }

  /** str.replace(pat, ""): left-to-right, non-overlapping removal without rescanning. */
  function RemoveAll(s: string, pat: string): (r: string)
    requires |pat| > 0
    decreases |s|
    ensures |r| <= |s|
  {
    if |s| < |pat| then s
    else if s[..|pat|] == pat then RemoveAll(s[|pat|..], pat)
    else [s[0]] + RemoveAll(s[1..], pat)
  }

  /** Text without the pattern is left as it is. */
  lemma {:induction false} RemoveAllUnchanged(s: string, pat: string)
    requires |pat| > 0 && !Contains(s, pat)
    ensures RemoveAll(s, pat) == s
    decreases |s|
  {
    if |s| >= |pat| {
      if s[..|pat|] == pat {
        ContainsAt(s, pat, 0);
        assert false;
      }
      NotContainsTail(s, pat);
      RemoveAllUnchanged(s[1..], pat);
    }
  }

  lemma NotContainsTail(s: string, pat: string)
    requires |s| > 0
    ensures !Contains(s, pat) ==> !Contains(s[1..], pat)
  {
    if Contains(s[1..], pat) {
      var i := IndexFrom(s[1..], pat, 0).value;
      ContainsFirst(s[1..], pat);
      assert s[1..][i..i + |pat|] == s[i + 1..i + 1 + |pat|];
      ContainsAt(s, pat, i + 1);
    }
  }

  /** The text has no upper-case ASCII letter. */
  predicate NoUpper(s: string) {
    forall i :: 0 <= i < |s| ==> !('A' <= s[i] <= 'Z')
  }

  /** Removing a pattern keeps only characters of the text, so lower-case text stays lower-case. */
  lemma {:induction false} RemoveAllNoUpper(s: string, pat: string)
    requires |pat| > 0 && NoUpper(s)
    ensures NoUpper(RemoveAll(s, pat))
    decreases |s|
  {
    if |s| >= |pat| {
      if s[..|pat|] == pat {
        RemoveAllNoUpper(s[|pat|..], pat);
      } else {
        RemoveAllNoUpper(s[1..], pat);
      }
    }
  }

  /** A prefix without the pattern's first letter is kept by the removal. */
  lemma {:induction false} RemoveAllPrefix(p: string, s: string, pat: string)
    requires |pat| > 0
    requires forall k :: 0 <= k < |p| ==> p[k] != pat[0]
    ensures RemoveAll(p + s, pat) == p + RemoveAll(s, pat)
    decreases |p|
  {
    if p != [] {
      var t := p + s;
      var rest := RemoveAll(s, pat);
      if |t| < |pat| {
        assert RemoveAll(t, pat) == t;
        assert RemoveAll(s, pat) == s;
      } else {
        assert t[..|pat|] != pat by {
          assert t[..|pat|][0] == p[0];
        }
        assert RemoveAll(t, pat) == [t[0]] + RemoveAll(t[1..], pat);
        assert RemoveAll(t[1..], pat) == p[1..] + rest by {
          assert t[1..] == p[1..] + s;
          RemoveAllPrefix(p[1..], s, pat);
        }
        assert t[0] == p[0];
        assert [p[0]] + (p[1..] + rest) == p + rest;
        assert RemoveAll(t, pat) == p + rest;
      }
    } else {
      assert p + s == s;
    }
  }

  /** Stripping keeps a leading word that ends in a non-space character. */
  lemma StripKeepsHead(s: string, n: nat)
    requires 0 < n <= |s|
    requires forall k :: 0 <= k < n ==> !IsSpace(s[k])
    ensures StartsWith(Strip(s), s[..n])
  {
    var b := StripBounds(s);
    assert !IsSpace(s[0]) && !IsSpace(s[n - 1]);
    assert b.0 == 0;
    assert b.1 >= n;
    assert Strip(s)[..n] == s[..n];
  }

  /** str.replace for one character by another. */
  function ReplaceChar(s: string, from: char, to: char): (r: string)
    ensures |r| == |s|
    ensures forall i :: 0 <= i < |s| ==> r[i] == if s[i] == from then to else s[i]
  {
    if s == [] then [] else [if s[0] == from then to else s[0]] + ReplaceChar(s[1..], from, to)
  }

  /** `.replace("[", "(").replace("]", ")")`, which the uploader applies to template names. */
  function Parenthesize(s: string): (r: string)
    ensures |r| == |s|
    ensures forall i :: 0 <= i < |r| ==> r[i] != '[' && r[i] != ']'
    ensures forall i :: 0 <= i < |s| ==>
      r[i] == (if s[i] == '[' then '(' else if s[i] == ']' then ')' else s[i])
  {
    ReplaceChar(ReplaceChar(s, '[', '('), ']', ')')
  }

  /** `s[:n]`. */
  function Take(s: string, n: nat): (r: string)
    ensures |r| == if |s| < n then |s| else n
    ensures StartsWith(s, r)
  {
    if |s| < n then s else s[..n]
  }
}
