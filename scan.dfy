/**
 * Hand-written matchers for the three regular expressions of the uploader
 * (ASCII digits and white space only):
 *   `day\s*(-?\d+)` / `week\s*(-?\d+)`  (epochs_visits_soa.py:39-40)
 *   `-?\d+`                             (epochs_visits_soa.py:51)
 *   `<[^>]+>` removed by re.sub          (criteria.py:29)
 * Each matcher is specified by the leftmost position at which the pattern
 * matches, which is what re.search and re.sub select.
 */
module Scan {
  import opened Common
  import opened Text

  predicate IsDigit(c: char) {
    '0' <= c <= '9'
  }

  predicate AllDigits(s: string) {
    forall k :: 0 <= k < |s| ==> IsDigit(s[k])
  }

  /** Length of the greedy run of digits starting at `i` (`\d+` takes all of it). */
  function DigitRun(s: string, i: nat): (n: nat)
    requires i <= |s|
    decreases |s| - i
    ensures i + n <= |s|
    ensures forall k :: i <= k < i + n ==> IsDigit(s[k])
    ensures i + n < |s| ==> !IsDigit(s[i + n])
  {
    if i < |s| && IsDigit(s[i]) then 1 + DigitRun(s, i + 1) else 0
  }

  /** Length of the greedy run of white space starting at `i` (`\s*`). */
  function SpaceRun(s: string, i: nat): (n: nat)
    requires i <= |s|
    decreases |s| - i
    ensures i + n <= |s|
    ensures forall k :: i <= k < i + n ==> IsSpace(s[k])
    ensures i + n < |s| ==> !IsSpace(s[i + n])
  {
    if i < |s| && IsSpace(s[i]) then 1 + SpaceRun(s, i + 1) else 0
  }

  /** int() of a string of decimal digits (read digit by digit whatever the characters are). */
  function DigitsValue(ds: string): int
  {
    if ds == [] then 0
    else DigitsValue(ds[..|ds| - 1]) * 10 + (ds[|ds| - 1] as int - '0' as int)
  }

  /** int() of the `n` characters of `s` from index `i`, read as decimal digits. */
  function RunValue(s: string, i: nat, n: nat): int
    requires i + n <= |s|
  {
    if n == 0 then 0 else RunValue(s, i, n - 1) * 10 + (s[i + n - 1] as int - '0' as int)
  }

  /** The value `-?\d+` matches when the match starts at index `j`, if it can start there. */
  function SignedNumberAt(s: string, j: nat): Option<int> {
    if j + 1 < |s| && s[j] == '-' && IsDigit(s[j + 1]) then
      Some(-RunValue(s, j + 1, DigitRun(s, j + 1)))
    else if j < |s| && IsDigit(s[j]) then
      Some(RunValue(s, j, DigitRun(s, j)))
    else
      None
  }

  /** Reading the copy of `ds` inside `s` gives the value of `ds`. */
  lemma {:induction false} RunValueOf(s: string, i: nat, ds: string)
    requires i + |ds| <= |s| && s[i..i + |ds|] == ds
    ensures RunValue(s, i, |ds|) == DigitsValue(ds)
    decreases |ds|
  {
    if ds != [] {
      var n := |ds|;
      assert s[i..i + (n - 1)] == ds[..n - 1];
      RunValueOf(s, i, ds[..n - 1]);
      assert s[i + n - 1] == ds[n - 1];
    }
  }

  /** Where re.search(r"-?\d+", s[from:]) finds its match. */
  function NumberPos(s: string, from: nat): Option<nat>
    decreases |s| - from
  {
    if from >= |s| then None
    else if SignedNumberAt(s, from).Some? then Some(from)
    else NumberPos(s, from + 1)
  }

  /** The search stops at the first place a number starts; without a result none starts anywhere. */
  lemma {:induction false} NumberPosSpec(s: string, from: nat)
    decreases |s| - from
    ensures NumberPos(s, from).Some? ==>
      from <= NumberPos(s, from).value && SignedNumberAt(s, NumberPos(s, from).value).Some?
    ensures NumberPos(s, from).Some? ==>
      forall k :: from <= k < NumberPos(s, from).value ==> SignedNumberAt(s, k).None?
    ensures NumberPos(s, from).None? ==> forall k :: from <= k ==> SignedNumberAt(s, k).None?
  {
    if from < |s| && SignedNumberAt(s, from).None? {
      NumberPosSpec(s, from + 1);
    }
  }

  /** `int(re.search(r"-?\d+", s).group(0))`, or None without a match. */
  function FirstSignedNumber(s: string): Option<int> {
    match NumberPos(s, 0)
    case Some(j) => SignedNumberAt(s, j)
    case None => None
  }

  /** The group of `kw\s*(-?\d+)` when the match starts at index `i`. */
  function KeywordNumberAt(s: string, kw: string, i: nat): Option<int> {
    if i + |kw| <= |s| && s[i..i + |kw|] == kw then
      SignedNumberAt(s, i + |kw| + SpaceRun(s, i + |kw|))
    else
      None
  }

  /** Where re.search(kw + r"\s*(-?\d+)", s[from:]) finds its match. */
  function KeywordPos(s: string, kw: string, from: nat): Option<nat>
    decreases |s| - from
  {
    if from >= |s| then None
    else if KeywordNumberAt(s, kw, from).Some? then Some(from)
    else KeywordPos(s, kw, from + 1)
  }

  /** The search stops at the first keyword match; without a result there is no match anywhere. */
  lemma {:induction false} KeywordPosSpec(s: string, kw: string, from: nat)
    decreases |s| - from
    ensures KeywordPos(s, kw, from).Some? ==>
      from <= KeywordPos(s, kw, from).value && KeywordNumberAt(s, kw, KeywordPos(s, kw, from).value).Some?
    ensures KeywordPos(s, kw, from).Some? ==>
      forall k :: from <= k < KeywordPos(s, kw, from).value ==> KeywordNumberAt(s, kw, k).None?
    ensures KeywordPos(s, kw, from).None? ==> forall k :: from <= k ==> KeywordNumberAt(s, kw, k).None?
  {
    if from >= |s| {
      forall k | from <= k ensures KeywordNumberAt(s, kw, k).None? {
        KeywordNumberPastEnd(s, kw, k);
      }
    } else if KeywordNumberAt(s, kw, from).None? {
      KeywordPosSpec(s, kw, from + 1);
      var next := KeywordPos(s, kw, from + 1);
      assert KeywordPos(s, kw, from) == next;
      if next.Some? {
        forall k | from <= k < next.value ensures KeywordNumberAt(s, kw, k).None? {
          if k == from {
            assert KeywordNumberAt(s, kw, from).None?;
          }
        }
      }
    }
  }

  /** No match starts at or after the end of the text. */
  lemma KeywordNumberPastEnd(s: string, kw: string, k: nat)
    requires |s| <= k
    ensures KeywordNumberAt(s, kw, k).None?
  {
  }

  /** `int(re.search(kw + r"\s*(-?\d+)", s).group(1))`, or None without a match. */
  function KeywordNumber(s: string, kw: string): Option<int> {
    match KeywordPos(s, kw, 0)
    case Some(i) => KeywordNumberAt(s, kw, i)
    case None => None
  }

  // ---------------------------------------------------------------------
  // Decimal rendering, for the round trips below

  function DigitChar(d: nat): (c: char)
    requires d < 10
    ensures IsDigit(c) && c as int - '0' as int == d
  {
    ('0' as int + d) as char
  }

  /** str(n) for a natural number. */
  function NatToDigits(n: nat): (r: string)
    ensures |r| > 0 && AllDigits(r)
  {
    if n < 10 then [DigitChar(n)] else NatToDigits(n / 10) + [DigitChar(n % 10)]
  }

  /** str(v) for an integer. */
  function Show(v: int): string {
    if v < 0 then "-" + NatToDigits(-v) else NatToDigits(v)
  }

  lemma {:induction false} DigitsRoundTrip(n: nat)
    ensures DigitsValue(NatToDigits(n)) == n
  {
    if n >= 10 {
      var ds := NatToDigits(n / 10) + [DigitChar(n % 10)];
      assert ds[..|ds| - 1] == NatToDigits(n / 10);
      DigitsRoundTrip(n / 10);
    }
  }

  lemma {:induction false} DigitRunExact(s: string, i: nat, n: nat)
    requires i + n <= |s|
    requires forall k :: i <= k < i + n ==> IsDigit(s[k])
    requires i + n == |s| || !IsDigit(s[i + n])
    ensures DigitRun(s, i) == n
    decreases n
  {
    if n > 0 {
      DigitRunExact(s, i + 1, n - 1);
    }
  }

  lemma {:induction false} SpaceRunOver(s: string, i: nat, n: nat)
    requires i + n <= |s|
    requires forall k :: i <= k < i + n ==> IsSpace(s[k])
    requires i + n < |s| && !IsSpace(s[i + n])
    ensures SpaceRun(s, i) == n
    decreases n
  {
    if n > 0 {
      SpaceRunOver(s, i + 1, n - 1);
    }
  }

  /** The digits `ds` found at `j` and followed by a non-digit are one greedy run. */
  lemma {:induction false} DigitRunOf(s: string, j: nat, ds: string)
    requires AllDigits(ds) && j + |ds| <= |s| && s[j..j + |ds|] == ds
    requires j + |ds| == |s| || !IsDigit(s[j + |ds|])
    ensures DigitRun(s, j) == |ds|
    decreases |ds|
  {
    if ds != [] {
      assert s[j] == ds[0];
      assert s[j + 1..j + 1 + |ds[1..]|] == ds[1..];
      DigitRunOf(s, j + 1, ds[1..]);
    }
  }

  /** A run of digits at `j`, ended by a non-digit, is read as its value. */
  lemma SignedAtDigits(s: string, j: nat, ds: string)
    requires |ds| > 0 && AllDigits(ds) && j + |ds| <= |s| && s[j..j + |ds|] == ds
    requires j + |ds| == |s| || !IsDigit(s[j + |ds|])
    ensures SignedNumberAt(s, j) == Some(DigitsValue(ds))
  {
    DigitRunOf(s, j, ds);
    RunValueOf(s, j, ds);
    assert IsDigit(s[j]) by {
      assert s[j] == ds[0];
    }
  }

  /** A minus sign followed by such a run is read as the negated value. */
  lemma SignedAtMinus(s: string, j: nat, ds: string)
    requires |ds| > 0 && AllDigits(ds) && j + 1 + |ds| <= |s| && s[j] == '-' && s[j + 1..j + 1 + |ds|] == ds
    requires j + 1 + |ds| == |s| || !IsDigit(s[j + 1 + |ds|])
    ensures SignedNumberAt(s, j) == Some(-DigitsValue(ds))
  {
    DigitRunOf(s, j + 1, ds);
    RunValueOf(s, j + 1, ds);
    assert IsDigit(s[j + 1]) by {
      assert s[j + 1] == ds[0];
    }
  }

  lemma ReadDigits(prefix: string, ds: string, suffix: string)
    requires |ds| > 0 && AllDigits(ds)
    requires suffix == [] || !IsDigit(suffix[0])
    ensures SignedNumberAt(prefix + ds + suffix, |prefix|) == Some(DigitsValue(ds))
  {
    var s := prefix + ds + suffix;
    var j := |prefix|;
    assert s[j..j + |ds|] == ds;
    assert j + |ds| < |s| ==> s[j + |ds|] == suffix[0];
    SignedAtDigits(s, j, ds);
  }

  lemma ReadMinusDigits(prefix: string, ds: string, suffix: string)
    requires |ds| > 0 && AllDigits(ds)
    requires suffix == [] || !IsDigit(suffix[0])
    ensures SignedNumberAt(prefix + ("-" + ds) + suffix, |prefix|) == Some(-DigitsValue(ds))
  {
    var s := prefix + ("-" + ds) + suffix;
    var j := |prefix|;
    assert s[j] == '-';
    assert s[j + 1..j + 1 + |ds|] == ds;
    assert j + 1 + |ds| < |s| ==> s[j + 1 + |ds|] == suffix[0];
    SignedAtMinus(s, j, ds);
  }

  /** `-?\d+` read at the start of a rendered integer gives the integer back. */
  lemma ShowReadBack(prefix: string, v: int, suffix: string)
    requires suffix == [] || !IsDigit(suffix[0])
    ensures SignedNumberAt(prefix + Show(v) + suffix, |prefix|) == Some(v)
  {
    if v < 0 {
      var ds := NatToDigits(-v);
      assert Show(v) == "-" + ds;
      ReadMinusDigits(prefix, ds, suffix);
      DigitsRoundTrip(-v);
    } else {
      var ds := NatToDigits(v);
      assert Show(v) == ds;
      ReadDigits(prefix, ds, suffix);
      DigitsRoundTrip(v);
    }
  }

  /** The keyword at the very start, white space, then a number: the first match is there. */
  lemma KeywordAtStart(s: string, kw: string, j: nat, v: int)
    requires |kw| <= j <= |s| && s[0..|kw|] == kw
    requires SpaceRun(s, |kw|) == j - |kw| && SignedNumberAt(s, j) == Some(v)
    ensures KeywordNumber(s, kw) == Some(v)
  {
    assert KeywordNumberAt(s, kw, 0) == Some(v);
  }

  /**
   * Round trip of the label scanner: the keyword, any white space, then a
   * rendered integer, is read back as that integer whatever follows it
   * (unless a digit follows it directly).
   */
  lemma KeywordRoundTrip(kw: string, pad: string, v: int, suffix: string)
    requires forall k :: 0 <= k < |pad| ==> IsSpace(pad[k])
    requires suffix == [] || !IsDigit(suffix[0])
    ensures KeywordNumber(kw + pad + Show(v) + suffix, kw) == Some(v)
  {
    EmptyPrefix(kw, pad, Show(v), suffix);
    KeywordRoundTripAfter([], kw, pad, v, suffix);
  }

  lemma EmptyPrefix(a: string, b: string, c: string, d: string)
    ensures [] + a + b + c + d == a + b + c + d
  {
    assert [] + a == a;
  }

  /** White space `pad` found at `j` and followed by something else is one greedy run. */
  lemma {:induction false} SpaceRunOf(s: string, j: nat, pad: string)
    requires (forall k :: 0 <= k < |pad| ==> IsSpace(pad[k])) && j + |pad| < |s| && s[j..j + |pad|] == pad
    requires !IsSpace(s[j + |pad|])
    ensures SpaceRun(s, j) == |pad|
    decreases |pad|
  {
    if pad != [] {
      assert s[j] == pad[0];
      assert s[j + 1..j + 1 + |pad[1..]|] == pad[1..];
      SpaceRunOf(s, j + 1, pad[1..]);
    }
  }

  /** The integer scanner reads a rendered integer back, after any non-numeric prefix. */
  lemma NumberRoundTrip(prefix: string, v: int)
    requires forall k :: 0 <= k < |prefix| ==> !IsDigit(prefix[k])
    requires prefix == [] || prefix[|prefix| - 1] != '-'
    ensures FirstSignedNumber(prefix + Show(v)) == Some(v)
  {
    var s := prefix + Show(v);
    NumberPosSpec(s, 0);
    ShowReadBack(prefix, v, []);
    assert s + [] == s;
    forall k | 0 <= k < |prefix| ensures SignedNumberAt(s, k).None? {
      assert s[k] == prefix[k];
      if k + 1 < |prefix| {
        assert s[k + 1] == prefix[k + 1];
      } else {
        assert k + 1 == |prefix|;
        assert s[k] != '-';
      }
    }
  }

  /** The search from `from` stops at `p` when a match starts there and none starts in between. */
  lemma {:induction false} KeywordPosAt(s: string, kw: string, from: nat, p: nat)
    requires from <= p && KeywordNumberAt(s, kw, p).Some?
    requires forall k :: from <= k < p ==> KeywordNumberAt(s, kw, k).None?
    ensures KeywordPos(s, kw, from) == Some(p)
    decreases p - from
  {
    if from < p {
      KeywordPosAt(s, kw, from + 1, p);
    }
  }

  lemma {:induction false} NumberPosAt(s: string, from: nat, p: nat)
    requires from <= p && SignedNumberAt(s, p).Some?
    requires forall k :: from <= k < p ==> SignedNumberAt(s, k).None?
    ensures NumberPos(s, from) == Some(p)
    decreases p - from
  {
    if from < p {
      NumberPosAt(s, from + 1, p);
    }
  }

  /** Where the keyword and the white space sit in `prefix + kw + pad + tail`. */
  lemma KeywordSlices(prefix: string, kw: string, pad: string, tail: string)
    ensures var s := prefix + kw + pad + tail;
      var i := |prefix|;
      |s| == i + |kw| + |pad| + |tail| &&
      s[i..i + |kw|] == kw && s[i + |kw|..i + |kw| + |pad|] == pad &&
      s[i + |kw| + |pad|..] == tail
  {
    var s := prefix + kw + pad + tail;
    var i := |prefix|;
    assert s == prefix + (kw + (pad + tail));
    assert s[i..] == kw + (pad + tail);
    assert s[i..i + |kw|] == s[i..][..|kw|];
    assert s[i + |kw|..] == pad + tail;
    assert s[i + |kw|..i + |kw| + |pad|] == s[i + |kw|..][..|pad|];
  }

  /** A keyword match at `i`: the keyword, a white-space run, then a number. */
  lemma KeywordMatchAt(s: string, kw: string, i: nat, pad: string, v: int)
    requires forall k :: 0 <= k < |pad| ==> IsSpace(pad[k])
    requires i + |kw| + |pad| < |s| && s[i..i + |kw|] == kw && s[i + |kw|..i + |kw| + |pad|] == pad
    requires !IsSpace(s[i + |kw| + |pad|]) && SignedNumberAt(s, i + |kw| + |pad|) == Some(v)
    ensures KeywordNumberAt(s, kw, i) == Some(v)
  {
    SpaceRunOf(s, i + |kw|, pad);
  }

  /** The keyword, white space and a number at `|prefix|` form a match there. */
  lemma KeywordReadNumber(prefix: string, kw: string, pad: string, tail: string, v: int)
    requires forall k :: 0 <= k < |pad| ==> IsSpace(pad[k])
    requires |tail| > 0 && !IsSpace(tail[0])
    requires SignedNumberAt(prefix + kw + pad + tail, |prefix| + |kw| + |pad|) == Some(v)
    ensures KeywordNumberAt(prefix + kw + pad + tail, kw, |prefix|) == Some(v)
  {
    var s := prefix + kw + pad + tail;
    var j := |prefix| + |kw| + |pad|;
    KeywordSlices(prefix, kw, pad, tail);
    assert s[j] == tail[0] by {
      assert s[j..][0] == s[j];
    }
    KeywordMatchAt(s, kw, |prefix|, pad, v);
  }

  /** The text after `head` starts with `num`, however the concatenation is grouped. */
  lemma HeadThenNumber(head: string, num: string, suffix: string)
    requires |num| > 0
    ensures head + (num + suffix) == head + num + suffix
    ensures |head| < |head + num + suffix| && (head + num + suffix)[|head|] == num[0]
  {
  }

  /** The keyword, white space and a rendered integer at `|prefix|` form a match there. */
  lemma KeywordReadAt(prefix: string, kw: string, pad: string, v: int, suffix: string)
    requires forall k :: 0 <= k < |pad| ==> IsSpace(pad[k])
    requires suffix == [] || !IsDigit(suffix[0])
    ensures KeywordNumberAt(prefix + kw + pad + Show(v) + suffix, kw, |prefix|) == Some(v)
  {
    var head := prefix + kw + pad;
    ShowReadBack(head, v, suffix);
    assert !IsSpace(Show(v)[0]) by {
      if v < 0 {
        assert Show(v)[0] == '-';
      } else {
        assert IsDigit(Show(v)[0]);
      }
    }
    HeadThenNumber(head, Show(v), suffix);
    KeywordReadNumber(prefix, kw, pad, Show(v) + suffix, v);
  }

  /**
   * Round trip of the label scanner anywhere in the text: `kw`, white space
   * and a rendered integer are read back as that integer after any prefix
   * in which no earlier match starts, whatever follows (unless a digit
   * follows directly).
   */
  lemma KeywordRoundTripAfter(prefix: string, kw: string, pad: string, v: int, suffix: string)
    requires forall k :: 0 <= k < |pad| ==> IsSpace(pad[k])
    requires suffix == [] || !IsDigit(suffix[0])
    requires forall k :: 0 <= k < |prefix| ==> KeywordNumberAt(prefix + kw + pad + Show(v) + suffix, kw, k).None?
    ensures KeywordNumber(prefix + kw + pad + Show(v) + suffix, kw) == Some(v)
  {
    KeywordReadAt(prefix, kw, pad, v, suffix);
    KeywordPosAt(prefix + kw + pad + Show(v) + suffix, kw, 0, |prefix|);
  }

  /**
   * Round trip of the integer scanner anywhere in the text: the first
   * integer is a rendered integer that follows a prefix in which no number
   * starts, whatever follows (unless a digit follows directly).
   */
  lemma NumberRoundTripAfter(prefix: string, v: int, suffix: string)
    requires suffix == [] || !IsDigit(suffix[0])
    requires forall k :: 0 <= k < |prefix| ==> SignedNumberAt(prefix + Show(v) + suffix, k).None?
    ensures FirstSignedNumber(prefix + Show(v) + suffix) == Some(v)
  {
    ShowReadBack(prefix, v, suffix);
    NumberPosAt(prefix + Show(v) + suffix, 0, |prefix|);
  }

  /** A text without digits holds no number, so neither scanner matches. */
  lemma NoDigitsNoNumber(s: string, kw: string)
    requires forall k :: 0 <= k < |s| ==> !IsDigit(s[k])
    ensures FirstSignedNumber(s) == None
    ensures KeywordNumber(s, kw) == None
  {
    assert forall j: nat :: SignedNumberAt(s, j).None?;
    assert forall i: nat :: KeywordNumberAt(s, kw, i).None?;
    NumberPosSpec(s, 0);
    KeywordPosSpec(s, kw, 0);
  }

  /** `kw\s*(-?\d+)` can only match a text that contains the keyword. */
  lemma KeywordNeedsText(s: string, kw: string)
    ensures KeywordNumber(s, kw).Some? ==> Contains(s, kw)
  {
    if KeywordNumber(s, kw).Some? {
      KeywordPosSpec(s, kw, 0);
      ContainsAt(s, kw, KeywordPos(s, kw, 0).value);
    }
  }

  /** A text without the keyword's first letter has no keyword match. */
  lemma NoKeywordLetter(s: string, kw: string)
    requires kw != []
    requires forall k :: 0 <= k < |s| ==> s[k] != kw[0]
    ensures KeywordNumber(s, kw) == None
  {
    forall i: nat ensures KeywordNumberAt(s, kw, i) == None {
      if i + |kw| <= |s| {
        assert s[i..i + |kw|][0] == s[i];
      }
    }
    KeywordPosSpec(s, kw, 0);
  }

  // ---------------------------------------------------------------------
  // re.sub(r"<[^>]+>", "", s)

  /** No '>' at index `j` or later. */
  predicate NoCloseFrom(s: string, j: nat) {
    forall k :: j <= k < |s| ==> s[k] != '>'
  }

  /** A tag `<[^>]+>` starts at index `i`: one or more non-'>' characters, then '>'. */
  predicate TagAt(s: string, i: nat) {
    i + 1 < |s| && s[i] == '<' && s[i + 1] != '>' && !NoCloseFrom(s, i + 1)
  }

  /** Removes each leftmost tag, scanning on after it, as re.sub does. */
  function StripTags(s: string): (r: string)
    decreases |s|
    ensures |r| <= |s|
  {
    if |s| == 0 then ""
    else if |s| >= 2 && s[0] == '<' && s[1] != '>' && IndexFrom(s, ">", 1).Some? then
      IndexFromSpec(s, ">", 1);
      var k := IndexFrom(s, ">", 1).value;
      StripTags(s[k + 1..])
    else
      [s[0]] + StripTags(s[1..])
  }

  lemma OccursCloseIff(s: string, k: int)
    ensures OccursAt(s, ">", k) <==> 0 <= k < |s| && s[k] == '>'
  {
    if 0 <= k < |s| {
      assert s[k..k + 1] == [s[k]];
    }
  }

  /** Without any '>' there is no tag to remove. */
  lemma {:induction false} StripTagsNoClose(s: string)
    requires NoCloseFrom(s, 0)
    ensures StripTags(s) == s
    decreases |s|
  {
    if |s| > 0 {
      forall k | 0 <= k < |s| ensures !OccursAt(s, ">", k) {
        OccursCloseIff(s, k);
      }
      IndexFromSpec(s, ">", 1);
      assert IndexFrom(s, ">", 1).None?;
      assert NoCloseFrom(s[1..], 0) by {
        forall k | 0 <= k < |s[1..]| ensures s[1..][k] != '>' {
          assert s[1..][k] == s[k + 1];
        }
      }
      StripTagsNoClose(s[1..]);
    }
  }

  /** A character that is not '<' passes through as the first character. */
  lemma StripTagsHead(s: string)
    requires |s| > 0 && s[0] != '<'
    ensures StripTags(s) == [s[0]] + StripTags(s[1..])
  {
  }

  /** No tag is left in the result of re.sub(r"<[^>]+>", "", s). */
  lemma {:induction false} StripTagsRemovesAllTags(s: string)
    ensures forall i: nat :: !TagAt(StripTags(s), i)
    decreases |s|
  {
    if |s| == 0 {
    } else if |s| >= 2 && s[0] == '<' && s[1] != '>' && IndexFrom(s, ">", 1).Some? {
      IndexFromSpec(s, ">", 1);
      var k := IndexFrom(s, ">", 1).value;
      StripTagsRemovesAllTags(s[k + 1..]);
    } else {
      IndexFromSpec(s, ">", 1);
      var rest := StripTags(s[1..]);
      StripTagsRemovesAllTags(s[1..]);
      var r := StripTags(s);
      assert r == [s[0]] + rest;
      forall i: nat ensures !TagAt(r, i) {
        if i + 1 >= |r| || r[i] != '<' {
        } else if i == 0 {
          if s[1] == '>' {
            StripTagsHead(s[1..]);
            assert r[1] == '>';
          } else {
            forall k | 1 <= k < |s| ensures s[k] != '>' {
              OccursCloseIff(s, k);
            }
            var tail := s[1..];
            assert NoCloseFrom(tail, 0) by {
              forall k | 0 <= k < |tail| ensures tail[k] != '>' {
                assert tail[k] == s[k + 1];
              }
            }
            StripTagsNoClose(tail);
            assert NoCloseFrom(r, 1) by {
              forall k | 1 <= k < |r| ensures r[k] != '>' {
                assert r[k] == tail[k - 1];
              }
            }
          }
        } else {
          assert r[i] == rest[i - 1] && r[i + 1] == rest[i];
          assert !TagAt(rest, i - 1);
          if NoCloseFrom(rest, i) {
            assert NoCloseFrom(r, i + 1) by {
              forall k | i + 1 <= k < |r| ensures r[k] != '>' {
                assert r[k] == rest[k - 1];
              }
            }
          }
        }
      }
    }
  }

  /** Text without '<' is left as it is. */
  lemma {:induction false} StripTagsPlainText(s: string)
    requires forall i :: 0 <= i < |s| ==> s[i] != '<'
    ensures StripTags(s) == s
    decreases |s|
  {
    if |s| > 0 {
      StripTagsPlainText(s[1..]);
    }
  }
}
