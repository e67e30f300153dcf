/**
 * Properties of timing resolution (epochs_visits_soa.py:24-88): which text
 * a timing's offset is read from, what the anchor does to the sign, and a
 * worked timeline.
 */
module TimingFacts {
  import opened Common
  import opened Text
  import opened Scan
  import opened Timing

  predicate AllSpaces(pad: string) {
    forall k :: 0 <= k < |pad| ==> IsSpace(pad[k])
  }

  predicate NoDigits(s: string) {
    forall k :: 0 <= k < |s| ==> !IsDigit(s[k])
  }

  lemma LowerKeepsNoDigits(s: string)
    requires NoDigits(s)
    ensures NoDigits(Lower(s))
  {
  }

  /** A rendered integer has no surrounding white space, no letters, and no "week". */
  lemma ShowIsPlain(v: int)
    ensures Strip(Show(v)) == Show(v)
    ensures Lower(Show(v)) == Show(v)
    ensures !Contains(Show(v), "week")
  {
    var s := Show(v);
    assert forall k :: 0 <= k < |s| ==> s[k] == '-' || IsDigit(s[k]);
    StripUnchanged(s);
    ShowIsLower(v);
    NoLetterNoContains(s, "week");
  }

  lemma ShowIsLower(v: int)
    ensures Lower(Show(v)) == Show(v)
  {
    var s := Show(v);
    assert forall k :: 0 <= k < |s| ==> s[k] == '-' || IsDigit(s[k]);
    LowerNoUpper(s);
  }

  /**
   * The first `day N` of the label yields N days, wherever it stands and
   * whatever else the label or the value label say (a `week` anywhere in
   * the label loses). No `day` match may start in the text before it,
   * which is what makes it the one re.search finds.
   */
  lemma DayTakesPrecedence(t: Timing, prefix: string, pad: string, v: int, rest: string)
    requires Lower(t.labelText) == prefix + "day" + pad + Show(v) + rest
    requires AllSpaces(pad)
    requires rest == [] || !IsDigit(rest[0])
    requires forall k :: 0 <= k < |prefix| ==> KeywordNumberAt(Lower(t.labelText), "day", k).None?
    ensures WrittenOffset(t) == Some(Offset(v, Day))
  {
    KeywordRoundTripAfter(prefix, "day", pad, v, rest);
  }

  /**
   * When the label has no `day N` match, its first `week N` yields N
   * weeks, wherever it stands and whatever the value label says.
   */
  lemma WeekWithoutDay(t: Timing, prefix: string, pad: string, w: int, rest: string)
    requires Lower(t.labelText) == prefix + "week" + pad + Show(w) + rest
    requires KeywordNumber(Lower(t.labelText), "day").None?
    requires AllSpaces(pad)
    requires rest == [] || !IsDigit(rest[0])
    requires forall k :: 0 <= k < |prefix| ==> KeywordNumberAt(Lower(t.labelText), "week", k).None?
    ensures WrittenOffset(t) == Some(Offset(w, Week))
  {
    KeywordRoundTripAfter(prefix, "week", pad, w, rest);
  }

  /**
   * When the label has neither a `day N` nor a `week N` match, the first
   * integer anywhere in the stripped, lower-cased value label is used, in
   * weeks exactly when the label or the value label mentions "week".
   */
  lemma ValueLabelFallback(t: Timing, prefix: string, v: int, rest: string)
    requires KeywordNumber(Lower(t.labelText), "day").None?
    requires KeywordNumber(Lower(t.labelText), "week").None?
    requires Lower(Strip(t.valueLabel)) == prefix + Show(v) + rest
    requires rest == [] || !IsDigit(rest[0])
    requires forall k :: 0 <= k < |prefix| ==> SignedNumberAt(Lower(Strip(t.valueLabel)), k).None?
    ensures WrittenOffset(t) ==
      Some(Offset(v, if Contains(Lower(t.labelText), "week") || Contains(Lower(Strip(t.valueLabel)), "week")
                     then Week else Day))
  {
    NumberRoundTripAfter(prefix, v, rest);
  }

  /** The common case: a label without digits and a value label that is just an integer. */
  lemma ValueLabelOnlyNumber(t: Timing, v: int)
    requires NoDigits(t.labelText)
    requires t.valueLabel == Show(v)
    ensures WrittenOffset(t) ==
      Some(Offset(v, if Contains(Lower(t.labelText), "week") then Week else Day))
  {
    LowerKeepsNoDigits(t.labelText);
    NoDigitsNoNumber(Lower(t.labelText), "day");
    NoDigitsNoNumber(Lower(t.labelText), "week");
    ShowIsPlain(v);
    assert Lower(Strip(t.valueLabel)) == [] + Show(v) + [];
    ValueLabelFallback(t, [], v, []);
  }

  /** Texts without any digit give no offset, so the timing records `(None, None)`. */
  lemma NoNumberNoOffset(ts: seq<Timing>, k: nat)
    requires k < |ts| && !IsAnchor(ts[k])
    requires NoDigits(ts[k].labelText) && NoDigits(ts[k].valueLabel)
    ensures WrittenOffset(ts[k]) == None
    ensures EntryAt(ts, k) == None
  {
    var t := ts[k];
    LowerKeepsNoDigits(t.labelText);
    NoDigitsNoNumber(Lower(t.labelText), "day");
    NoDigitsNoNumber(Lower(t.labelText), "week");
    var vl := Strip(t.valueLabel);
    assert NoDigits(vl);
    LowerKeepsNoDigits(vl);
    NoDigitsNoNumber(Lower(vl), "");
  }

  /** On a timeline without an anchor, no encounter gets a positive offset. */
  lemma {:induction false} NoAnchorNothingPositive(ts: seq<Timing>, e: string)
    requires forall k :: 0 <= k < |ts| ==> !IsAnchor(ts[k])
    ensures TimingOf(ts, e).Some? ==> TimingOf(ts, e).value.value <= 0
  {
    match LastIndexOf(ts, e)
    case Some(k) =>
      AnchorBeforeIff(ts, k);
    case None =>
  }

  /** Before the anchor a timing's offset is negated, whatever sign it is written with. */
  lemma BeforeAnchorNegated(t: Timing, v: int, u: Unit)
    requires !IsAnchor(t) && WrittenOffset(t) == Some(Offset(v, u))
    ensures EntryFor(t, false) == Some(Offset(-Abs(v), u))
  {
    NonAnchorEntry(t, false);
    SignedBeforeAnchor(v, u);
  }

  lemma SignedBeforeAnchor(v: int, u: Unit)
    ensures Signed(Some(Offset(v, u)), false) == Some(Offset(-Abs(v), u))
  {
  }

  lemma NonAnchorEntry(t: Timing, seen: bool)
    requires !IsAnchor(t)
    ensures EntryFor(t, seen) == Signed(WrittenOffset(t), seen)
  {
  }

  /** After the anchor a timing keeps the sign it is written with. */
  lemma AfterAnchorKeepsSign(ts: seq<Timing>, a: nat, k: nat)
    requires a < k < |ts| && IsAnchor(ts[a]) && !IsAnchor(ts[k])
    ensures EntryAt(ts, k) == WrittenOffset(ts[k])
  {
    AnchorBeforeIff(ts, k);
  }

  lemma LowerDayWord()
    ensures Lower("Day ") == "day" + " "
  {
  }

  lemma LowerWeekWord()
    ensures Lower("Week ") == "week" + " "
  {
  }

  /** A label `Day N` yields N days. */
  lemma DayLabel(t: Timing, v: int)
    requires t.labelText == "Day " + Show(v)
    ensures WrittenOffset(t) == Some(Offset(v, Day))
  {
    LowerDayLabel(v);
    DayTakesPrecedence(t, [], " ", v, "");
  }

  lemma LowerDayLabel(v: int)
    ensures Lower("Day " + Show(v)) == [] + "day" + " " + Show(v) + ""
  {
    ShowIsLower(v);
    LowerDayWord();
    LowerAfterWord("Day ", "day" + " ", Show(v));
    EmptyPrefix("day", " ", Show(v), "");
  }

  /** Lower-casing a word followed by text that is already lower case. */
  lemma LowerAfterWord(word: string, low: string, num: string)
    requires Lower(word) == low && Lower(num) == num
    ensures Lower(word + num) == low + num
  {
    LowerConcat(word, num);
  }

  /** Rendered integers hold no `d`, so a `Week N` label does not mention days. */
  lemma WeekLabelNoDay(w: int, low: string)
    requires low == "week" + " " + Show(w) + ""
    ensures !Contains(low, "day")
  {
    assert forall k :: 0 <= k < |low| ==> low[k] != 'd' by {
      assert forall k :: 0 <= k < |Show(w)| ==> Show(w)[k] == '-' || IsDigit(Show(w)[k]);
      assert forall k :: 5 <= k < |low| ==> low[k] == Show(w)[k - 5];
    }
    NoLetterNoContains(low, "day");
  }

  /** A label `Week N` yields N weeks. */
  lemma WeekLabel(t: Timing, w: int)
    requires t.labelText == "Week " + Show(w)
    ensures WrittenOffset(t) == Some(Offset(w, Week))
  {
    LowerWeekLabel(w);
    WeekLabelNoDay(w, Lower(t.labelText));
    WeekAtStart(t, w);
  }

  lemma LowerWeekLabel(w: int)
    ensures Lower("Week " + Show(w)) == "week" + " " + Show(w) + ""
  {
    ShowIsLower(w);
    LowerWeekWord();
    LowerAfterWord("Week ", "week" + " ", Show(w));
    EmptyPrefix("week", " ", Show(w), "");
  }

  /** A lower-cased label that starts with `week N` and never mentions days yields N weeks. */
  lemma WeekAtStart(t: Timing, w: int)
    requires Lower(t.labelText) == "week" + " " + Show(w) + ""
    requires !Contains(Lower(t.labelText), "day")
    ensures WrittenOffset(t) == Some(Offset(w, Week))
  {
    KeywordNeedsText(Lower(t.labelText), "day");
    EmptyPrefix("week", " ", Show(w), "");
    WeekWithoutDay(t, [], " ", w, "");
  }

  /** A first timing that is not the anchor and is not written again gets its offset negated. */
  lemma FirstTimingNegated(ts: seq<Timing>, v: int, u: Unit)
    requires |ts| > 0 && !IsAnchor(ts[0]) && WrittenOffset(ts[0]) == Some(Offset(v, u))
    requires forall j :: 0 < j < |ts| ==> ts[j].encounterId != ts[0].encounterId
    ensures TimingOf(ts, ts[0].encounterId) == Some(Offset(-Abs(v), u))
  {
    FirstEntryKept(ts);
    BeforeAnchorNegated(ts[0], v, u);
  }

  /** A first timing that is not written again keeps the entry the scan gives it before any anchor. */
  lemma FirstEntryKept(ts: seq<Timing>)
    requires |ts| > 0
    requires forall j :: 0 < j < |ts| ==> ts[j].encounterId != ts[0].encounterId
    ensures TimingOf(ts, ts[0].encounterId) == EntryFor(ts[0], false)
  {
    LastWriteWins(ts, 0);
    EntryAtFlag(ts, 0, false);
  }

  /**
   * On the timeline `Day N` (not the anchor), the anchor, then `Week M`, one
   * encounter each: the first visit is moved N days before the anchor,
   * whatever sign N has.
   */
  lemma TimelineBeforeAnchor(before: Timing, anchor: Timing, after: Timing, d: int)
    requires before.labelText == "Day " + Show(d) && !IsAnchor(before)
    requires before.encounterId != anchor.encounterId && before.encounterId != after.encounterId
    ensures TimingOf([before, anchor, after], before.encounterId) == Some(Offset(-Abs(d), Day))
  {
    DayLabelEntry(before, d);
    FirstOfThreeKept(before, anchor, after, Some(Offset(-Abs(d), Day)));
  }

  /** Before the anchor, a timing labelled `Day N` is recorded |N| days early. */
  lemma DayLabelEntry(t: Timing, d: int)
    requires t.labelText == "Day " + Show(d) && !IsAnchor(t)
    ensures EntryFor(t, false) == Some(Offset(-Abs(d), Day))
  {
    DayLabel(t, d);
    BeforeAnchorNegated(t, d, Day);
  }

  /** The first of three timings, not written again, keeps its entry from before any anchor. */
  lemma FirstOfThreeKept(before: Timing, anchor: Timing, after: Timing, r: Option<Offset>)
    requires before.encounterId != anchor.encounterId && before.encounterId != after.encounterId
    requires EntryFor(before, false) == r
    ensures TimingOf([before, anchor, after], before.encounterId) == r
  {
    var ts := [before, anchor, after];
    assert |ts| == 3 && ts[0] == before && ts[1] == anchor && ts[2] == after;
    FirstEntryKept(ts);
  }

  /** The anchor is day 0, whatever its label says. */
  lemma TimelineAnchor(before: Timing, anchor: Timing, after: Timing)
    requires IsAnchor(anchor) && anchor.encounterId != after.encounterId
    ensures TimingOf([before, anchor, after], anchor.encounterId) == Some(Offset(0, Day))
  {
    LastWriteWins([before, anchor, after], 1);
  }

  /** A `Week M` visit after the anchor keeps its weeks and its sign. */
  lemma TimelineAfterAnchor(before: Timing, anchor: Timing, after: Timing, w: int)
    requires IsAnchor(anchor)
    requires after.labelText == "Week " + Show(w) && !IsAnchor(after)
    ensures TimingOf([before, anchor, after], after.encounterId) == Some(Offset(w, Week))
  {
    var ts := [before, anchor, after];
    AfterAnchorKeepsSign(ts, 1, 2);
    WeekLabel(after, w);
    LastWriteWins(ts, 2);
  }
}
