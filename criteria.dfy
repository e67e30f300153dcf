/**
 * create_study_criteria (criteria.py:10-60): gather the eligibility criteria
 * of every study design with their texts, then for each one create a
 * criterion template, approve it and create the study criterion from it.
 */
module Criteria {
  import opened Common
  import opened Text
  import opened Scan
  import opened Steps

  // ---------------------------------------------------------------------
  // Study data

  datatype CriterionItem = CriterionItem(id: string, text: string)

  /** A design's eligibility criterion; an absent category decode is "". */
  datatype Criterion = Criterion(categoryDecode: string, criterionItemId: Option<string>)

  datatype StudyDesign = StudyDesign(eligibilityCriteria: seq<Criterion>)

  datatype Version = Version(studyDesigns: seq<StudyDesign>, eligibilityCriterionItems: seq<CriterionItem>)

  datatype Kind = Inclusion | Exclusion

  /** An entry of `mapped_criteria`. */
  datatype Mapped = Mapped(id: Option<string>, kind: Kind, text: string)

  // ---------------------------------------------------------------------
  // The criterion texts (criteria.py:13, 20-21)

  /** `{c["id"]: c["text"] for c in criteria_texts}`: a later item overrides an earlier one with its id. */
  function TextMap(items: seq<CriterionItem>): map<string, string>
    decreases |items|
  {
    if items == [] then map[]
    else
      var last := items[|items| - 1];
      TextMap(items[..|items| - 1])[last.id := last.text]
  }

  /** `text_map.get(item_id, "")`. */
  function TextOf(m: map<string, string>, id: Option<string>): string {
    if id.Some? && id.value in m then m[id.value] else ""
  }

  /** An id carried by no item is not in the map, so its criterion gets the text "". */
  lemma {:induction false} TextMapMissing(items: seq<CriterionItem>, id: string)
    requires forall i :: 0 <= i < |items| ==> items[i].id != id
    ensures id !in TextMap(items)
    ensures TextOf(TextMap(items), Some(id)) == ""
    decreases |items|
  {
    if items != [] {
      TextMapMissing(items[..|items| - 1], id);
    }
  }

  /** The text of the last item carrying an id is the one the map gives for it. */
  lemma {:induction false} TextMapLast(items: seq<CriterionItem>, j: nat)
    requires j < |items|
    requires forall i :: j < i < |items| ==> items[i].id != items[j].id
    ensures TextOf(TextMap(items), Some(items[j].id)) == items[j].text
    decreases |items|
  {
    if j < |items| - 1 {
      var init := items[..|items| - 1];
      assert init[j] == items[j];
      TextMapLast(init, j);
    }
  }

  // ---------------------------------------------------------------------
  // The criterion type (criteria.py:18-19, 25-26)

  /** "inclusion" when the lower-cased category decode starts with "in", otherwise "exclusion". */
  function KindOf(decode: string): Kind {
    if StartsWith(Lower(decode), "in") then Inclusion else Exclusion
  }

  function TypeUid(k: Kind): string {
    match k
    case Inclusion => "CTTerm_000028"
    case Exclusion => "CTTerm_000029"
  }

  /** A criterion is an inclusion exactly when its decode begins with 'i' then 'n', in either case. */
  lemma KindIff(decode: string)
    ensures KindOf(decode) == Inclusion <==>
      |decode| >= 2 && (decode[0] == 'i' || decode[0] == 'I') && (decode[1] == 'n' || decode[1] == 'N')
    ensures TypeUid(KindOf(decode)) == (if KindOf(decode) == Inclusion then "CTTerm_000028" else "CTTerm_000029")
  {
    if |decode| >= 2 {
      assert Lower(decode)[..2] == [LowerChar(decode[0]), LowerChar(decode[1])];
    }
  }

  /** The rule ignores the case of the decode. */
  lemma KindIgnoresCase(decode: string)
    ensures KindOf(Upper(decode)) == KindOf(decode)
    ensures KindOf(Lower(decode)) == KindOf(decode)
  {
    LowerOfUpper(decode);
    LowerIdempotent(decode);
  }

  // ---------------------------------------------------------------------
  // The template name (criteria.py:28-29, 33)

  /** The text without its HTML tags, trimmed, with square brackets turned into parentheses. */
  function TemplateName(text: string): string {
    Parenthesize(Strip(StripTags(text)))
  }

  /** A tag inside a slice is a tag of the whole text. */
  lemma TagInSlice(s: string, a: nat, b: nat, i: nat)
    requires a <= b <= |s| && TagAt(s[a..b], i)
    ensures TagAt(s, a + i)
  {
    var t := s[a..b];
    var k :| i + 1 <= k < |t| && t[k] == '>';
    assert s[a + k] == '>';
  }

  /** No tag is left inside a slice of a text without tags. */
  lemma NoTagsSlice(s: string, a: nat, b: nat)
    requires a <= b <= |s|
    requires forall i: nat :: !TagAt(s, i)
    ensures forall i: nat :: !TagAt(s[a..b], i)
  {
    forall i: nat ensures !TagAt(s[a..b], i) {
      if TagAt(s[a..b], i) {
        TagInSlice(s, a, b, i);
      }
    }
  }

  /** Parenthesize leaves '<' and '>' where they are, so a tag after it was a tag before. */
  lemma TagInParenthesize(s: string, i: nat)
    requires TagAt(Parenthesize(s), i)
    ensures TagAt(s, i)
  {
    var p := Parenthesize(s);
    var k :| i + 1 <= k < |p| && p[k] == '>';
    assert s[k] == '>';
  }

  /** Trimming a text without tags leaves no tag and no surrounding white space. */
  lemma StripShape(plain: string)
    requires forall i: nat :: !TagAt(plain, i)
    ensures forall i: nat :: !TagAt(Strip(plain), i)
    ensures Strip(plain) == [] || (!IsSpace(Strip(plain)[0]) && !IsSpace(Strip(plain)[|Strip(plain)| - 1]))
  {
    var b := StripBounds(plain);
    NoTagsSlice(plain, b.0, b.1);
    var trimmed := Strip(plain);
    if |trimmed| > 0 {
      assert trimmed[0] == plain[b.0] && trimmed[|trimmed| - 1] == plain[b.1 - 1];
    }
  }

  /** Parenthesize adds no tag and no surrounding white space. */
  lemma ParenthesizeShape(trimmed: string)
    requires forall i: nat :: !TagAt(trimmed, i)
    requires trimmed == [] || (!IsSpace(trimmed[0]) && !IsSpace(trimmed[|trimmed| - 1]))
    ensures forall i: nat :: !TagAt(Parenthesize(trimmed), i)
    ensures Strip(Parenthesize(trimmed)) == Parenthesize(trimmed)
  {
    var name := Parenthesize(trimmed);
    forall i: nat ensures !TagAt(name, i) {
      if TagAt(name, i) {
        TagInParenthesize(trimmed, i);
      }
    }
    if |trimmed| > 0 {
      assert !IsSpace(name[0]) && !IsSpace(name[|name| - 1]);
    }
    StripUnchanged(name);
  }

  /**
   * The posted name holds no tag and no square bracket, and has no white
   * space at either end.
   */
  lemma TemplateNameShape(text: string)
    ensures forall i: nat :: !TagAt(TemplateName(text), i)
    ensures forall i :: 0 <= i < |TemplateName(text)| ==> TemplateName(text)[i] != '[' && TemplateName(text)[i] != ']'
    ensures Strip(TemplateName(text)) == TemplateName(text)
  {
    StripTagsRemovesAllTags(text);
    StripShape(StripTags(text));
    ParenthesizeShape(Strip(StripTags(text)));
  }

  /** A plain, trimmed text without brackets is posted exactly as it is. */
  lemma TemplateNamePlain(text: string)
    requires forall i :: 0 <= i < |text| ==> text[i] != '<' && text[i] != '[' && text[i] != ']'
    requires text == [] || (!IsSpace(text[0]) && !IsSpace(text[|text| - 1]))
    ensures TemplateName(text) == text
  {
    StripTagsPlainText(text);
    StripUnchanged(text);
    assert Parenthesize(text) == text;
  }

  // ---------------------------------------------------------------------
  // Gathering the criteria (criteria.py:15-22)

  function MapCriterion(c: Criterion, m: map<string, string>): Mapped {
    Mapped(c.criterionItemId, KindOf(c.categoryDecode), TextOf(m, c.criterionItemId))
  }

  /** The entries for one design's criteria, in order. */
  function MapDesign(cs: seq<Criterion>, m: map<string, string>): seq<Mapped> {
    seq(|cs|, i requires 0 <= i < |cs| => MapCriterion(cs[i], m))
  }

  /** `mapped_criteria`: the entries of each design in turn. */
  function Gathered(designs: seq<StudyDesign>, m: map<string, string>): seq<Mapped>
    decreases |designs|
  {
    if designs == [] then []
    else Gathered(designs[..|designs| - 1], m) + MapDesign(designs[|designs| - 1].eligibilityCriteria, m)
  }

  /** The criteria of `a + b` are those of `a`, then those of `b`. */
  lemma {:induction false} GatheredConcat(a: seq<StudyDesign>, b: seq<StudyDesign>, m: map<string, string>)
    ensures Gathered(a + b, m) == Gathered(a, m) + Gathered(b, m)
    decreases |b|
  {
    if b == [] {
      assert a + b == a;
    } else {
      var init := b[..|b| - 1];
      assert (a + b)[..|a + b| - 1] == a + init;
      GatheredConcat(a, init, m);
    }
  }

  /** One design contributes an entry per criterion, in its order, with the criterion's id, type and text. */
  lemma GatheredOne(d: StudyDesign, m: map<string, string>)
    ensures |Gathered([d], m)| == |d.eligibilityCriteria|
    ensures forall i :: 0 <= i < |d.eligibilityCriteria| ==>
      Gathered([d], m)[i] == Mapped(d.eligibilityCriteria[i].criterionItemId,
                                    KindOf(d.eligibilityCriteria[i].categoryDecode),
                                    TextOf(m, d.eligibilityCriteria[i].criterionItemId))
  {
    assert [d][..0] == [];
  }

  /** The nested loop that builds `mapped_criteria`. */
  method GatherCriteria(version: Version) returns (mapped: seq<Mapped>)
    ensures mapped == Gathered(version.studyDesigns, TextMap(version.eligibilityCriterionItems))
  {
    var designs := version.studyDesigns;
    var textMap := TextMap(version.eligibilityCriterionItems);
    mapped := [];
    var i := 0;
    while i < |designs|
      invariant 0 <= i <= |designs|
      invariant mapped == Gathered(designs[..i], textMap)
    {
      var cs := designs[i].eligibilityCriteria;
      ghost var before := mapped;
      var j := 0;
      while j < |cs|
        invariant 0 <= j <= |cs|
        invariant mapped == before + MapDesign(cs[..j], textMap)
      {
        var c := cs[j];
        assert MapDesign(cs[..j + 1], textMap) == MapDesign(cs[..j], textMap) + [MapCriterion(c, textMap)];
        mapped := mapped + [Mapped(c.criterionItemId, KindOf(c.categoryDecode), TextOf(textMap, c.criterionItemId))];
        j := j + 1;
      }
      assert cs[..j] == cs;
      assert designs[..i + 1][..i] == designs[..i];
      i := i + 1;
    }
    assert designs[..i] == designs;
  }

  // ---------------------------------------------------------------------
  // Creating the criteria (criteria.py:24-60)

  datatype Req =
    | CreateTemplate(studyUid: string, name: string, libraryName: string, typeUid: string)
    | ApproveTemplate(uid: string)
    | CreateCriterion(studyUid: string, templateUid: Option<string>)

  /** What the approval call does: answer with a body (whose uid may be absent), or raise with a message. */
  datatype Approval = Approved(uid: Option<string>) | Refused(message: string)

  /** The server: the template uid it answers (None when absent) and the approval outcome. */
  datatype Remote = Remote(template: seq<Req> -> Option<string>, approval: seq<Req> -> Approval)

  /** The message of the error approving an already approved template. */
  const NotDraft := "isn't in draft status"

  /** One round of the creating loop, once the template's name and type are known. */
  function TemplateStep(studyUid: string, name: string, typeUid: string, remote: Remote, log: seq<Req>): Walk<Req> {
    var l1 := log + [CreateTemplate(studyUid, name, "User Defined", typeUid)];
    match remote.template(l1)
    case None => Walk(l1, None)
    case Some(t) =>
      var l2 := l1 + [ApproveTemplate(t)];
      match remote.approval(l2)
      case Approved(u) => Walk(l2 + [CreateCriterion(studyUid, u)], None)
      case Refused(message) =>
        if Contains(message, NotDraft) then Walk(l2 + [CreateCriterion(studyUid, Some(t))], None)
        else Walk(l2, Some(Reraised(message)))
  }

  /** One round of the creating loop. */
  function CriterionStep(studyUid: string, c: Mapped, remote: Remote, log: seq<Req>): Walk<Req> {
    TemplateStep(studyUid, TemplateName(c.text), TypeUid(c.kind), remote, log)
  }

  function CriterionSteps(studyUid: string, remote: Remote): (Mapped, seq<Req>) -> Walk<Req> {
    (c: Mapped, l: seq<Req>) => CriterionStep(studyUid, c, remote, l)
  }

  /** The whole of create_study_criteria. */
  function Upload(version: Version, studyUid: string, remote: Remote, log: seq<Req>): Walk<Req> {
    Run(Gathered(version.studyDesigns, TextMap(version.eligibilityCriterionItems)), CriterionSteps(studyUid, remote), log)
  }

  method CreateCriterionFrom(studyUid: string, c: Mapped, remote: Remote, log: seq<Req>)
    returns (log': seq<Req>, raised: Option<Failure>)
    ensures Walk(log', raised) == CriterionStep(studyUid, c, remote, log)
  {
    var typeUid := if c.kind == Inclusion then "CTTerm_000028" else "CTTerm_000029";
    var plainText := Strip(StripTags(c.text));
    assert CriterionStep(studyUid, c, remote, log) == TemplateStep(studyUid, Parenthesize(plainText), typeUid, remote, log);
    log' := log + [CreateTemplate(studyUid, Parenthesize(plainText), "User Defined", typeUid)];
    var template := remote.template(log');
    if template.None? {
      return log', None;
    }
    log' := log' + [ApproveTemplate(template.value)];
    var templateUid;
    match remote.approval(log') {
      case Approved(u) =>
        templateUid := u;
      case Refused(message) =>
        if Contains(message, NotDraft) {
          templateUid := template;
        } else {
          return log', Some(Reraised(message));
        }
    }
    log' := log' + [CreateCriterion(studyUid, templateUid)];
    raised := None;
  }

  method CreateStudyCriteria(version: Version, studyUid: string, remote: Remote, log: seq<Req>)
    returns (log': seq<Req>, raised: Option<Failure>)
    ensures Walk(log', raised) == Upload(version, studyUid, remote, log)
  {
    var mapped := GatherCriteria(version);
    ghost var step := CriterionSteps(studyUid, remote);
    log' := log;
    var i := 0;
    while i < |mapped|
      invariant 0 <= i <= |mapped|
      invariant Run(mapped[..i], step, log) == Walk(log', None)
    {
      RunNext(mapped, step, log, i);
      log', raised := CreateCriterionFrom(studyUid, mapped[i], remote, log');
      if raised.Some? {
        RunStopsAtError(mapped, step, log, i + 1);
        return;
      }
      i := i + 1;
    }
    assert mapped[..i] == mapped;
    raised := None;
  }

  // ---------------------------------------------------------------------
  // Properties

  /** A template answer without a uid skips the criterion after the one template request. */
  lemma NoTemplateSkips(studyUid: string, c: Mapped, remote: Remote, log: seq<Req>)
    requires remote.template(log + [CreateTemplate(studyUid, TemplateName(c.text), "User Defined", TypeUid(c.kind))]).None?
    ensures CriterionStep(studyUid, c, remote, log) ==
      Walk(log + [CreateTemplate(studyUid, TemplateName(c.text), "User Defined", TypeUid(c.kind))], None)
  {
  }

  /** The uid of an approval that answers is the one the criterion is created from. */
  lemma ApprovedUsesAnswer(studyUid: string, c: Mapped, remote: Remote, log: seq<Req>, t: string, u: Option<string>)
    requires remote.template(log + [CreateTemplate(studyUid, TemplateName(c.text), "User Defined", TypeUid(c.kind))]) == Some(t)
    requires remote.approval(log + [CreateTemplate(studyUid, TemplateName(c.text), "User Defined", TypeUid(c.kind))] + [ApproveTemplate(t)]) == Approved(u)
    ensures CriterionStep(studyUid, c, remote, log) ==
      Walk(log + [CreateTemplate(studyUid, TemplateName(c.text), "User Defined", TypeUid(c.kind))] + [ApproveTemplate(t)] + [CreateCriterion(studyUid, u)], None)
  {
    TemplateApproved(studyUid, TemplateName(c.text), TypeUid(c.kind), remote, log, t, u);
  }

  /** An approval that answers: the criterion is created from the answered uid. */
  lemma TemplateApproved(studyUid: string, name: string, typeUid: string, remote: Remote, log: seq<Req>, t: string, u: Option<string>)
    requires remote.template(log + [CreateTemplate(studyUid, name, "User Defined", typeUid)]) == Some(t)
    requires remote.approval(log + [CreateTemplate(studyUid, name, "User Defined", typeUid)] + [ApproveTemplate(t)]) == Approved(u)
    ensures TemplateStep(studyUid, name, typeUid, remote, log) ==
      Walk(log + [CreateTemplate(studyUid, name, "User Defined", typeUid)] + [ApproveTemplate(t)] + [CreateCriterion(studyUid, u)], None)
  {
  }

  /** An already approved template is used as it is: the criterion is created from the template's own uid. */
  lemma AlreadyApprovedUsesTemplate(studyUid: string, c: Mapped, remote: Remote, log: seq<Req>, t: string, message: string)
    requires remote.template(log + [CreateTemplate(studyUid, TemplateName(c.text), "User Defined", TypeUid(c.kind))]) == Some(t)
    requires remote.approval(log + [CreateTemplate(studyUid, TemplateName(c.text), "User Defined", TypeUid(c.kind))] + [ApproveTemplate(t)]) == Refused(message)
    requires Contains(message, NotDraft)
    ensures CriterionStep(studyUid, c, remote, log) ==
      Walk(log + [CreateTemplate(studyUid, TemplateName(c.text), "User Defined", TypeUid(c.kind))] + [ApproveTemplate(t)] + [CreateCriterion(studyUid, Some(t))], None)
  {
    TemplateRefused(studyUid, TemplateName(c.text), TypeUid(c.kind), remote, log, t, message);
  }

  /**
   * Any other approval error is raised again: no criterion is created for
   * it, and the upload stops there (RunStopsAtError).
   */
  lemma OtherRefusalReraised(studyUid: string, c: Mapped, remote: Remote, log: seq<Req>, t: string, message: string)
    requires remote.template(log + [CreateTemplate(studyUid, TemplateName(c.text), "User Defined", TypeUid(c.kind))]) == Some(t)
    requires remote.approval(log + [CreateTemplate(studyUid, TemplateName(c.text), "User Defined", TypeUid(c.kind))] + [ApproveTemplate(t)]) == Refused(message)
    requires !Contains(message, NotDraft)
    ensures CriterionStep(studyUid, c, remote, log) ==
      Walk(log + [CreateTemplate(studyUid, TemplateName(c.text), "User Defined", TypeUid(c.kind))] + [ApproveTemplate(t)], Some(Reraised(message)))
  {
    TemplateRefused(studyUid, TemplateName(c.text), TypeUid(c.kind), remote, log, t, message);
  }

  /** A refused approval: the template's own uid when it is no longer a draft, else the error is raised again. */
  lemma TemplateRefused(studyUid: string, name: string, typeUid: string, remote: Remote, log: seq<Req>, t: string, message: string)
    requires remote.template(log + [CreateTemplate(studyUid, name, "User Defined", typeUid)]) == Some(t)
    requires remote.approval(log + [CreateTemplate(studyUid, name, "User Defined", typeUid)] + [ApproveTemplate(t)]) == Refused(message)
    ensures Contains(message, NotDraft) ==>
              TemplateStep(studyUid, name, typeUid, remote, log) ==
              Walk(log + [CreateTemplate(studyUid, name, "User Defined", typeUid)] + [ApproveTemplate(t)] + [CreateCriterion(studyUid, Some(t))], None)
    ensures !Contains(message, NotDraft) ==>
              TemplateStep(studyUid, name, typeUid, remote, log) ==
              Walk(log + [CreateTemplate(studyUid, name, "User Defined", typeUid)] + [ApproveTemplate(t)], Some(Reraised(message)))
  {
  }

  /** Every template request the upload makes is well formed. */
  function WellFormed(studyUid: string): Req -> bool {
    (r: Req) =>
      (r.CreateTemplate? ==>
        r.studyUid == studyUid && r.libraryName == "User Defined" &&
        (r.typeUid == "CTTerm_000028" || r.typeUid == "CTTerm_000029") &&
        (forall i :: 0 <= i < |r.name| ==> r.name[i] != '[' && r.name[i] != ']')) &&
      (r.CreateCriterion? ==> r.studyUid == studyUid)
  }

  lemma TemplateStepAppends(studyUid: string, name: string, typeUid: string, remote: Remote, log: seq<Req>)
    requires forall i :: 0 <= i < |name| ==> name[i] != '[' && name[i] != ']'
    requires typeUid == "CTTerm_000028" || typeUid == "CTTerm_000029"
    ensures Appends(log, TemplateStep(studyUid, name, typeUid, remote, log).log, WellFormed(studyUid))
  {
    assert WellFormed(studyUid)(CreateTemplate(studyUid, name, "User Defined", typeUid));
  }

  lemma CriterionStepAppends(studyUid: string, remote: Remote)
    ensures forall c, l :: Appends(l, CriterionSteps(studyUid, remote)(c, l).log, WellFormed(studyUid))
  {
    forall c, l ensures Appends(l, CriterionSteps(studyUid, remote)(c, l).log, WellFormed(studyUid)) {
      var name := TemplateName(c.text);
      assert forall i :: 0 <= i < |name| ==> name[i] != '[' && name[i] != ']';
      TemplateStepAppends(studyUid, name, TypeUid(c.kind), remote, l);
      assert CriterionSteps(studyUid, remote)(c, l) == TemplateStep(studyUid, name, TypeUid(c.kind), remote, l);
    }
  }

  /**
   * The upload only appends to the log, and every template it asks for is a
   * user-defined template of an inclusion or exclusion type whose name has
   * no square bracket.
   */
  lemma UploadAppends(version: Version, studyUid: string, remote: Remote, log: seq<Req>)
    ensures Appends(log, Upload(version, studyUid, remote, log).log, WellFormed(studyUid))
  {
    CriterionStepAppends(studyUid, remote);
    RunAppends(Gathered(version.studyDesigns, TextMap(version.eligibilityCriterionItems)),
               CriterionSteps(studyUid, remote), log, WellFormed(studyUid));
  }

  /** The criteria of the designs are created design by design, in order. */
  lemma UploadDesignByDesign(a: seq<StudyDesign>, b: seq<StudyDesign>, items: seq<CriterionItem>,
                             studyUid: string, remote: Remote, log: seq<Req>)
    requires Upload(Version(a, items), studyUid, remote, log).raised.None?
    ensures Upload(Version(a + b, items), studyUid, remote, log) ==
      Upload(Version(b, items), studyUid, remote, Upload(Version(a, items), studyUid, remote, log).log)
  {
    GatheredConcat(a, b, TextMap(items));
    RunConcat(Gathered(a, TextMap(items)), Gathered(b, TextMap(items)), CriterionSteps(studyUid, remote), log);
  }
}
