/**
 * create_study_element (elements.py:4-48): one study element per element of
 * the first study design, with its name chosen from `name` or `label` and its
 * element code and subtype read off that name.
 */
module Elements {
  import opened Common
  import opened Text
  import opened Steps

  /**
   * A USDM study element. Absent strings are "", and an absent, null or
   * empty transition rule is the empty map.
   */
  datatype Element = Element(
    name: string,
    labelText: string,  // the `label` field
    description: string,
    transitionStartRule: map<string, string>,
    transitionEndRule: map<string, string>)

  datatype StudyDesign = StudyDesign(elements: seq<Element>)

  /** The element code and subtype terms. */
  datatype ElementType = ElementType(code: string, subtypeUid: string)

  /** The request create_study_structure_study_element makes. */
  datatype Req = CreateElement(
    studyUid: string,
    name: string,
    code: string,
    startRule: string,
    endRule: Option<string>,
    subtypeUid: string,
    shortName: string,
    description: string)

  // ---------------------------------------------------------------------
  // Name, label and rules (elements.py:8-16, 34)

  /** `name if len(name) > 3 else label`: the posted name and short name. */
  function ElementName(e: Element): string {
    if |e.name| > 3 then e.name else e.labelText
  }

  /** The lower-cased text the element is classified by. */
  function ClassLabel(e: Element): string {
    if |e.name| > 3 then Lower(e.name) else Lower(e.labelText)
  }

  /** The element is classified by its posted name, lower-cased. */
  lemma ClassLabelIsLoweredName(e: Element)
    ensures ClassLabel(e) == Lower(ElementName(e))
    ensures |e.name| > 3 ==> ElementName(e) == e.name && ClassLabel(e) == Lower(e.name)
    ensures |e.name| <= 3 ==> ElementName(e) == e.labelText && ClassLabel(e) == Lower(e.labelText)
  {
  }

  /** `transitionStartRule.get("text", "")`. */
  function StartRule(rule: map<string, string>): string {
    Get(rule, "text").GetOr("")
  }

  /** `transitionEndRule.get("text", None) if transitionEndRule else None`. */
  function EndRule(rule: map<string, string>): Option<string> {
    if rule != map[] then Get(rule, "text") else None
  }

  /** The truthiness test changes nothing: an empty rule has no text anyway. */
  lemma EndRuleIsText(rule: map<string, string>)
    ensures EndRule(rule) == Get(rule, "text")
    ensures EndRule(rule).Some? <==> "text" in rule
  {
  }

  // ---------------------------------------------------------------------
  // Classification (elements.py:18-32)

  function Classify(text: string): ElementType {
    if Contains(text, "screening") then ElementType("CTTerm_000143", "CTTerm_000150")
    else if Contains(text, "check in") || Contains(text, "run-in") then ElementType("CTTerm_000143", "CTTerm_000148")
    else if Contains(text, "follow up") || Contains(text, "follow-up") then ElementType("CTTerm_000143", "CTTerm_000149")
    else if Contains(text, "wash out") || Contains(text, "wash-out") then ElementType("CTTerm_000143", "CTTerm_000149")
    else ElementType("CTTerm_000144", "CTTerm_000147")
  }

  predicate RunIn(text: string) {
    Contains(text, "check in") || Contains(text, "run-in")
  }

  predicate FollowUpOrWashOut(text: string) {
    Contains(text, "follow up") || Contains(text, "follow-up") ||
    Contains(text, "wash out") || Contains(text, "wash-out")
  }

  /**
   * Each subtype, and the code, in terms of the phrases the label contains:
   * "screening" wins over every other phrase, a run-in phrase over the
   * follow-up and wash-out ones, and a label with none of them is of the
   * other code. Follow-up and wash-out share one subtype.
   */
  lemma ClassifyMeaning(text: string)
    ensures Classify(text).subtypeUid == "CTTerm_000150" <==> Contains(text, "screening")
    ensures Classify(text).subtypeUid == "CTTerm_000148" <==> !Contains(text, "screening") && RunIn(text)
    ensures Classify(text).subtypeUid == "CTTerm_000149" <==>
      !Contains(text, "screening") && !RunIn(text) && FollowUpOrWashOut(text)
    ensures Classify(text).subtypeUid == "CTTerm_000147" <==>
      !Contains(text, "screening") && !RunIn(text) && !FollowUpOrWashOut(text)
    ensures Classify(text).code == "CTTerm_000143" <==>
      Contains(text, "screening") || RunIn(text) || FollowUpOrWashOut(text)
    ensures Classify(text).code == "CTTerm_000144" <==> Classify(text).subtypeUid == "CTTerm_000147"
  {
  }

  /** The upper/lower case of the chosen name does not affect the classification. */
  lemma ClassifyIgnoresCase(e: Element)
    ensures Classify(ClassLabel(e.(name := Upper(e.name), labelText := Upper(e.labelText)))) == Classify(ClassLabel(e))
  {
    LowerOfUpper(e.name);
    LowerOfUpper(e.labelText);
  }

  // ---------------------------------------------------------------------
  // The loop (elements.py:5-7, 38-47)

  function ElementRequest(e: Element, studyUid: string): Req {
    var t := Classify(ClassLabel(e));
    CreateElement(studyUid, ElementName(e), t.code, StartRule(e.transitionStartRule), EndRule(e.transitionEndRule),
                  t.subtypeUid, ElementName(e), e.description)
  }

  function RequestFor(studyUid: string): Element -> Req {
    (e: Element) => ElementRequest(e, studyUid)
  }

  /** `[f(x) for x in xs]`. */
  function Each<T, U>(xs: seq<T>, f: T -> U): seq<U>
    decreases |xs|
  {
    if xs == [] then [] else Each(xs[..|xs| - 1], f) + [f(xs[|xs| - 1])]
  }

  /** The creates for a list of elements, in order. */
  function ElementRequests(es: seq<Element>, studyUid: string): seq<Req> {
    Each(es, RequestFor(studyUid))
  }

  /** `study_designs[0]` raises on an empty list; otherwise every element of the first design is created. */
  function Upload(designs: seq<StudyDesign>, studyUid: string, log: seq<Req>): Walk<Req> {
    if designs == [] then Walk(log, Some(IndexError))
    else Walk(log + ElementRequests(designs[0].elements, studyUid), None)
  }

  /** The create for an element posts its chosen name twice, and the terms and end rule it selects. */
  lemma ElementRequestMeaning(e: Element, studyUid: string)
    ensures ElementRequest(e, studyUid).name == ElementName(e)
    ensures ElementRequest(e, studyUid).shortName == ElementName(e)
    ensures ElementType(ElementRequest(e, studyUid).code, ElementRequest(e, studyUid).subtypeUid) ==
      Classify(Lower(ElementName(e)))
    ensures ElementRequest(e, studyUid).endRule == Get(e.transitionEndRule, "text")
    ensures ElementRequest(e, studyUid).studyUid == studyUid
  {
    ClassLabelIsLoweredName(e);
    EndRuleIsText(e.transitionEndRule);
  }

  /** `Each` keeps the length and the order: entry i is `f(xs[i])`. */
  lemma {:induction false} EachAt<T, U>(xs: seq<T>, f: T -> U)
    ensures |Each(xs, f)| == |xs|
    ensures forall i :: 0 <= i < |xs| ==> Each(xs, f)[i] == f(xs[i])
    decreases |xs|
  {
    if xs != [] {
      var init := xs[..|xs| - 1];
      EachAt(init, f);
      assert forall i :: 0 <= i < |init| ==> xs[i] == init[i];
    }
  }

  lemma EachNext<T, U>(xs: seq<T>, f: T -> U, i: nat)
    requires i < |xs|
    ensures Each(xs[..i + 1], f) == Each(xs[..i], f) + [f(xs[i])]
  {
    assert xs[..i + 1][..i] == xs[..i];
  }

  /** Exactly one create per element, in the elements' order. */
  lemma ElementRequestsAt(es: seq<Element>, studyUid: string)
    ensures |ElementRequests(es, studyUid)| == |es|
    ensures forall i :: 0 <= i < |es| ==> ElementRequests(es, studyUid)[i] == ElementRequest(es[i], studyUid)
  {
    EachAt(es, RequestFor(studyUid));
  }

  /**
   * The body of the loop, as the statements the source runs for one element
   * (elements.py:8-47); `CreateStudyElement` calls it, and its ensures ties
   * those statements to the request the specification builds.
   */
  method ElementCreate(elem: Element, studyUid: string) returns (request: Req)
    ensures request == ElementRequest(elem, studyUid)
  {
    var name := elem.name;
    var text := if |name| > 3 then Lower(name) else Lower(elem.labelText);
    var startRule := Get(elem.transitionStartRule, "text").GetOr("");
    var endRule := if elem.transitionEndRule != map[] then Get(elem.transitionEndRule, "text") else None;
    var t := Classify(text);
    var elementName := if |name| > 3 then name else elem.labelText;
    request := CreateElement(studyUid, elementName, t.code, startRule, endRule, t.subtypeUid, elementName, elem.description);
  }

  method CreateStudyElement(designs: seq<StudyDesign>, studyUid: string, log: seq<Req>)
    returns (log': seq<Req>, raised: Option<Failure>)
    ensures Walk(log', raised) == Upload(designs, studyUid, log)
  {
    if |designs| == 0 {
      return log, Some(IndexError);
    }
    var elements := designs[0].elements;
    log' := log;
    var i := 0;
    while i < |elements|
      invariant 0 <= i <= |elements|
      invariant log' == log + ElementRequests(elements[..i], studyUid)
    {
      var request := ElementCreate(elements[i], studyUid);
      EachNext(elements, RequestFor(studyUid), i);
      log' := log' + [request];
      i := i + 1;
    }
    assert elements[..i] == elements;
    raised := None;
  }
}
