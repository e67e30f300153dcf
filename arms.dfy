/**
 * create_study_arm (arms.py:7-63): find the study's uid in the study list,
 * then for every arm of the first design create one study arm per arm-type
 * term whose sponsor name shares a keyword with the arm's type.
 */
module Arms {
  import opened Common
  import opened Text
  import opened Steps

  // ---------------------------------------------------------------------
  // Data

  /** An entry of the study list; an absent id is None and an absent uid "". */
  datatype ListedStudy = ListedStudy(id: Option<string>, uid: string)

  /** A USDM study arm; absent strings are "". */
  datatype Arm = Arm(id: string, name: string, description: string, typeDecode: string)

  datatype StudyDesign = StudyDesign(arms: seq<Arm>)

  /** An item of the "Arm Type" codelist; an absent sponsor name is "". */
  datatype CtItem = CtItem(sponsorPreferredName: string, termUid: Option<string>)

  datatype Req =
    | ListStudies
    | ListArmTypes
    | CreateArm(studyUid: string, armTypeUid: string, name: string, shortName: string,
                randomizationGroup: string, code: string, description: string)

  datatype Response<T> = Response(status: int, items: seq<T>)

  /** The server's answers to the two listings, from the log up to the request. */
  datatype Remote = Remote(studies: seq<Req> -> Response<ListedStudy>, armTypes: seq<Req> -> Response<CtItem>)

  // ---------------------------------------------------------------------
  // The study lookup (arms.py:10-25)

  function HasStudyId(studyId: string): ListedStudy -> bool {
    (s: ListedStudy) => s.id == Some(studyId)
  }

  /** The uid of the first listed study with the id; a failed listing or a missing id raises. */
  function FindStudy(studyId: string, remote: Remote, log: seq<Req>): (seq<Req>, Result<string>) {
    var l := log + [ListStudies];
    var response := remote.studies(l);
    if response.status != 200 then (l, Err(HttpStatus(response.status)))
    else
      match FirstWhere(response.items, HasStudyId(studyId), 0)
      case None => (l, Err(NotFound(studyId)))
      case Some(k) => (l, Ok(response.items[k].uid))
  }

  method FindStudyUid(studyId: string, remote: Remote, log: seq<Req>) returns (log': seq<Req>, r: Result<string>)
    ensures (log', r) == FindStudy(studyId, remote, log)
  {
    log' := log + [ListStudies];
    var response := remote.studies(log');
    if response.status != 200 {
      return log', Err(HttpStatus(response.status));
    }
    var items := response.items;
    var k := 0;
    while k < |items|
      invariant 0 <= k <= |items|
      invariant FirstWhere(items, HasStudyId(studyId), 0) == FirstWhere(items, HasStudyId(studyId), k)
    {
      if items[k].id == Some(studyId) {
        return log', Ok(items[k].uid);
      }
      k := k + 1;
    }
    r := Err(NotFound(studyId));
  }

  /** The first study listed with the id gives the uid. */
  lemma StudyFound(studyId: string, remote: Remote, log: seq<Req>, k: nat)
    requires remote.studies(log + [ListStudies]).status == 200
    requires k < |remote.studies(log + [ListStudies]).items|
    requires remote.studies(log + [ListStudies]).items[k].id == Some(studyId)
    requires forall j :: 0 <= j < k ==> remote.studies(log + [ListStudies]).items[j].id != Some(studyId)
    ensures FindStudy(studyId, remote, log) == (log + [ListStudies], Ok(remote.studies(log + [ListStudies]).items[k].uid))
  {
    var items := remote.studies(log + [ListStudies]).items;
    forall j | 0 <= j < k ensures !HasStudyId(studyId)(items[j]) {}
    FirstWhereAt(items, HasStudyId(studyId), 0, k);
  }

  /** A study id missing from the list raises. */
  lemma StudyMissing(studyId: string, remote: Remote, log: seq<Req>)
    requires remote.studies(log + [ListStudies]).status == 200
    requires forall j :: 0 <= j < |remote.studies(log + [ListStudies]).items| ==>
      remote.studies(log + [ListStudies]).items[j].id != Some(studyId)
    ensures FindStudy(studyId, remote, log) == (log + [ListStudies], Err(NotFound(studyId)))
  {
    var items := remote.studies(log + [ListStudies]).items;
    FirstWhereSpec(items, HasStudyId(studyId), 0);
  }

  /** Any listing status but 200, even another success, raises. */
  lemma StudyListFails(studyId: string, remote: Remote, log: seq<Req>)
    requires remote.studies(log + [ListStudies]).status != 200
    ensures FindStudy(studyId, remote, log).1 == Err(HttpStatus(remote.studies(log + [ListStudies]).status))
  {
  }

  // ---------------------------------------------------------------------
  // Arm-type matching (arms.py:31-61)

  const Keywords: seq<string> := ["placebo", "investigational", "comparator", "observational"]

  /** The lower-cased arm type, read as "investigational" when it mentions a treatment. */
  function ArmDecode(arm: Arm): string {
    var d := Lower(arm.typeDecode);
    if Contains(d, "treatment") then "investigational" else d
  }

  function ItemCreate(arm: Arm, item: CtItem, studyUid: string): Req {
    CreateArm(studyUid, item.termUid.GetOr("UNKNOWN_UID"), arm.name, arm.name, arm.id, arm.name, arm.description)
  }

  predicate SponsorHas(item: CtItem, keyword: string) {
    Contains(Lower(item.sponsorPreferredName), keyword)
  }

  /** One create for each item whose sponsor name contains the keyword, in the items' order. */
  function ItemCreates(items: seq<CtItem>, keyword: string, arm: Arm, studyUid: string): seq<Req>
    decreases |items|
  {
    if items == [] then []
    else
      var item := items[|items| - 1];
      ItemCreates(items[..|items| - 1], keyword, arm, studyUid) +
      (if SponsorHas(item, keyword) then [ItemCreate(arm, item, studyUid)] else [])
  }

  /** The creates of each keyword the decode contains, keyword by keyword. */
  function KeywordCreates(keywords: seq<string>, decode: string, items: seq<CtItem>, arm: Arm, studyUid: string): seq<Req>
    decreases |keywords|
  {
    if keywords == [] then []
    else
      var keyword := keywords[|keywords| - 1];
      KeywordCreates(keywords[..|keywords| - 1], decode, items, arm, studyUid) +
      (if Contains(decode, keyword) then ItemCreates(items, keyword, arm, studyUid) else [])
  }

  function ArmCreates(arm: Arm, items: seq<CtItem>, studyUid: string): seq<Req> {
    KeywordCreates(Keywords, ArmDecode(arm), items, arm, studyUid)
  }

  /** One arm: list the arm types; on 200 create what matches, otherwise nothing. */
  function ArmStep(studyUid: string, remote: Remote, arm: Arm, log: seq<Req>): Walk<Req> {
    var l := log + [ListArmTypes];
    var response := remote.armTypes(l);
    if response.status == 200 then Walk(l + ArmCreates(arm, response.items, studyUid), None)
    else Walk(l, None)
  }

  function ArmSteps(studyUid: string, remote: Remote): (Arm, seq<Req>) -> Walk<Req> {
    (arm: Arm, l: seq<Req>) => ArmStep(studyUid, remote, arm, l)
  }

  /** The whole of create_study_arm: the lookup, `study_designs[0]`, then every arm in order. */
  function Upload(designs: seq<StudyDesign>, studyId: string, remote: Remote, log: seq<Req>): Walk<Req> {
    var (l, found) := FindStudy(studyId, remote, log);
    if found.Err? then Walk(l, Some(found.error))
    else if designs == [] then Walk(l, Some(IndexError))
    else Run(designs[0].arms, ArmSteps(found.value, remote), l)
  }

  // ---------------------------------------------------------------------
  // The loops

  method CreateForKeyword(items: seq<CtItem>, keyword: string, arm: Arm, studyUid: string) returns (creates: seq<Req>)
    ensures creates == ItemCreates(items, keyword, arm, studyUid)
  {
    creates := [];
    var j := 0;
    while j < |items|
      invariant 0 <= j <= |items|
      invariant creates == ItemCreates(items[..j], keyword, arm, studyUid)
    {
      assert items[..j + 1][..j] == items[..j];
      var sponsorName := Lower(items[j].sponsorPreferredName);
      if Contains(sponsorName, keyword) {
        creates := creates + [CreateArm(studyUid, items[j].termUid.GetOr("UNKNOWN_UID"), arm.name, arm.name,
                                        arm.id, arm.name, arm.description)];
      }
      j := j + 1;
    }
    assert items[..j] == items;
  }

  method CreateForArm(arm: Arm, items: seq<CtItem>, studyUid: string) returns (creates: seq<Req>)
    ensures creates == ArmCreates(arm, items, studyUid)
  {
    var decode := Lower(arm.typeDecode);
    decode := if Contains(decode, "treatment") then "investigational" else decode;
    var keywords := ["placebo", "investigational", "comparator", "observational"];
    creates := [];
    var q := 0;
    while q < |keywords|
      invariant 0 <= q <= |keywords|
      invariant creates == KeywordCreates(keywords[..q], decode, items, arm, studyUid)
    {
      assert keywords[..q + 1][..q] == keywords[..q];
      if Contains(decode, keywords[q]) {
        var more := CreateForKeyword(items, keywords[q], arm, studyUid);
        creates := creates + more;
      }
      q := q + 1;
    }
    assert keywords[..q] == keywords;
  }

  method CreateArmStep(studyUid: string, remote: Remote, arm: Arm, log: seq<Req>) returns (log': seq<Req>)
    ensures Walk(log', None) == ArmStep(studyUid, remote, arm, log)
  {
    log' := log + [ListArmTypes];
    var response := remote.armTypes(log');
    if response.status == 200 {
      var creates := CreateForArm(arm, response.items, studyUid);
      log' := log' + creates;
    }
  }

  method CreateStudyArm(designs: seq<StudyDesign>, studyId: string, remote: Remote, log: seq<Req>)
    returns (log': seq<Req>, raised: Option<Failure>)
    ensures Walk(log', raised) == Upload(designs, studyId, remote, log)
  {
    var found;
    log', found := FindStudyUid(studyId, remote, log);
    if found.Err? {
      return log', Some(found.error);
    }
    if |designs| == 0 {
      return log', Some(IndexError);
    }
    var arms := designs[0].arms;
    ghost var start := log';
    ghost var step := ArmSteps(found.value, remote);
    var i := 0;
    while i < |arms|
      invariant 0 <= i <= |arms|
      invariant Run(arms[..i], step, start) == Walk(log', None)
    {
      RunNext(arms, step, start, i);
      log' := CreateArmStep(found.value, remote, arms[i], log');
      i := i + 1;
    }
    assert arms[..i] == arms;
    raised := None;
  }

  // ---------------------------------------------------------------------
  // Properties

  /**
   * The creates for one keyword: each is the create of an item whose
   * sponsor name contains the keyword, and every such item has its create.
   */
  lemma {:induction false} ItemCreatesMeaning(items: seq<CtItem>, keyword: string, arm: Arm, studyUid: string)
    ensures forall r :: r in ItemCreates(items, keyword, arm, studyUid) ==>
      exists j :: 0 <= j < |items| && SponsorHas(items[j], keyword) && r == ItemCreate(arm, items[j], studyUid)
    ensures forall j :: 0 <= j < |items| && SponsorHas(items[j], keyword) ==>
      ItemCreate(arm, items[j], studyUid) in ItemCreates(items, keyword, arm, studyUid)
    decreases |items|
  {
    if items != [] {
      var init := items[..|items| - 1];
      ItemCreatesMeaning(init, keyword, arm, studyUid);
      assert forall j :: 0 <= j < |init| ==> init[j] == items[j];
    }
  }

  /**
   * The creates for an arm: each comes from an item and a keyword that the
   * arm's decode and the item's sponsor name both contain, and each such
   * pair gives a create. An arm can thus have none or several.
   */
  lemma {:induction false} KeywordCreatesMeaning(keywords: seq<string>, decode: string, items: seq<CtItem>, arm: Arm,
                                                 studyUid: string)
    ensures forall r :: r in KeywordCreates(keywords, decode, items, arm, studyUid) ==>
      exists q, j :: 0 <= q < |keywords| && 0 <= j < |items| &&
        Contains(decode, keywords[q]) && SponsorHas(items[j], keywords[q]) && r == ItemCreate(arm, items[j], studyUid)
    ensures forall q, j ::
      (0 <= q < |keywords| && 0 <= j < |items| && Contains(decode, keywords[q]) && SponsorHas(items[j], keywords[q])) ==>
      ItemCreate(arm, items[j], studyUid) in KeywordCreates(keywords, decode, items, arm, studyUid)
    decreases |keywords|
  {
    if keywords != [] {
      var init := keywords[..|keywords| - 1];
      var keyword := keywords[|keywords| - 1];
      KeywordCreatesMeaning(init, decode, items, arm, studyUid);
      ItemCreatesMeaning(items, keyword, arm, studyUid);
      assert forall q :: 0 <= q < |init| ==> init[q] == keywords[q];
      var all := KeywordCreates(keywords, decode, items, arm, studyUid);
      var earlier := KeywordCreates(init, decode, items, arm, studyUid);
      forall r | r in all
        ensures exists q, j ::
          (0 <= q < |keywords| && 0 <= j < |items| &&
           Contains(decode, keywords[q]) && SponsorHas(items[j], keywords[q]) && r == ItemCreate(arm, items[j], studyUid))
      {
        if r !in earlier {
          var j :| 0 <= j < |items| && SponsorHas(items[j], keyword) && r == ItemCreate(arm, items[j], studyUid);
          assert keywords[|keywords| - 1] == keyword;
        } else {
          var q, j :| 0 <= q < |init| && 0 <= j < |items| &&
            Contains(decode, init[q]) && SponsorHas(items[j], init[q]) && r == ItemCreate(arm, items[j], studyUid);
          assert keywords[q] == init[q];
        }
      }
    }
  }

  /** Every create names the study and posts the arm's name as name, short name and code, and its id as randomization group. */
  lemma ArmCreatesFields(arm: Arm, items: seq<CtItem>, studyUid: string)
    ensures forall r :: r in ArmCreates(arm, items, studyUid) ==>
      r.CreateArm? && r.studyUid == studyUid && r.name == arm.name && r.shortName == arm.name &&
      r.code == arm.name && r.randomizationGroup == arm.id && r.description == arm.description
  {
    KeywordCreatesMeaning(Keywords, ArmDecode(arm), items, arm, studyUid);
  }

  lemma InvestigationalOnly(keyword: string)
    requires keyword in Keywords
    ensures Contains("investigational", keyword) <==> keyword == "investigational"
  {
    var s := "investigational";
    if keyword == "investigational" {
      assert OccursAt(s, keyword, 0);
      ContainsAt(s, keyword, 0);
    } else if keyword == "placebo" || keyword == "comparator" {
      NoLetterNoContains(s, keyword);
    } else {
      forall i ensures !OccursAt(s, keyword, i) {
        if 0 <= i && i + |keyword| <= |s| {
          assert s[i..i + |keyword|][0] == s[i];
        }
      }
      ContainsIff(s, keyword);
    }
  }

  /** When the decode contains just one of the keywords, only that keyword's creates are made. */
  lemma {:induction false} OneKeyword(keywords: seq<string>, decode: string, items: seq<CtItem>, arm: Arm,
                                      studyUid: string, q0: nat)
    requires q0 < |keywords| && Contains(decode, keywords[q0])
    requires forall q :: 0 <= q < |keywords| && q != q0 ==> !Contains(decode, keywords[q])
    ensures KeywordCreates(keywords, decode, items, arm, studyUid) == ItemCreates(items, keywords[q0], arm, studyUid)
    decreases |keywords|
  {
    var init := keywords[..|keywords| - 1];
    if q0 < |keywords| - 1 {
      OneKeyword(init, decode, items, arm, studyUid, q0);
    } else {
      NoKeyword(init, decode, items, arm, studyUid);
    }
  }

  lemma {:induction false} NoKeyword(keywords: seq<string>, decode: string, items: seq<CtItem>, arm: Arm, studyUid: string)
    requires forall q :: 0 <= q < |keywords| ==> !Contains(decode, keywords[q])
    ensures KeywordCreates(keywords, decode, items, arm, studyUid) == []
    decreases |keywords|
  {
    if keywords != [] {
      NoKeyword(keywords[..|keywords| - 1], decode, items, arm, studyUid);
    }
  }

  /** An arm whose type mentions a treatment is matched by the "investigational" keyword alone. */
  lemma TreatmentIsInvestigational(arm: Arm, items: seq<CtItem>, studyUid: string)
    requires Contains(Lower(arm.typeDecode), "treatment")
    ensures ArmCreates(arm, items, studyUid) == ItemCreates(items, "investigational", arm, studyUid)
  {
    forall q | 0 <= q < |Keywords| ensures Contains(ArmDecode(arm), Keywords[q]) <==> q == 1 {
      InvestigationalOnly(Keywords[q]);
    }
    OneKeyword(Keywords, ArmDecode(arm), items, arm, studyUid, 1);
  }

  /** A CT listing that is not 200 gives that arm no create. */
  lemma FailedListingCreatesNothing(studyUid: string, remote: Remote, arm: Arm, log: seq<Req>)
    requires remote.armTypes(log + [ListArmTypes]).status != 200
    ensures ArmStep(studyUid, remote, arm, log) == Walk(log + [ListArmTypes], None)
  {
  }

  /** What an arm step may append: the listing, and creates for the study. */
  function ArmRequest(studyUid: string): Req -> bool {
    (r: Req) => r.ListArmTypes? || (r.CreateArm? && r.studyUid == studyUid && r.name == r.shortName == r.code)
  }

  lemma ArmStepAppends(studyUid: string, remote: Remote)
    ensures forall arm, l :: Appends(l, ArmSteps(studyUid, remote)(arm, l).log, ArmRequest(studyUid))
    ensures forall arm, l :: ArmSteps(studyUid, remote)(arm, l).raised.None?
  {
    forall arm, l ensures Appends(l, ArmSteps(studyUid, remote)(arm, l).log, ArmRequest(studyUid)) {
      var response := remote.armTypes(l + [ListArmTypes]);
      ArmCreatesFields(arm, response.items, studyUid);
    }
  }

  /** Once the study is found, the arm loop raises nothing. */
  lemma {:induction false} ArmsNeverRaise(arms: seq<Arm>, studyUid: string, remote: Remote, log: seq<Req>)
    ensures Run(arms, ArmSteps(studyUid, remote), log).raised.None?
    decreases |arms|
  {
    if arms != [] {
      ArmsNeverRaise(arms[..|arms| - 1], studyUid, remote, log);
    }
  }

  /**
   * After the study listing, the upload appends only arm-type listings and
   * creates for the found study, and it raises only in the lookup or on a
   * study without designs.
   */
  lemma UploadAppends(designs: seq<StudyDesign>, studyId: string, remote: Remote, log: seq<Req>)
    ensures Upload(designs, studyId, remote, log).raised.Some? <==>
      FindStudy(studyId, remote, log).1.Err? || designs == []
    ensures FindStudy(studyId, remote, log).1.Ok? ==>
      Appends(log + [ListStudies], Upload(designs, studyId, remote, log).log,
              ArmRequest(FindStudy(studyId, remote, log).1.value))
  {
    var (l, found) := FindStudy(studyId, remote, log);
    if found.Ok? && designs != [] {
      ArmStepAppends(found.value, remote);
      ArmsNeverRaise(designs[0].arms, found.value, remote, l);
      RunAppends(designs[0].arms, ArmSteps(found.value, remote), l, ArmRequest(found.value));
    }
  }
}
