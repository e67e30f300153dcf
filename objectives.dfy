/**
 * create_study_objective_endpoint (objectivies_endpoints.py:14-85): for every
 * objective of the first design create, approve and attach an objective
 * template, look the new study objective up by its text, and create its
 * endpoints under it.
 */
module Objectives {
  import opened Common
  import opened Text
  import opened Steps

  // ---------------------------------------------------------------------
  // Data

  /** A USDM endpoint; absent strings are "". */
  datatype Endpoint = Endpoint(text: string, levelDecode: string)

  /** A USDM objective; absent strings are "". */
  datatype Objective = Objective(text: string, levelDecode: string, endpoints: seq<Endpoint>)

  datatype StudyDesign = StudyDesign(objectives: seq<Objective>)

  /** A listed study objective; an absent name is "" and an absent uid None. */
  datatype ExistingObjective = ExistingObjective(objectiveName: string, studyObjectiveUid: Option<string>)

  datatype Req =
    | CreateObjectiveTemplate(studyUid: string, name: string, libraryName: string)
    | ApproveObjectiveTemplate(templateUid: Option<string>)
    | CreateStudyObjective(studyUid: string, templateUid: Option<string>, objectiveLevelUid: string)
    | ListStudyObjectives(studyUid: string)
    | CreateEndpointTemplate(studyUid: string, name: string, libraryName: string)
    | ApproveEndpointTemplate(templateUid: Option<string>)
    | CreateStudyEndpoint(studyUid: string, templateUid: Option<string>, studyObjectiveUid: string,
                          endpointLevelUid: string, endpointSublevelUid: Option<string>)

  /** The template uids the server answers (None when absent) and the study objectives it lists. */
  datatype Remote = Remote(
    objectiveTemplate: seq<Req> -> Option<string>,
    endpointTemplate: seq<Req> -> Option<string>,
    studyObjectives: seq<Req> -> seq<ExistingObjective>)

  // ---------------------------------------------------------------------
  // Levels (objectivies_endpoints.py:31-34, 71-76)

  function ObjectiveLevel(decode: string): string {
    if Lower(decode) == "primary objective" then "C85826_OBJPRIM" else "C85827_OBJSEC"
  }

  function EndpointLevel(decode: string): string {
    if Lower(decode) == "primary endpoint" then "C98772_OUTMSPRI" else "C98781_OUTMSSEC"
  }

  /** Primary exactly when the decode spells the phrase in any mix of cases. */
  lemma LevelsMeaning(decode: string)
    ensures ObjectiveLevel(decode) == "C85826_OBJPRIM" <==>
      |decode| == 17 && forall i :: 0 <= i < 17 ==> LowerChar(decode[i]) == "primary objective"[i]
    ensures EndpointLevel(decode) == "C98772_OUTMSPRI" <==>
      |decode| == 16 && forall i :: 0 <= i < 16 ==> LowerChar(decode[i]) == "primary endpoint"[i]
    ensures ObjectiveLevel(decode) == "C85826_OBJPRIM" || ObjectiveLevel(decode) == "C85827_OBJSEC"
    ensures EndpointLevel(decode) == "C98772_OUTMSPRI" || EndpointLevel(decode) == "C98781_OUTMSSEC"
  {
  }

  /** The level ignores case. */
  lemma LevelsIgnoreCase(decode: string)
    ensures ObjectiveLevel(Upper(decode)) == ObjectiveLevel(decode)
    ensures EndpointLevel(Upper(decode)) == EndpointLevel(decode)
  {
    LowerOfUpper(decode);
  }

  // ---------------------------------------------------------------------
  // The study-objective lookup (objectivies_endpoints.py:40-56)

  function HasObjectiveName(text: string): ExistingObjective -> bool {
    (e: ExistingObjective) => e.objectiveName == text
  }

  /** The uid of the first listed objective named by the text; a first match without a uid gives None. */
  function StudyObjectiveUid(existing: seq<ExistingObjective>, text: string): Option<string> {
    match FirstWhere(existing, HasObjectiveName(text), 0)
    case None => None
    case Some(k) => existing[k].studyObjectiveUid
  }

  method FindStudyObjective(existing: seq<ExistingObjective>, text: string) returns (uid: Option<string>)
    ensures uid == StudyObjectiveUid(existing, text)
  {
    uid := None;
    var k := 0;
    while k < |existing|
      invariant 0 <= k <= |existing|
      invariant FirstWhere(existing, HasObjectiveName(text), 0) == FirstWhere(existing, HasObjectiveName(text), k)
    {
      if existing[k].objectiveName == text {
        return existing[k].studyObjectiveUid;
      }
      k := k + 1;
    }
  }

  /** The first objective listed under the text decides, whether or not it has a uid. */
  lemma StudyObjectiveFirst(existing: seq<ExistingObjective>, text: string, k: nat)
    requires k < |existing| && existing[k].objectiveName == text
    requires forall j :: 0 <= j < k ==> existing[j].objectiveName != text
    ensures StudyObjectiveUid(existing, text) == existing[k].studyObjectiveUid
  {
    forall j | 0 <= j < k ensures !HasObjectiveName(text)(existing[j]) {}
    FirstWhereAt(existing, HasObjectiveName(text), 0, k);
  }

  lemma StudyObjectiveMissing(existing: seq<ExistingObjective>, text: string)
    requires forall j :: 0 <= j < |existing| ==> existing[j].objectiveName != text
    ensures StudyObjectiveUid(existing, text) == None
  {
    FirstWhereSpec(existing, HasObjectiveName(text), 0);
  }

  /** A found uid belongs to an objective listed under exactly the original text. */
  lemma StudyObjectiveNamed(existing: seq<ExistingObjective>, text: string)
    requires StudyObjectiveUid(existing, text).Some?
    ensures exists k ::
      (0 <= k < |existing| && existing[k].objectiveName == text &&
       existing[k].studyObjectiveUid == StudyObjectiveUid(existing, text))
  {
    FirstWhereSpec(existing, HasObjectiveName(text), 0);
    var k := FirstWhere(existing, HasObjectiveName(text), 0).value;
    assert existing[k].objectiveName == text;
  }

  // ---------------------------------------------------------------------
  // The steps

  /** One endpoint: create its template, approve it, and create the study endpoint on the objective. */
  function EndpointStep(studyUid: string, objectiveUid: string, remote: Remote, e: Endpoint, log: seq<Req>): Walk<Req> {
    var l1 := log + [CreateEndpointTemplate(studyUid, Parenthesize(e.text), "User Defined")];
    var t := remote.endpointTemplate(l1);
    Walk(l1 + [ApproveEndpointTemplate(t)] +
         [CreateStudyEndpoint(studyUid, t, objectiveUid, EndpointLevel(e.levelDecode), None)], None)
  }

  function EndpointSteps(studyUid: string, objectiveUid: string, remote: Remote): (Endpoint, seq<Req>) -> Walk<Req> {
    (e: Endpoint, l: seq<Req>) => EndpointStep(studyUid, objectiveUid, remote, e, l)
  }

  /** The log once the objective is created and the study objectives are listed. */
  function ObjectiveCreated(studyUid: string, remote: Remote, o: Objective, log: seq<Req>): seq<Req> {
    var l1 := log + [CreateObjectiveTemplate(studyUid, Parenthesize(o.text), "User Defined")];
    var t := remote.objectiveTemplate(l1);
    l1 + [ApproveObjectiveTemplate(t)] + [CreateStudyObjective(studyUid, t, ObjectiveLevel(o.levelDecode))] +
    [ListStudyObjectives(studyUid)]
  }

  /** One objective: create it, look it up, and create its endpoints only when it is found. */
  function ObjectiveStep(studyUid: string, remote: Remote, o: Objective, log: seq<Req>): Walk<Req> {
    var l := ObjectiveCreated(studyUid, remote, o, log);
    match StudyObjectiveUid(remote.studyObjectives(l), o.text)
    case None => Walk(l, None)
    case Some(u) => Run(o.endpoints, EndpointSteps(studyUid, u, remote), l)
  }

  function ObjectiveSteps(studyUid: string, remote: Remote): (Objective, seq<Req>) -> Walk<Req> {
    (o: Objective, l: seq<Req>) => ObjectiveStep(studyUid, remote, o, l)
  }

  /** The whole of create_study_objective_endpoint: `study_design[0]`, then every objective in order. */
  function Upload(designs: seq<StudyDesign>, studyUid: string, remote: Remote, log: seq<Req>): Walk<Req> {
    if designs == [] then Walk(log, Some(IndexError))
    else Run(designs[0].objectives, ObjectiveSteps(studyUid, remote), log)
  }

  // ---------------------------------------------------------------------
  // The loops

  method CreateEndpoint(studyUid: string, objectiveUid: string, remote: Remote, e: Endpoint, log: seq<Req>)
    returns (log': seq<Req>)
    ensures Walk(log', None) == EndpointStep(studyUid, objectiveUid, remote, e, log)
  {
    log' := log + [CreateEndpointTemplate(studyUid, Parenthesize(e.text), "User Defined")];
    var templateUid := remote.endpointTemplate(log');
    log' := log' + [ApproveEndpointTemplate(templateUid)];
    var levelUid := if Lower(e.levelDecode) == "primary endpoint" then "C98772_OUTMSPRI" else "C98781_OUTMSSEC";
    log' := log' + [CreateStudyEndpoint(studyUid, templateUid, objectiveUid, levelUid, None)];
  }

  method CreateEndpoints(studyUid: string, objectiveUid: string, remote: Remote, endpoints: seq<Endpoint>, log: seq<Req>)
    returns (log': seq<Req>)
    ensures Walk(log', None) == Run(endpoints, EndpointSteps(studyUid, objectiveUid, remote), log)
  {
    ghost var step := EndpointSteps(studyUid, objectiveUid, remote);
    log' := log;
    var i := 0;
    while i < |endpoints|
      invariant 0 <= i <= |endpoints|
      invariant Run(endpoints[..i], step, log) == Walk(log', None)
    {
      RunNext(endpoints, step, log, i);
      log' := CreateEndpoint(studyUid, objectiveUid, remote, endpoints[i], log');
      i := i + 1;
    }
    assert endpoints[..i] == endpoints;
  }

  method CreateObjective(studyUid: string, remote: Remote, o: Objective, log: seq<Req>) returns (log': seq<Req>)
    ensures Walk(log', None) == ObjectiveStep(studyUid, remote, o, log)
  {
    log' := log + [CreateObjectiveTemplate(studyUid, Parenthesize(o.text), "User Defined")];
    var templateUid := remote.objectiveTemplate(log');
    log' := log' + [ApproveObjectiveTemplate(templateUid)];
    var levelUid := if Lower(o.levelDecode) == "primary objective" then "C85826_OBJPRIM" else "C85827_OBJSEC";
    log' := log' + [CreateStudyObjective(studyUid, templateUid, levelUid)];
    log' := log' + [ListStudyObjectives(studyUid)];
    assert log' == ObjectiveCreated(studyUid, remote, o, log);
    var studyObjectiveUid := FindStudyObjective(remote.studyObjectives(log'), o.text);
    if studyObjectiveUid.None? {
      return;
    }
    log' := CreateEndpoints(studyUid, studyObjectiveUid.value, remote, o.endpoints, log');
  }

  method CreateStudyObjectiveEndpoint(designs: seq<StudyDesign>, studyUid: string, remote: Remote, log: seq<Req>)
    returns (log': seq<Req>, raised: Option<Failure>)
    ensures Walk(log', raised) == Upload(designs, studyUid, remote, log)
  {
    if |designs| == 0 {
      return log, Some(IndexError);
    }
    var objectives := designs[0].objectives;
    ghost var step := ObjectiveSteps(studyUid, remote);
    log' := log;
    var i := 0;
    while i < |objectives|
      invariant 0 <= i <= |objectives|
      invariant Run(objectives[..i], step, log) == Walk(log', None)
    {
      RunNext(objectives, step, log, i);
      log' := CreateObjective(studyUid, remote, objectives[i], log');
      i := i + 1;
    }
    assert objectives[..i] == objectives;
    raised := None;
  }

  // ---------------------------------------------------------------------
  // Properties

  /** An objective that is not found under its text gets no endpoint: the step ends with the listing. */
  lemma MissingObjectiveSkipsEndpoints(studyUid: string, remote: Remote, o: Objective, log: seq<Req>)
    requires StudyObjectiveUid(remote.studyObjectives(ObjectiveCreated(studyUid, remote, o, log)), o.text).None?
    ensures ObjectiveStep(studyUid, remote, o, log) == Walk(ObjectiveCreated(studyUid, remote, o, log), None)
    ensures ObjectiveStep(studyUid, remote, o, log).log[|ObjectiveStep(studyUid, remote, o, log).log| - 1] ==
      ListStudyObjectives(studyUid)
  {
  }

  /** A found objective's endpoints are all created under its uid, in order. */
  lemma FoundObjectiveGetsEndpoints(studyUid: string, remote: Remote, o: Objective, log: seq<Req>, u: string)
    requires StudyObjectiveUid(remote.studyObjectives(ObjectiveCreated(studyUid, remote, o, log)), o.text) == Some(u)
    ensures ObjectiveStep(studyUid, remote, o, log) ==
      Run(o.endpoints, EndpointSteps(studyUid, u, remote), ObjectiveCreated(studyUid, remote, o, log))
  {
  }

  /**
   * The lookup compares listed names with the objective's original text,
   * while every template is posted with brackets turned into parentheses.
   * When the server lists the study's objectives under names without a `[`,
   * as all the names this upload posts are (`Parenthesize`), an objective whose text has a
   * square bracket is not found and its endpoints are skipped.
   */
  lemma BracketedObjectiveMissed(studyUid: string, remote: Remote, o: Objective, log: seq<Req>, i: nat)
    requires i < |o.text| && o.text[i] == '['
    requires forall e :: e in remote.studyObjectives(ObjectiveCreated(studyUid, remote, o, log)) ==>
      forall j :: 0 <= j < |e.objectiveName| ==> e.objectiveName[j] != '['
    ensures ObjectiveStep(studyUid, remote, o, log) == Walk(ObjectiveCreated(studyUid, remote, o, log), None)
  {
    var existing := remote.studyObjectives(ObjectiveCreated(studyUid, remote, o, log));
    forall j | 0 <= j < |existing| ensures existing[j].objectiveName != o.text {
      assert existing[j] in existing;
      var name := existing[j].objectiveName;
      assert i >= |name| || name[i] != o.text[i];
    }
    StudyObjectiveMissing(existing, o.text);
  }

  /** What the upload may append. */
  function WellFormed(studyUid: string): Req -> bool {
    (r: Req) =>
      (r.CreateObjectiveTemplate? ==>
        r.studyUid == studyUid && r.libraryName == "User Defined" &&
        (forall i :: 0 <= i < |r.name| ==> r.name[i] != '[' && r.name[i] != ']')) &&
      (r.CreateEndpointTemplate? ==>
        r.studyUid == studyUid && r.libraryName == "User Defined" &&
        (forall i :: 0 <= i < |r.name| ==> r.name[i] != '[' && r.name[i] != ']')) &&
      (r.CreateStudyObjective? ==>
        r.studyUid == studyUid && (r.objectiveLevelUid == "C85826_OBJPRIM" || r.objectiveLevelUid == "C85827_OBJSEC")) &&
      (r.CreateStudyEndpoint? ==>
        r.studyUid == studyUid && r.endpointSublevelUid == None &&
        (r.endpointLevelUid == "C98772_OUTMSPRI" || r.endpointLevelUid == "C98781_OUTMSSEC")) &&
      (r.ListStudyObjectives? ==> r.studyUid == studyUid)
  }

  lemma EndpointStepAppends(studyUid: string, objectiveUid: string, remote: Remote)
    ensures forall e, l :: Appends(l, EndpointSteps(studyUid, objectiveUid, remote)(e, l).log, WellFormed(studyUid))
  {
    forall e, l ensures Appends(l, EndpointSteps(studyUid, objectiveUid, remote)(e, l).log, WellFormed(studyUid)) {
      LevelsMeaning(e.levelDecode);
    }
  }

  lemma ObjectiveStepAppends(studyUid: string, remote: Remote)
    ensures forall o, l :: Appends(l, ObjectiveSteps(studyUid, remote)(o, l).log, WellFormed(studyUid))
  {
    forall o, l ensures Appends(l, ObjectiveSteps(studyUid, remote)(o, l).log, WellFormed(studyUid)) {
      var created := ObjectiveCreated(studyUid, remote, o, l);
      LevelsMeaning(o.levelDecode);
      assert Appends(l, created, WellFormed(studyUid));
      match StudyObjectiveUid(remote.studyObjectives(created), o.text)
      case None =>
      case Some(u) =>
        EndpointStepAppends(studyUid, u, remote);
        RunAppends(o.endpoints, EndpointSteps(studyUid, u, remote), created, WellFormed(studyUid));
        AppendsTransitive(l, created, ObjectiveSteps(studyUid, remote)(o, l).log, WellFormed(studyUid));
    }
  }

  /**
   * The upload only appends: templates without square brackets from the
   * user-defined library, objectives and endpoints of the two levels each,
   * and endpoints without a sublevel.
   */
  lemma UploadAppends(designs: seq<StudyDesign>, studyUid: string, remote: Remote, log: seq<Req>)
    ensures Appends(log, Upload(designs, studyUid, remote, log).log, WellFormed(studyUid))
    ensures Upload(designs, studyUid, remote, log).raised.Some? <==> designs == []
  {
    if designs != [] {
      ObjectiveStepAppends(studyUid, remote);
      RunAppends(designs[0].objectives, ObjectiveSteps(studyUid, remote), log, WellFormed(studyUid));
      ObjectivesNeverRaise(designs[0].objectives, studyUid, remote, log);
    }
  }

  lemma {:induction false} EndpointsNeverRaise(endpoints: seq<Endpoint>, studyUid: string, objectiveUid: string,
                                               remote: Remote, log: seq<Req>)
    ensures Run(endpoints, EndpointSteps(studyUid, objectiveUid, remote), log).raised.None?
    decreases |endpoints|
  {
    if endpoints != [] {
      EndpointsNeverRaise(endpoints[..|endpoints| - 1], studyUid, objectiveUid, remote, log);
    }
  }

  lemma {:induction false} ObjectivesNeverRaise(objectives: seq<Objective>, studyUid: string, remote: Remote, log: seq<Req>)
    ensures Run(objectives, ObjectiveSteps(studyUid, remote), log).raised.None?
    decreases |objectives|
  {
    if objectives != [] {
      var init := objectives[..|objectives| - 1];
      ObjectivesNeverRaise(init, studyUid, remote, log);
      var o := objectives[|objectives| - 1];
      var l := Run(init, ObjectiveSteps(studyUid, remote), log).log;
      var created := ObjectiveCreated(studyUid, remote, o, l);
      match StudyObjectiveUid(remote.studyObjectives(created), o.text)
      case None =>
      case Some(u) => EndpointsNeverRaise(o.endpoints, studyUid, u, remote, created);
    }
  }
}
