/**
 * create_study_activity (activities.py:172-298): the walk over the study
 * designs and their activities that links each activity of the study to a
 * library activity, falling back to creating a group, a subgroup and an
 * activity concept.
 */
module ActivityTree {
  import opened Common
  import opened Text
  import opened Activities
  import opened Steps

  // ---------------------------------------------------------------------
  // Study data

  /** A USDM activity; an absent biomedicalConceptIds is None, absent strings are "". */
  datatype Activity = Activity(
    id: string,
    labelText: string,  // the `label` field
    description: string,
    name: string,
    biomedicalConceptIds: Option<seq<string>>,
    childIds: seq<string>)

  datatype BiomedicalConcept = BiomedicalConcept(id: string, synonyms: seq<string>)

  datatype StudyDesign = StudyDesign(activities: seq<Activity>)

  datatype Version = Version(studyDesigns: seq<StudyDesign>, biomedicalConcepts: seq<BiomedicalConcept>)

  /** The field names a library activity's first grouping is read with. */
  datatype GroupingKeys = GroupingKeys(group: string, subgroup: string)

  /** The keys read for an ordinary activity (activities.py:258-259, 293-294). */
  const ActivityKeys := GroupingKeys("activity_group_uid", "activity_subgroup_uid")

  /** The keys read for the children of a grouping activity (activities.py:205-206, 244-246). */
  const ChildKeys := GroupingKeys("activity_grouping_uid", "activity_subgrouping_uid")

  /** `not bc_ids`: absent or empty. */
  predicate NoConcepts(ids: Option<seq<string>>) {
    ids.None? || ids.value == []
  }

  /** `label or name or description`. */
  function FirstNonEmpty(a: string, b: string, c: string): string {
    if a != "" then a else if b != "" then b else c
  }

  function HasActivityId(id: string): Activity -> bool {
    (a: Activity) => a.id == id
  }

  function HasConceptId(id: string): BiomedicalConcept -> bool {
    (b: BiomedicalConcept) => b.id == id
  }

  // ---------------------------------------------------------------------
  // The steps

  /** Link a matched library activity through its first grouping; none raises IndexError. */
  function LinkMatched(m: LibraryActivity, keys: GroupingKeys, log: seq<Req>): Walk<Req> {
    if m.groupings == [] then Walk(log, Some(IndexError))
    else
      var g := m.groupings[0];
      Walk(log + [LinkActivity(Get(g, keys.group), Get(g, keys.subgroup), m.uid)], None)
  }

  /** create_activity_if_not_exist (activities.py:91-102): create the concept, approve it, return its uid. */
  function NewActivity(name: string, groupUid: Option<string>, subgroupUid: Option<string>, remote: Remote, log: seq<Req>)
    : (seq<Req>, Option<string>)
  {
    var l := log + [CreateConcept(name, groupUid, subgroupUid)];
    var uid := remote.concept(l);
    (l + [ApproveConcept(uid)], uid)
  }

  /**
   * The fallback once the name test and the create bodies are known
   * (`payloadOf(level, groupUid)`): find or create the group, then the
   * subgroup under the group's uid, create the activity in them and link it.
   */
  function CreateAndLink(wanted: NamedItem -> bool, payloadOf: (Level, Option<string>) -> GroupPayload, activityName: string,
                         remote: Remote, log: seq<Req>): Walk<Req>
  {
    var g := Reconcile(GroupLevel, wanted, payloadOf(GroupLevel, None), remote, log);
    if g.result.Err? then Walk(g.log, Some(g.result.error))
    else
      var groupUid := g.result.value;
      var s := Reconcile(SubgroupLevel, wanted, payloadOf(SubgroupLevel, groupUid), remote, g.log);
      if s.result.Err? then Walk(s.log, Some(s.result.error))
      else LinkNew(activityName, groupUid, s.result.value, remote, s.log)
  }

  /** The fallback for a group name: the group and the subgroup are both named after it. */
  function Fallback(groupName: string, activityName: string, remote: Remote, log: seq<Req>): Walk<Req> {
    CreateAndLink(HasName(TargetName(groupName)), PayloadsFor(TargetName(groupName), CleanName(groupName)), activityName, remote, log)
  }

  /** The create bodies for a target and clean name, at either level. */
  function PayloadsFor(target: string, clean: string): (Level, Option<string>) -> GroupPayload {
    (level: Level, groupUid: Option<string>) => Payload(level, target, clean, groupUid)
  }

  /** Create the activity concept in the group and subgroup and link the new activity to the study. */
  function LinkNew(activityName: string, groupUid: Option<string>, subgroupUid: Option<string>, remote: Remote, log: seq<Req>)
    : Walk<Req>
  {
    var (l, uid) := NewActivity(activityName, groupUid, subgroupUid, remote, log);
    Walk(l + [LinkActivity(groupUid, subgroupUid, uid)], None)
  }

  /** One biomedical concept id: an unknown id is skipped, else the synonym match is linked. */
  function LinkConcept(bcId: string, concepts: seq<BiomedicalConcept>, keys: GroupingKeys, remote: Remote, log: seq<Req>)
    : Walk<Req>
  {
    match FirstWhere(concepts, HasConceptId(bcId), 0)
    case None => Walk(log, None)
    case Some(k) =>
      var (l, m) := MatchSynonym(concepts[k].synonyms, remote, log);
      if m.None? then Walk(l, None) else LinkMatched(m.value, keys, l)
  }

  function ConceptSteps(concepts: seq<BiomedicalConcept>, keys: GroupingKeys, remote: Remote)
    : (string, seq<Req>) -> Walk<Req>
  {
    (bcId: string, log: seq<Req>) => LinkConcept(bcId, concepts, keys, remote, log)
  }

  /** The `for bc_id in bc_ids` loops. */
  function ConceptLinks(ids: seq<string>, concepts: seq<BiomedicalConcept>, keys: GroupingKeys, remote: Remote, log: seq<Req>)
    : Walk<Req>
  {
    Run(ids, ConceptSteps(concepts, keys, remote), log)
  }

  /**
   * One child id of a grouping activity. A child without concepts is
   * searched by its label, name or description and falls back to the
   * parent's description as group and the parent's name as activity; a
   * child with concepts iterates the parent's concept ids, which raises
   * TypeError when the parent has none.
   */
  function LinkChild(childId: string, parent: Activity, activities: seq<Activity>, concepts: seq<BiomedicalConcept>,
                     remote: Remote, log: seq<Req>): Walk<Req>
  {
    match FirstWhere(activities, HasActivityId(childId), 0)
    case None => Walk(log, None)
    case Some(k) =>
      var child := activities[k];
      if NoConcepts(child.biomedicalConceptIds) then
        var (l, m) := Search(FirstNonEmpty(child.labelText, child.name, child.description), remote, log);
        if m.Some? then LinkMatched(m.value, ChildKeys, l)
        else Fallback(parent.description, parent.name, remote, l)
      else if parent.biomedicalConceptIds.None? then Walk(log, Some(TypeError))
      else ConceptLinks(parent.biomedicalConceptIds.value, concepts, ChildKeys, remote, log)
  }

  function ChildSteps(parent: Activity, activities: seq<Activity>, concepts: seq<BiomedicalConcept>, remote: Remote)
    : (string, seq<Req>) -> Walk<Req>
  {
    (childId: string, log: seq<Req>) => LinkChild(childId, parent, activities, concepts, remote, log)
  }

  /** Whether an activity is a grouping activity, by its description. */
  predicate IsGrouping(a: Activity) {
    Contains(Lower(a.description), "grouping activity")
  }

  /**
   * One activity of a design: a grouping activity handles its children; an
   * activity without concepts is searched by name and falls back to the
   * `TBD_<study number>` group; otherwise its concepts are linked.
   */
  function UploadActivity(act: Activity, activities: seq<Activity>, concepts: seq<BiomedicalConcept>,
                          studyNumber: string, remote: Remote, log: seq<Req>): Walk<Req>
  {
    if IsGrouping(act) then Run(act.childIds, ChildSteps(act, activities, concepts, remote), log)
    else if NoConcepts(act.biomedicalConceptIds) then
      var (l, m) := Search(act.name, remote, log);
      if m.Some? then LinkMatched(m.value, ActivityKeys, l)
      else Fallback("TBD_" + studyNumber, act.name, remote, l)
    else ConceptLinks(act.biomedicalConceptIds.value, concepts, ActivityKeys, remote, log)
  }

  function ActivitySteps(activities: seq<Activity>, concepts: seq<BiomedicalConcept>, studyNumber: string, remote: Remote)
    : (Activity, seq<Req>) -> Walk<Req>
  {
    (act: Activity, log: seq<Req>) => UploadActivity(act, activities, concepts, studyNumber, remote, log)
  }

  function DesignSteps(concepts: seq<BiomedicalConcept>, studyNumber: string, remote: Remote)
    : (StudyDesign, seq<Req>) -> Walk<Req>
  {
    (d: StudyDesign, log: seq<Req>) => Run(d.activities, ActivitySteps(d.activities, concepts, studyNumber, remote), log)
  }

  /** The whole upload: the posted study activities are listed first, then every design is walked. */
  function Upload(version: Version, studyNumber: string, remote: Remote, log: seq<Req>): Walk<Req> {
    Run(version.studyDesigns, DesignSteps(version.biomedicalConcepts, studyNumber, remote), log + [ListPosted])
  }

  // ---------------------------------------------------------------------
  // The walk, as the source performs it

  method LinkToStudy(m: LibraryActivity, keys: GroupingKeys, log: seq<Req>) returns (log': seq<Req>, raised: Option<Failure>)
    ensures Walk(log', raised) == LinkMatched(m, keys, log)
  {
    if |m.groupings| == 0 {
      return log, Some(IndexError);
    }
    var grouping := m.groupings[0];
    log' := log + [LinkActivity(Get(grouping, keys.group), Get(grouping, keys.subgroup), m.uid)];
    raised := None;
  }

  /**
   * create_activity_if_not_exist as the two awaited calls the source makes
   * in turn; `CreateAndLinkActivity` calls it, and its ensures ties them to
   * `NewActivity`, which the specification functions use.
   */
  method CreateActivityIfNotExist(name: string, groupUid: Option<string>, subgroupUid: Option<string>,
                                  remote: Remote, log: seq<Req>)
    returns (log': seq<Req>, uid: Option<string>)
    ensures (log', uid) == NewActivity(name, groupUid, subgroupUid, remote, log)
  {
    log' := log + [CreateConcept(name, groupUid, subgroupUid)];
    uid := remote.concept(log');
    log' := log' + [ApproveConcept(uid)];
  }

  method CreateAndLinkActivity(groupName: string, activityName: string, remote: Remote, log: seq<Req>)
    returns (log': seq<Req>, raised: Option<Failure>)
    ensures Walk(log', raised) == Fallback(groupName, activityName, remote, log)
  {
    var groupId, subgroupId;
    log', groupId := GetOrCreateGroup(groupName, remote, log);
    if groupId.Err? {
      return log', Some(groupId.error);
    }
    log', subgroupId := GetOrCreateSubgroup(groupName, groupId.value, remote, log');
    if subgroupId.Err? {
      return log', Some(subgroupId.error);
    }
    var activityUid;
    log', activityUid := CreateActivityIfNotExist(activityName, groupId.value, subgroupId.value, remote, log');
    log' := log' + [LinkActivity(groupId.value, subgroupId.value, activityUid)];
    raised := None;
  }

  method LinkConceptStep(bcId: string, concepts: seq<BiomedicalConcept>, keys: GroupingKeys, remote: Remote, log: seq<Req>)
    returns (log': seq<Req>, raised: Option<Failure>)
    ensures Walk(log', raised) == LinkConcept(bcId, concepts, keys, remote, log)
  {
    var found := FirstWhere(concepts, HasConceptId(bcId), 0);
    if found.None? {
      return log, None;
    }
    var matched;
    log', matched := MatchSynonymToActivity(concepts[found.value].synonyms, remote, log);
    if matched.None? {
      return log', None;
    }
    log', raised := LinkToStudy(matched.value, keys, log');
  }

  /** A `for bc_id in bc_ids` loop. */
  method LinkConcepts(ids: seq<string>, concepts: seq<BiomedicalConcept>, keys: GroupingKeys, remote: Remote, log: seq<Req>)
    returns (log': seq<Req>, raised: Option<Failure>)
    ensures Walk(log', raised) == ConceptLinks(ids, concepts, keys, remote, log)
  {
    ghost var step := ConceptSteps(concepts, keys, remote);
    log' := log;
    var i := 0;
    while i < |ids|
      invariant 0 <= i <= |ids|
      invariant Run(ids[..i], step, log) == Walk(log', None)
    {
      RunNext(ids, step, log, i);
      log', raised := LinkConceptStep(ids[i], concepts, keys, remote, log');
      if raised.Some? {
        RunStopsAtError(ids, step, log, i + 1);
        return;
      }
      i := i + 1;
    }
    assert ids[..i] == ids;
    raised := None;
  }

  method LinkChildStep(childId: string, parent: Activity, activities: seq<Activity>, concepts: seq<BiomedicalConcept>,
                       remote: Remote, log: seq<Req>)
    returns (log': seq<Req>, raised: Option<Failure>)
    ensures Walk(log', raised) == LinkChild(childId, parent, activities, concepts, remote, log)
  {
    var found := FirstWhere(activities, HasActivityId(childId), 0);
    if found.None? {
      return log, None;
    }
    var child := activities[found.value];
    if NoConcepts(child.biomedicalConceptIds) {
      var matched;
      log', matched := SearchFrontendActivity(FirstNonEmpty(child.labelText, child.name, child.description), remote, log);
      if matched.Some? {
        log', raised := LinkToStudy(matched.value, ChildKeys, log');
      } else {
        log', raised := CreateAndLinkActivity(parent.description, parent.name, remote, log');
      }
    } else if parent.biomedicalConceptIds.None? {
      return log, Some(TypeError);
    } else {
      log', raised := LinkConcepts(parent.biomedicalConceptIds.value, concepts, ChildKeys, remote, log);
    }
  }

  /** The `for child_id in childIds` loop of a grouping activity. */
  method LinkChildren(parent: Activity, activities: seq<Activity>, concepts: seq<BiomedicalConcept>, remote: Remote, log: seq<Req>)
    returns (log': seq<Req>, raised: Option<Failure>)
    ensures Walk(log', raised) == Run(parent.childIds, ChildSteps(parent, activities, concepts, remote), log)
  {
    var ids := parent.childIds;
    ghost var step := ChildSteps(parent, activities, concepts, remote);
    log' := log;
    var i := 0;
    while i < |ids|
      invariant 0 <= i <= |ids|
      invariant Run(ids[..i], step, log) == Walk(log', None)
    {
      RunNext(ids, step, log, i);
      log', raised := LinkChildStep(ids[i], parent, activities, concepts, remote, log');
      if raised.Some? {
        RunStopsAtError(ids, step, log, i + 1);
        return;
      }
      i := i + 1;
    }
    assert ids[..i] == ids;
    raised := None;
  }

  method UploadActivityStep(act: Activity, activities: seq<Activity>, concepts: seq<BiomedicalConcept>,
                            studyNumber: string, remote: Remote, log: seq<Req>)
    returns (log': seq<Req>, raised: Option<Failure>)
    ensures Walk(log', raised) == UploadActivity(act, activities, concepts, studyNumber, remote, log)
  {
    if Contains(Lower(act.description), "grouping activity") {
      log', raised := LinkChildren(act, activities, concepts, remote, log);
    } else if NoConcepts(act.biomedicalConceptIds) {
      var matched;
      log', matched := SearchFrontendActivity(act.name, remote, log);
      if matched.Some? {
        log', raised := LinkToStudy(matched.value, ActivityKeys, log');
      } else {
        log', raised := CreateAndLinkActivity("TBD_" + studyNumber, act.name, remote, log');
      }
    } else {
      log', raised := LinkConcepts(act.biomedicalConceptIds.value, concepts, ActivityKeys, remote, log);
    }
  }

  /** The `for act in activities` loop of one design. */
  method UploadDesign(design: StudyDesign, concepts: seq<BiomedicalConcept>, studyNumber: string, remote: Remote, log: seq<Req>)
    returns (log': seq<Req>, raised: Option<Failure>)
    ensures Walk(log', raised) == DesignSteps(concepts, studyNumber, remote)(design, log)
  {
    var acts := design.activities;
    ghost var step := ActivitySteps(acts, concepts, studyNumber, remote);
    log' := log;
    var i := 0;
    while i < |acts|
      invariant 0 <= i <= |acts|
      invariant Run(acts[..i], step, log) == Walk(log', None)
    {
      RunNext(acts, step, log, i);
      ghost var before := log';
      log', raised := UploadActivityStep(acts[i], acts, concepts, studyNumber, remote, log');
      assert Walk(log', raised) == step(acts[i], before);
      if raised.Some? {
        RunStopsAtError(acts, step, log, i + 1);
        return;
      }
      i := i + 1;
    }
    assert acts[..i] == acts;
    raised := None;
  }

  /**
   * create_study_activity: list the posted study activities, then walk
   * every design; the first exception ends the upload.
   */
  method CreateStudyActivity(version: Version, studyNumber: string, remote: Remote, log: seq<Req>)
    returns (log': seq<Req>, raised: Option<Failure>)
    ensures Walk(log', raised) == Upload(version, studyNumber, remote, log)
  {
    var designs := version.studyDesigns;
    ghost var step := DesignSteps(version.biomedicalConcepts, studyNumber, remote);
    log' := log + [ListPosted];
    ghost var start := log';
    var i := 0;
    while i < |designs|
      invariant 0 <= i <= |designs|
      invariant Run(designs[..i], step, start) == Walk(log', None)
    {
      RunNext(designs, step, start, i);
      log', raised := UploadDesign(designs[i], version.biomedicalConcepts, studyNumber, remote, log');
      if raised.Some? {
        RunStopsAtError(designs, step, start, i + 1);
        return;
      }
      i := i + 1;
    }
    assert designs[..i] == designs;
    raised := None;
  }

  // ---------------------------------------------------------------------
  // Properties of the walk

  /** Any request but the listing of posted study activities, which the upload sends once, first. */
  function NoRelisting(): Req -> bool {
    (q: Req) => !q.ListPosted?
  }

  /** Only study-activity links. */
  function OnlyLink(): Req -> bool {
    (q: Req) => q.LinkActivity?
  }

  /** Only library listings and study-activity links. */
  function LookupOrLink(): Req -> bool {
    (q: Req) => q.ListLibrary? || q.LinkActivity?
  }

  lemma AppendsOne(log: seq<Req>, q: Req, allowed: Req -> bool)
    requires allowed(q)
    ensures Appends(log, log + [q], allowed)
  {
    assert (log + [q])[..|log|] == log;
  }

  lemma LookupOrLinkNoRelisting(before: seq<Req>, after: seq<Req>)
    requires Appends(before, after, LookupOrLink())
    ensures Appends(before, after, NoRelisting())
  {
    forall k | |before| <= k < |after| ensures NoRelisting()(after[k]) {
      assert LookupOrLink()(after[k]);
    }
  }

  lemma ReconcileAppends(level: Level, wanted: NamedItem -> bool, payload: GroupPayload, remote: Remote, log: seq<Req>)
    ensures Appends(log, Reconcile(level, wanted, payload, remote, log).log, NoRelisting())
  {
    var l1 := log + [ListGroups(level)];
    AppendsOne(log, ListGroups(level), NoRelisting());
    var l2 := l1 + [CreateGroup(level, payload)];
    AppendsOne(l1, CreateGroup(level, payload), NoRelisting());
    AppendsTransitive(log, l1, l2, NoRelisting());
    var answer := remote.posted(l2);
    AppendsOne(l2, ApproveGroup(level, answer.uid), NoRelisting());
    AppendsTransitive(log, l2, l2 + [ApproveGroup(level, answer.uid)], NoRelisting());
  }

  lemma LinkNewAppends(activityName: string, groupUid: Option<string>, subgroupUid: Option<string>, remote: Remote, log: seq<Req>)
    ensures Appends(log, LinkNew(activityName, groupUid, subgroupUid, remote, log).log, NoRelisting())
  {
    var all := NoRelisting();
    var l1 := log + [CreateConcept(activityName, groupUid, subgroupUid)];
    var uid := remote.concept(l1);
    var l2 := l1 + [ApproveConcept(uid)];
    AppendsOne(log, CreateConcept(activityName, groupUid, subgroupUid), all);
    AppendsOne(l1, ApproveConcept(uid), all);
    AppendsOne(l2, LinkActivity(groupUid, subgroupUid, uid), all);
    AppendsTransitive(log, l1, l2, all);
    AppendsTransitive(log, l2, l2 + [LinkActivity(groupUid, subgroupUid, uid)], all);
  }

  lemma CreateAndLinkAppends(wanted: NamedItem -> bool, payloadOf: (Level, Option<string>) -> GroupPayload,
                             activityName: string, remote: Remote, log: seq<Req>)
    ensures Appends(log, CreateAndLink(wanted, payloadOf, activityName, remote, log).log, NoRelisting())
  {
    var all := NoRelisting();
    var g := Reconcile(GroupLevel, wanted, payloadOf(GroupLevel, None), remote, log);
    ReconcileAppends(GroupLevel, wanted, payloadOf(GroupLevel, None), remote, log);
    if g.result.Ok? {
      var sp := payloadOf(SubgroupLevel, g.result.value);
      var s := Reconcile(SubgroupLevel, wanted, sp, remote, g.log);
      assert Appends(log, s.log, all) by {
        ReconcileAppends(SubgroupLevel, wanted, sp, remote, g.log);
        AppendsTransitive(log, g.log, s.log, all);
      }
      if s.result.Ok? {
        var w := LinkNew(activityName, g.result.value, s.result.value, remote, s.log);
        assert Appends(log, w.log, all) by {
          LinkNewAppends(activityName, g.result.value, s.result.value, remote, s.log);
          AppendsTransitive(log, s.log, w.log, all);
        }
      }
    }
  }

  lemma FallbackAppends(groupName: string, activityName: string, remote: Remote, log: seq<Req>)
    ensures Appends(log, Fallback(groupName, activityName, remote, log).log, NoRelisting())
  {
    CreateAndLinkAppends(HasName(TargetName(groupName)), PayloadsFor(TargetName(groupName), CleanName(groupName)),
                         activityName, remote, log);
  }

  lemma LinkMatchedAppends(m: LibraryActivity, keys: GroupingKeys, log: seq<Req>)
    ensures Appends(log, LinkMatched(m, keys, log).log, OnlyLink())
  {
    if m.groupings != [] {
      var g := m.groupings[0];
      AppendsOne(log, LinkActivity(Get(g, keys.group), Get(g, keys.subgroup), m.uid), OnlyLink());
    } else {
      assert log[..|log|] == log;
    }
  }

  lemma OnlyLinkLookupOrLink(before: seq<Req>, after: seq<Req>)
    requires Appends(before, after, OnlyLink())
    ensures Appends(before, after, LookupOrLink())
  {
    forall k | |before| <= k < |after| ensures LookupOrLink()(after[k]) {
      assert OnlyLink()(after[k]);
    }
  }

  /** Linking by biomedical concepts only lists the library and links: it never creates anything. */
  lemma ConceptLinksOnlyLookUpAndLink(ids: seq<string>, concepts: seq<BiomedicalConcept>, keys: GroupingKeys,
                                      remote: Remote, log: seq<Req>)
    ensures Appends(log, ConceptLinks(ids, concepts, keys, remote, log).log, LookupOrLink())
  {
    var step := ConceptSteps(concepts, keys, remote);
    forall bcId, l ensures Appends(l, step(bcId, l).log, LookupOrLink()) {
      var l1 := l + [ListLibrary];
      AppendsOne(l, ListLibrary, LookupOrLink());
      match FirstWhere(concepts, HasConceptId(bcId), 0)
      case None =>
        assert l[..|l|] == l;
      case Some(k) =>
        var m := MatchSynonym(concepts[k].synonyms, remote, l).1;
        if m.Some? {
          LinkMatchedAppends(m.value, keys, l1);
          OnlyLinkLookupOrLink(l1, LinkMatched(m.value, keys, l1).log);
          AppendsTransitive(l, l1, LinkMatched(m.value, keys, l1).log, LookupOrLink());
        }
    }
    RunAppends(ids, step, log, LookupOrLink());
  }

  lemma ActivityStepAppends(act: Activity, activities: seq<Activity>, concepts: seq<BiomedicalConcept>,
                            studyNumber: string, remote: Remote, log: seq<Req>)
    ensures Appends(log, UploadActivity(act, activities, concepts, studyNumber, remote, log).log, NoRelisting())
  {
    var all := NoRelisting();
    var l1 := log + [ListLibrary];
    AppendsOne(log, ListLibrary, all);
    if IsGrouping(act) {
      var step := ChildSteps(act, activities, concepts, remote);
      forall childId, l ensures Appends(l, step(childId, l).log, all) {
        ChildStepAppends(childId, act, activities, concepts, remote, l);
      }
      RunAppends(act.childIds, step, log, all);
    } else if NoConcepts(act.biomedicalConceptIds) {
      var m := Search(act.name, remote, log).1;
      if m.Some? {
        LinkMatchedAppends(m.value, ActivityKeys, l1);
        OnlyLinkLookupOrLink(l1, LinkMatched(m.value, ActivityKeys, l1).log);
        LookupOrLinkNoRelisting(l1, LinkMatched(m.value, ActivityKeys, l1).log);
        AppendsTransitive(log, l1, LinkMatched(m.value, ActivityKeys, l1).log, all);
      } else {
        FallbackAppends("TBD_" + studyNumber, act.name, remote, l1);
        AppendsTransitive(log, l1, Fallback("TBD_" + studyNumber, act.name, remote, l1).log, all);
      }
    } else {
      ConceptLinksOnlyLookUpAndLink(act.biomedicalConceptIds.value, concepts, ActivityKeys, remote, log);
      LookupOrLinkNoRelisting(log, ConceptLinks(act.biomedicalConceptIds.value, concepts, ActivityKeys, remote, log).log);
    }
  }

  lemma ChildStepAppends(childId: string, parent: Activity, activities: seq<Activity>, concepts: seq<BiomedicalConcept>,
                         remote: Remote, log: seq<Req>)
    ensures Appends(log, LinkChild(childId, parent, activities, concepts, remote, log).log, NoRelisting())
  {
    var all := NoRelisting();
    assert log[..|log|] == log;
    match FirstWhere(activities, HasActivityId(childId), 0)
    case None =>
    case Some(k) =>
      var child := activities[k];
      var l1 := log + [ListLibrary];
      AppendsOne(log, ListLibrary, all);
      if NoConcepts(child.biomedicalConceptIds) {
        var m := Search(FirstNonEmpty(child.labelText, child.name, child.description), remote, log).1;
        if m.Some? {
          LinkMatchedAppends(m.value, ChildKeys, l1);
          OnlyLinkLookupOrLink(l1, LinkMatched(m.value, ChildKeys, l1).log);
          LookupOrLinkNoRelisting(l1, LinkMatched(m.value, ChildKeys, l1).log);
          AppendsTransitive(log, l1, LinkMatched(m.value, ChildKeys, l1).log, all);
        } else {
          FallbackAppends(parent.description, parent.name, remote, l1);
          AppendsTransitive(log, l1, Fallback(parent.description, parent.name, remote, l1).log, all);
        }
      } else if parent.biomedicalConceptIds.Some? {
        ConceptLinksOnlyLookUpAndLink(parent.biomedicalConceptIds.value, concepts, ChildKeys, remote, log);
        LookupOrLinkNoRelisting(log, ConceptLinks(parent.biomedicalConceptIds.value, concepts, ChildKeys, remote, log).log);
      }
  }

  /** The upload only ever adds requests to the log, the first being the listing of posted study activities. */
  lemma UploadAppends(version: Version, studyNumber: string, remote: Remote, log: seq<Req>)
    ensures Appends(log + [ListPosted], Upload(version, studyNumber, remote, log).log, NoRelisting())
    ensures |Upload(version, studyNumber, remote, log).log| > |log|
    ensures Upload(version, studyNumber, remote, log).log[|log|] == ListPosted
  {
    var all := NoRelisting();
    var concepts := version.biomedicalConcepts;
    var step := DesignSteps(concepts, studyNumber, remote);
    forall d, l ensures Appends(l, step(d, l).log, all) {
      var inner := ActivitySteps(d.activities, concepts, studyNumber, remote);
      forall act, l' ensures Appends(l', inner(act, l').log, all) {
        ActivityStepAppends(act, d.activities, concepts, studyNumber, remote, l');
      }
      RunAppends(d.activities, inner, l, all);
    }
    var start := log + [ListPosted];
    RunAppends(version.studyDesigns, step, start, all);
    var after := Upload(version, studyNumber, remote, log).log;
    assert after[..|start|] == start;
    assert after[|log|] == start[|log|];
  }

  /** A child id no activity of the design carries is skipped without any request. */
  lemma UnknownChildSkipped(childId: string, parent: Activity, activities: seq<Activity>,
                            concepts: seq<BiomedicalConcept>, remote: Remote, log: seq<Req>)
    requires forall k :: 0 <= k < |activities| ==> activities[k].id != childId
    ensures LinkChild(childId, parent, activities, concepts, remote, log) == Walk(log, None)
  {
    FirstWhereSpec(activities, HasActivityId(childId), 0);
  }

  /**
   * A child that has biomedical concepts is linked through the concepts of
   * its PARENT, as the code iterates `bc_ids`: the child's own ids are never
   * read, and a parent without the field raises TypeError.
   */
  lemma ChildConceptsFromParent(childId: string, parent: Activity, activities: seq<Activity>,
                                concepts: seq<BiomedicalConcept>, remote: Remote, log: seq<Req>, k: nat)
    requires k < |activities| && activities[k].id == childId
    requires forall j :: 0 <= j < k ==> activities[j].id != childId
    requires !NoConcepts(activities[k].biomedicalConceptIds)
    ensures parent.biomedicalConceptIds.None? ==>
      LinkChild(childId, parent, activities, concepts, remote, log) == Walk(log, Some(TypeError))
    ensures parent.biomedicalConceptIds.Some? ==>
      LinkChild(childId, parent, activities, concepts, remote, log) ==
      ConceptLinks(parent.biomedicalConceptIds.value, concepts, ChildKeys, remote, log)
  {
    FirstWhereAt(activities, HasActivityId(childId), 0, k);
  }

  /**
   * A child without concepts is searched by its label, else name, else
   * description; when nothing is close enough, the fallback uses the
   * parent's description as the group name and the parent's name as the
   * activity name.
   */
  lemma ChildFallbackToParent(childId: string, parent: Activity, activities: seq<Activity>,
                              concepts: seq<BiomedicalConcept>, remote: Remote, log: seq<Req>, k: nat)
    requires k < |activities| && activities[k].id == childId
    requires forall j :: 0 <= j < k ==> activities[j].id != childId
    requires NoConcepts(activities[k].biomedicalConceptIds)
    requires var c := activities[k];
      Search(FirstNonEmpty(c.labelText, c.name, c.description), remote, log).1.None?
    ensures LinkChild(childId, parent, activities, concepts, remote, log) ==
      Fallback(parent.description, parent.name, remote, log + [ListLibrary])
  {
    FirstWhereAt(activities, HasActivityId(childId), 0, k);
  }

  /**
   * An ordinary activity without concepts whose name is found in the library
   * is linked through the first grouping of the library activity, read with
   * the keys `activity_group_uid` and `activity_subgroup_uid`; nothing is
   * created. A library activity without groupings raises IndexError.
   */
  lemma FoundActivityLinked(act: Activity, activities: seq<Activity>, concepts: seq<BiomedicalConcept>,
                            studyNumber: string, remote: Remote, log: seq<Req>)
    requires !IsGrouping(act) && NoConcepts(act.biomedicalConceptIds)
    requires Search(act.name, remote, log).1.Some?
    ensures var m := Search(act.name, remote, log).1.value;
      var w := UploadActivity(act, activities, concepts, studyNumber, remote, log);
      (m.groupings == [] ==> w == Walk(log + [ListLibrary], Some(IndexError))) &&
      (m.groupings != [] ==> w == Walk(log + [ListLibrary, LinkActivity(
        Get(m.groupings[0], "activity_group_uid"), Get(m.groupings[0], "activity_subgroup_uid"), m.uid)], None))
  {
    var m := Search(act.name, remote, log).1.value;
    if m.groupings != [] {
      var g := m.groupings[0];
      assert log + [ListLibrary] + [LinkActivity(Get(g, ActivityKeys.group), Get(g, ActivityKeys.subgroup), m.uid)] ==
        log + [ListLibrary, LinkActivity(Get(g, "activity_group_uid"), Get(g, "activity_subgroup_uid"), m.uid)];
    }
  }

  /**
   * An ordinary activity without concepts that the library does not know
   * falls back to the study's placeholder group, looked up and created under
   * `TBD_<study number>` in upper case.
   */
  lemma UnknownActivityUnderTbd(act: Activity, activities: seq<Activity>, concepts: seq<BiomedicalConcept>,
                                studyNumber: string, remote: Remote, log: seq<Req>)
    requires !IsGrouping(act) && NoConcepts(act.biomedicalConceptIds)
    requires Search(act.name, remote, log).1.None?
    ensures UploadActivity(act, activities, concepts, studyNumber, remote, log) ==
      CreateAndLink(HasName(Upper("TBD_" + studyNumber)), PayloadsFor(Upper("TBD_" + studyNumber), CleanName("TBD_" + studyNumber)),
                    act.name, remote, log + [ListLibrary])
  {
    TbdTarget(studyNumber);
  }

  /** When the group cannot be listed or created, the fallback raises before the subgroup is asked for. */
  lemma GroupFailureStopsFallback(wanted: NamedItem -> bool, payloadOf: (Level, Option<string>) -> GroupPayload,
                                  activityName: string, remote: Remote, log: seq<Req>)
    requires Reconcile(GroupLevel, wanted, payloadOf(GroupLevel, None), remote, log).result.Err?
    ensures var g := Reconcile(GroupLevel, wanted, payloadOf(GroupLevel, None), remote, log);
      CreateAndLink(wanted, payloadOf, activityName, remote, log) == Walk(g.log, Some(g.result.error))
  {
  }

  /**
   * When the group and the subgroup are both found by name (each lookup
   * leaves only its listing in the log, see ReconcileFound), nothing but the
   * activity concept is created: it is created in them and approved, and the
   * new activity is linked with their uids.
   */
  lemma FallbackReusesGroups(wanted: NamedItem -> bool, payloadOf: (Level, Option<string>) -> GroupPayload,
                             activityName: string, remote: Remote, log: seq<Req>,
                             groupUid: Option<string>, subgroupUid: Option<string>)
    requires Reconcile(GroupLevel, wanted, payloadOf(GroupLevel, None), remote, log) ==
      Outcome(log + [ListGroups(GroupLevel)], Ok(groupUid))
    requires Reconcile(SubgroupLevel, wanted, payloadOf(SubgroupLevel, groupUid), remote, log + [ListGroups(GroupLevel)]) ==
      Outcome(log + [ListGroups(GroupLevel), ListGroups(SubgroupLevel)], Ok(subgroupUid))
    ensures var listed := log + [ListGroups(GroupLevel), ListGroups(SubgroupLevel), CreateConcept(activityName, groupUid, subgroupUid)];
      var uid := remote.concept(listed);
      CreateAndLink(wanted, payloadOf, activityName, remote, log) ==
        Walk(listed + [ApproveConcept(uid), LinkActivity(groupUid, subgroupUid, uid)], None)
  {
    var l2 := log + [ListGroups(GroupLevel), ListGroups(SubgroupLevel)];
    assert l2 + [CreateConcept(activityName, groupUid, subgroupUid)] ==
      log + [ListGroups(GroupLevel), ListGroups(SubgroupLevel), CreateConcept(activityName, groupUid, subgroupUid)];
  }

  /** A concept id no biomedical concept carries is skipped without any request. */
  lemma UnknownConceptSkipped(bcId: string, concepts: seq<BiomedicalConcept>, keys: GroupingKeys, remote: Remote, log: seq<Req>)
    requires forall k :: 0 <= k < |concepts| ==> concepts[k].id != bcId
    ensures LinkConcept(bcId, concepts, keys, remote, log) == Walk(log, None)
  {
    FirstWhereSpec(concepts, HasConceptId(bcId), 0);
  }

  /**
   * A known concept is matched by its synonyms; without a match only the
   * library listing is made, with one the match is linked through its first
   * grouping.
   */
  lemma KnownConceptMatched(bcId: string, concepts: seq<BiomedicalConcept>, keys: GroupingKeys, remote: Remote,
                            log: seq<Req>, k: nat)
    requires k < |concepts| && concepts[k].id == bcId
    requires forall j :: 0 <= j < k ==> concepts[j].id != bcId
    ensures var m := MatchSynonym(concepts[k].synonyms, remote, log).1;
      var w := LinkConcept(bcId, concepts, keys, remote, log);
      (m.None? ==> w == Walk(log + [ListLibrary], None)) &&
      (m.Some? && m.value.groupings == [] ==> w == Walk(log + [ListLibrary], Some(IndexError))) &&
      (m.Some? && m.value.groupings != [] ==> w == Walk(log + [ListLibrary, LinkActivity(
        Get(m.value.groupings[0], keys.group), Get(m.value.groupings[0], keys.subgroup), m.value.uid)], None))
  {
    FirstWhereAt(concepts, HasConceptId(bcId), 0, k);
    var m := MatchSynonym(concepts[k].synonyms, remote, log).1;
    if m.Some? && m.value.groupings != [] {
      var g := m.value.groupings[0];
      assert log + [ListLibrary] + [LinkActivity(Get(g, keys.group), Get(g, keys.subgroup), m.value.uid)] ==
        log + [ListLibrary, LinkActivity(Get(g, keys.group), Get(g, keys.subgroup), m.value.uid)];
    }
  }
}
