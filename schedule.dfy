/**
 * The schedule of activities (epochs_visits_soa.py:437-478): for every
 * scheduled instance whose encounter received a visit uid, each activity id
 * of the instance is looked up by name among the study activities (case
 * insensitively) and a schedule create links the study activity to the
 * visit. A failing create is printed and skipped, so the issued requests do
 * not depend on the answers.
 */
module Schedule {
  import opened Common
  import opened Text
  import opened Timing

  /** An existing study activity of the study. */
  datatype StudyActivity = StudyActivity(studyActivityUid: string, activityName: string)

  /** An activity of the design, as listed in the USDM file. An absent or null name is "". */
  datatype DesignActivity = DesignActivity(id: string, name: string)

  /** The arguments of create_study_activity_schedule. */
  datatype EdgeRequest = CreateSchedule(studyActivityUid: string, studyVisitUid: string)

  /** The name of the first design activity with identifier `actId`, or "" without one. */
  function DesignName(design: seq<DesignActivity>, actId: string): string {
    if design == [] then ""
    else if design[0].id == actId then design[0].name
    else DesignName(design[1..], actId)
  }

  /** The design name is that of the first activity with the identifier. */
  lemma {:induction false} DesignNameFirst(design: seq<DesignActivity>, actId: string, k: nat)
    requires k < |design| && design[k].id == actId
    requires forall j :: 0 <= j < k ==> design[j].id != actId
    ensures DesignName(design, actId) == design[k].name
  {
    if k > 0 {
      assert forall j :: 0 <= j < k - 1 ==> design[1..][j] == design[j + 1];
      DesignNameFirst(design[1..], actId, k - 1);
    }
  }

  /** Without an activity of that identifier the name is "". */
  lemma {:induction false} DesignNameAbsent(design: seq<DesignActivity>, actId: string)
    requires forall k :: 0 <= k < |design| ==> design[k].id != actId
    ensures DesignName(design, actId) == ""
  {
    if design != [] {
      assert forall k :: 0 <= k < |design| - 1 ==> design[1..][k] == design[k + 1];
      DesignNameAbsent(design[1..], actId);
    }
  }

  /** The first study activity whose lower-cased name equals the lower-cased `name`. */
  function StudyActivityFor(activities: seq<StudyActivity>, name: string): Option<StudyActivity> {
    if activities == [] then None
    else if Lower(activities[0].activityName) == Lower(name) then Some(activities[0])
    else StudyActivityFor(activities[1..], name)
  }

  /** The lookup finds the first activity whose name matches up to case, and None only when none does. */
  lemma {:induction false} StudyActivityForSpec(activities: seq<StudyActivity>, name: string)
    ensures StudyActivityFor(activities, name).Some? ==>
      exists k :: 0 <= k < |activities| && activities[k] == StudyActivityFor(activities, name).value &&
        Lower(activities[k].activityName) == Lower(name) &&
        forall j :: 0 <= j < k ==> Lower(activities[j].activityName) != Lower(name)
    ensures StudyActivityFor(activities, name).None? <==>
      forall k :: 0 <= k < |activities| ==> Lower(activities[k].activityName) != Lower(name)
  {
    if activities != [] && Lower(activities[0].activityName) != Lower(name) {
      var tail := activities[1..];
      StudyActivityForSpec(tail, name);
      assert forall k :: 1 <= k < |activities| ==> activities[k] == tail[k - 1];
      if StudyActivityFor(tail, name).Some? {
        var k :| 0 <= k < |tail| && tail[k] == StudyActivityFor(tail, name).value &&
          Lower(tail[k].activityName) == Lower(name) &&
          forall j :: 0 <= j < k ==> Lower(tail[j].activityName) != Lower(name);
        assert activities[k + 1] == tail[k];
      }
    }
  }

  /** The creates for the first `n` activity ids of an instance whose encounter became visit `visitUid`. */
  function ActivityEdges(ids: seq<string>, visitUid: string, design: seq<DesignActivity>,
                         activities: seq<StudyActivity>): seq<EdgeRequest>
  {
    if ids == [] then []
    else
      var last := ids[|ids| - 1];
      var found := StudyActivityFor(activities, DesignName(design, last));
      ActivityEdges(ids[..|ids| - 1], visitUid, design, activities) +
        (if found.Some? then [CreateSchedule(found.value.studyActivityUid, visitUid)] else [])
  }

  /** The visit uid an instance's encounter received; "" when it has none (the instance is skipped). */
  function VisitUidOf(visitMap: map<string, string>, inst: Instance): string {
    if inst.encounterId in visitMap then visitMap[inst.encounterId] else ""
  }

  /** The creates of one instance. */
  function InstanceEdges(inst: Instance, visitMap: map<string, string>, design: seq<DesignActivity>,
                         activities: seq<StudyActivity>): seq<EdgeRequest>
  {
    var visitUid := VisitUidOf(visitMap, inst);
    if visitUid == "" then [] else ActivityEdges(inst.activityIds, visitUid, design, activities)
  }

  /** The creates of a list of instances, in order. */
  function Edges(instances: seq<Instance>, visitMap: map<string, string>, design: seq<DesignActivity>,
                 activities: seq<StudyActivity>): seq<EdgeRequest>
  {
    if instances == [] then []
    else
      Edges(instances[..|instances| - 1], visitMap, design, activities) +
        InstanceEdges(instances[|instances| - 1], visitMap, design, activities)
  }

  lemma ActivityEdgesExtend(ids: seq<string>, k: nat, visitUid: string, design: seq<DesignActivity>,
                            activities: seq<StudyActivity>)
    requires k < |ids|
    ensures ActivityEdges(ids[..k + 1], visitUid, design, activities) ==
      ActivityEdges(ids[..k], visitUid, design, activities) +
        (var found := StudyActivityFor(activities, DesignName(design, ids[k]));
         if found.Some? then [CreateSchedule(found.value.studyActivityUid, visitUid)] else [])
  {
    assert ids[..k + 1][..k] == ids[..k];
  }

  lemma EdgesExtend(instances: seq<Instance>, i: nat, visitMap: map<string, string>, design: seq<DesignActivity>,
                    activities: seq<StudyActivity>)
    requires i < |instances|
    ensures Edges(instances[..i + 1], visitMap, design, activities) ==
      Edges(instances[..i], visitMap, design, activities) + InstanceEdges(instances[i], visitMap, design, activities)
  {
    assert instances[..i + 1][..i] == instances[..i];
  }

  /**
   * epochs_visits_soa.py:447-477: the activity ids of one instance with
   * visit `visitId`, each linked when its design name matches a study
   * activity.
   */
  method LinkActivities(ids: seq<string>, visitId: string, design: seq<DesignActivity>,
                        activities: seq<StudyActivity>, log: seq<EdgeRequest>)
    returns (log': seq<EdgeRequest>)
    ensures log' == log + ActivityEdges(ids, visitId, design, activities)
  {
    log' := log;
    var k := 0;
    while k < |ids|
      invariant 0 <= k <= |ids|
      invariant log' == log + ActivityEdges(ids[..k], visitId, design, activities)
    {
      var name := DesignName(design, ids[k]);
      var activity := StudyActivityFor(activities, name);
      ActivityEdgesExtend(ids, k, visitId, design, activities);
      if activity.Some? {
        log' := log' + [CreateSchedule(activity.value.studyActivityUid, visitId)];
      }
      k := k + 1;
    }
    assert ids[..k] == ids;
  }

  /**
   * epochs_visits_soa.py:442-478: for every instance with a visit, one
   * schedule create per activity id whose design name matches a study
   * activity; ids without a match are skipped.
   */
  method CreateScheduleEdges(instances: seq<Instance>, visitMap: map<string, string>,
                             design: seq<DesignActivity>, activities: seq<StudyActivity>, log: seq<EdgeRequest>)
    returns (log': seq<EdgeRequest>)
    ensures log' == log + Edges(instances, visitMap, design, activities)
  {
    log' := log;
    var i := 0;
    while i < |instances|
      invariant 0 <= i <= |instances|
      invariant log' == log + Edges(instances[..i], visitMap, design, activities)
    {
      EdgesExtend(instances, i, visitMap, design, activities);
      var next := LinkInstance(instances[i], visitMap, design, activities, log');
      assert next == log + (Edges(instances[..i], visitMap, design, activities) +
        InstanceEdges(instances[i], visitMap, design, activities));
      log' := next;
      i := i + 1;
    }
    assert instances[..i] == instances;
  }

  /** The body of the instance loop: an instance without a visit is skipped. */
  method LinkInstance(inst: Instance, visitMap: map<string, string>, design: seq<DesignActivity>,
                      activities: seq<StudyActivity>, log: seq<EdgeRequest>)
    returns (log': seq<EdgeRequest>)
    ensures log' == log + InstanceEdges(inst, visitMap, design, activities)
  {
    var visitId := if inst.encounterId in visitMap then visitMap[inst.encounterId] else "";
    if visitId != "" {
      log' := LinkActivities(inst.activityIds, visitId, design, activities, log);
    } else {
      log' := log;
    }
  }

  /** Each create of an instance links a matching study activity to the instance's visit. */
  lemma {:induction false} ActivityEdgeSound(ids: seq<string>, visitUid: string, design: seq<DesignActivity>,
                                             activities: seq<StudyActivity>, r: EdgeRequest)
    requires r in ActivityEdges(ids, visitUid, design, activities)
    ensures r.studyVisitUid == visitUid
    ensures exists k :: (0 <= k < |ids| && StudyActivityFor(activities, DesignName(design, ids[k])).Some? &&
      r.studyActivityUid == StudyActivityFor(activities, DesignName(design, ids[k])).value.studyActivityUid)
  {
    var init := ids[..|ids| - 1];
    var found := StudyActivityFor(activities, DesignName(design, ids[|ids| - 1]));
    if r in ActivityEdges(init, visitUid, design, activities) {
      ActivityEdgeSound(init, visitUid, design, activities, r);
      var k :| 0 <= k < |init| && StudyActivityFor(activities, DesignName(design, init[k])).Some? &&
        r.studyActivityUid == StudyActivityFor(activities, DesignName(design, init[k])).value.studyActivityUid;
      assert ids[k] == init[k];
    }
  }

  /** Every matched activity id of an instance is linked to its visit. */
  lemma {:induction false} ActivityEdgeComplete(ids: seq<string>, visitUid: string, design: seq<DesignActivity>,
                                                activities: seq<StudyActivity>, k: nat)
    requires k < |ids| && StudyActivityFor(activities, DesignName(design, ids[k])).Some?
    ensures CreateSchedule(StudyActivityFor(activities, DesignName(design, ids[k])).value.studyActivityUid, visitUid)
      in ActivityEdges(ids, visitUid, design, activities)
  {
    var init := ids[..|ids| - 1];
    if k < |ids| - 1 {
      assert init[k] == ids[k];
      ActivityEdgeComplete(init, visitUid, design, activities, k);
    }
  }

  /**
   * Every schedule create comes from an instance whose encounter has a
   * visit uid, and links that visit to the study activity matched by one of
   * the instance's activity ids.
   */
  lemma {:induction false} EdgeSound(instances: seq<Instance>, visitMap: map<string, string>,
                                     design: seq<DesignActivity>, activities: seq<StudyActivity>, r: EdgeRequest)
    requires r in Edges(instances, visitMap, design, activities)
    ensures exists i :: (0 <= i < |instances| && VisitUidOf(visitMap, instances[i]) != "" &&
      r.studyVisitUid == VisitUidOf(visitMap, instances[i]) &&
      exists k :: (0 <= k < |instances[i].activityIds| &&
        StudyActivityFor(activities, DesignName(design, instances[i].activityIds[k])).Some? &&
        r.studyActivityUid ==
          StudyActivityFor(activities, DesignName(design, instances[i].activityIds[k])).value.studyActivityUid))
  {
    var n := |instances| - 1;
    var init := instances[..n];
    if r in Edges(init, visitMap, design, activities) {
      EdgeSound(init, visitMap, design, activities, r);
      var i :| 0 <= i < |init| && VisitUidOf(visitMap, init[i]) != "" &&
        r.studyVisitUid == VisitUidOf(visitMap, init[i]) &&
        exists k :: 0 <= k < |init[i].activityIds| &&
          StudyActivityFor(activities, DesignName(design, init[i].activityIds[k])).Some? &&
          r.studyActivityUid ==
            StudyActivityFor(activities, DesignName(design, init[i].activityIds[k])).value.studyActivityUid;
      assert instances[i] == init[i];
    } else {
      ActivityEdgeSound(instances[n].activityIds, VisitUidOf(visitMap, instances[n]), design, activities, r);
    }
  }

  /**
   * Every activity id of an instance with a visit uid whose design name
   * matches a study activity yields the create linking the two.
   */
  lemma {:induction false} EdgeComplete(instances: seq<Instance>, visitMap: map<string, string>,
                                        design: seq<DesignActivity>, activities: seq<StudyActivity>, i: nat, k: nat)
    requires i < |instances| && VisitUidOf(visitMap, instances[i]) != ""
    requires k < |instances[i].activityIds|
    requires StudyActivityFor(activities, DesignName(design, instances[i].activityIds[k])).Some?
    ensures CreateSchedule(
      StudyActivityFor(activities, DesignName(design, instances[i].activityIds[k])).value.studyActivityUid,
      VisitUidOf(visitMap, instances[i])) in Edges(instances, visitMap, design, activities)
  {
    var n := |instances| - 1;
    var init := instances[..n];
    if i < n {
      assert init[i] == instances[i];
      EdgeComplete(init, visitMap, design, activities, i, k);
    } else {
      ActivityEdgeComplete(instances[n].activityIds, VisitUidOf(visitMap, instances[n]), design, activities, k);
    }
  }
}
