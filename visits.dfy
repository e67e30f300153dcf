/**
 * Study visits and the schedule of activities (epochs_visits_soa.py:241-478):
 * the visit type read from the encounter lowLabel, the contact mode, the two
 * creation passes over the sorted encounters (time value 0 first, then all
 * others), the per-epoch milestone flag, and the schedule edges between a
 * created visit and the study activities named by its instance.
 */
module Visits {
  import opened Common
  import opened Text
  import opened Calls
  import opened Timing
  import opened VisitOrder

  // ---------------------------------------------------------------------
  // Visit type (epochs_visits_soa.py:303-324)

  /** The visit type uid for a lower-cased encounter lowLabel: the first keyword that occurs wins. */
  function VisitType(lowLabel: string): string {
    if Contains(lowLabel, "screening") then "CTTerm_000186"
    else if Contains(lowLabel, "pre-screening") then "CTTerm_000184"
    else if Contains(lowLabel, "follow up") || Contains(lowLabel, "follow-up") then "CTTerm_000182"
    else if Contains(lowLabel, "washout") || Contains(lowLabel, "wash out") then "CTTerm_000192"
    else if Contains(lowLabel, "treatment") then "CTTerm_000191"
    else if Contains(lowLabel, "pre-treatment") then "CTTerm_000181"
    else if Contains(lowLabel, "no-treatment") then "CTTerm_000194"
    else if Contains(lowLabel, "randomisation") then "CTTerm_000183"
    else if Contains(lowLabel, "run-in") || Contains(lowLabel, "check in") then "CTTerm_000188"
    else if Contains(lowLabel, "surgery") then "CTTerm_000189"
    else "CTTerm_000190"
  }

  /** Every keyword the chain tests. */
  predicate MentionsVisitKeyword(lowLabel: string) {
    Contains(lowLabel, "screening") || Contains(lowLabel, "pre-screening") || Contains(lowLabel, "follow up") ||
    Contains(lowLabel, "follow-up") || Contains(lowLabel, "washout") || Contains(lowLabel, "wash out") ||
    Contains(lowLabel, "treatment") || Contains(lowLabel, "pre-treatment") || Contains(lowLabel, "no-treatment") ||
    Contains(lowLabel, "randomisation") || Contains(lowLabel, "run-in") || Contains(lowLabel, "check in") ||
    Contains(lowLabel, "surgery")
  }

  lemma PreScreeningHasScreening()
    ensures Contains("pre-screening", "screening")
  {
    assert "pre-screening"[4..13] == "screening";
    ContainsAt("pre-screening", "screening", 4);
  }

  lemma PreTreatmentHasTreatment()
    ensures Contains("pre-treatment", "treatment")
  {
    assert "pre-treatment"[4..13] == "treatment";
    ContainsAt("pre-treatment", "treatment", 4);
  }

  lemma NoTreatmentHasTreatment()
    ensures Contains("no-treatment", "treatment")
  {
    assert "no-treatment"[3..12] == "treatment";
    ContainsAt("no-treatment", "treatment", 3);
  }

  /**
   * "pre-screening", "pre-treatment" and "no-treatment" contain a keyword
   * that an earlier branch looks for, so their types are never chosen.
   */
  lemma ShadowedVisitTypes(lowLabel: string)
    ensures VisitType(lowLabel) != "CTTerm_000184"
    ensures VisitType(lowLabel) != "CTTerm_000181"
    ensures VisitType(lowLabel) != "CTTerm_000194"
  {
    if Contains(lowLabel, "pre-screening") {
      PreScreeningHasScreening();
      ContainsTransitive(lowLabel, "pre-screening", "screening");
    }
    if Contains(lowLabel, "pre-treatment") {
      PreTreatmentHasTreatment();
      ContainsTransitive(lowLabel, "pre-treatment", "treatment");
    }
    if Contains(lowLabel, "no-treatment") {
      NoTreatmentHasTreatment();
      ContainsTransitive(lowLabel, "no-treatment", "treatment");
    }
  }

  /** The default type is chosen exactly when no keyword occurs. */
  lemma VisitTypeDefault(lowLabel: string)
    ensures VisitType(lowLabel) == "CTTerm_000190" <==> !MentionsVisitKeyword(lowLabel)
  {
  }

  /** A lowLabel mentioning "screening" is a screening visit, and only such a lowLabel is. */
  lemma ScreeningFirst(lowLabel: string)
    ensures VisitType(lowLabel) == "CTTerm_000186" <==> Contains(lowLabel, "screening")
  {
  }

  // ---------------------------------------------------------------------
  // Contact mode (epochs_visits_soa.py:91-104, 326-333)

  /** A term of the Visit Contact Mode code list. */
  datatype ContactTerm = ContactTerm(termUid: string, sponsorName: string)

  /** The two contact-mode decodes the uploader knows. */
  function PreferredContactName(decode: string): (r: Option<string>)
    ensures r.Some? <==> decode == "In person" || decode == "Telephone call"
  {
    if decode == "In person" then Some("On Site Visit")
    else if decode == "Telephone call" then Some("Phone Contact")
    else None
  }

  /** fetch_contact_mode_uid over the listed code-list terms (an unsuccessful listing lists none). */
  function FetchContactModeUid(decode: string, terms: seq<ContactTerm>): (r: Option<string>)
    ensures r.Some? ==>
      (PreferredContactName(decode).Some? &&
       exists k :: 0 <= k < |terms| && terms[k].sponsorName == PreferredContactName(decode).value &&
         terms[k].termUid == r.value &&
         forall j :: 0 <= j < k ==> terms[j].sponsorName != PreferredContactName(decode).value)
    ensures (PreferredContactName(decode).Some? &&
             exists k :: 0 <= k < |terms| && terms[k].sponsorName == PreferredContactName(decode).value)
      ==> r.Some?
  {
    match PreferredContactName(decode)
    case None => None
    case Some(name) =>
      if terms == [] then None
      else if terms[0].sponsorName == name then Some(terms[0].termUid)
      else FetchContactModeUid(decode, terms[1..])
  }

  /** The decode of the first contact mode, or "" without one. */
  function FirstDecode(enc: Encounter): string {
    if enc.contactModes == [] then "" else enc.contactModes[0]
  }

  /** The contact mode sent with a visit: the fetched term, or CTTerm_000082 when there is none. */
  function ContactModeUid(enc: Encounter, terms: seq<ContactTerm>): (uid: string)
    ensures uid == "CTTerm_000082" || FetchContactModeUid(FirstDecode(enc), terms) == Some(uid)
    ensures PreferredContactName(FirstDecode(enc)).None? ==> uid == "CTTerm_000082"
    ensures FetchContactModeUid(FirstDecode(enc), terms).Some? && FetchContactModeUid(FirstDecode(enc), terms).value != ""
      ==> uid == FetchContactModeUid(FirstDecode(enc), terms).value
    ensures FetchContactModeUid(FirstDecode(enc), terms).None? || FetchContactModeUid(FirstDecode(enc), terms).value == ""
      ==> uid == "CTTerm_000082"
  {
    match FetchContactModeUid(FirstDecode(enc), terms)
    case Some(u) => if u != "" then u else "CTTerm_000082"
    case None => "CTTerm_000082"
  }

  // ---------------------------------------------------------------------
  // The two passes (epochs_visits_soa.py:276-433)

  /** The arguments of create_study_structure_study_visit. */
  datatype VisitRequest = CreateVisit(
    epochUid: string,
    visitTypeUid: string,
    contactModeUid: string,
    timeValue: Option<int>,
    timeUnitUid: string,
    isGlobalAnchor: bool,
    description: string)

  /** What both passes read. */
  datatype VisitInputs = VisitInputs(
    instances: seq<Instance>,
    epochUids: map<string, string>,
    timing: map<string, Offset>,
    contactTerms: seq<ContactTerm>)

  /** The epoch of the first instance of the encounter, if any instance has it. */
  function FirstEpochOf(instances: seq<Instance>, encId: string): (r: Option<string>)
    ensures r.Some? ==> exists k :: 0 <= k < |instances| && instances[k].encounterId == encId && instances[k].epochId == r.value
    ensures r.None? ==> forall k :: 0 <= k < |instances| ==> instances[k].encounterId != encId
  {
    if instances == [] then None
    else if instances[0].encounterId == encId then Some(instances[0].epochId)
    else FirstEpochOf(instances[1..], encId)
  }

  /** The created epoch uid of the encounter's epoch; "" when there is none (the visit is skipped). */
  function EpochUidOf(inputs: VisitInputs, encId: string): string {
    match FirstEpochOf(inputs.instances, encId)
    case Some(ep) => if ep in inputs.epochUids then inputs.epochUids[ep] else ""
    case None => ""
  }

  function TimeOf(inputs: VisitInputs, encId: string): Option<Offset> {
    if encId in inputs.timing then Some(inputs.timing[encId]) else None
  }

  /** A week value is sent as days. */
  function Days(o: Offset): (d: int)
    ensures o.unit == Week ==> d == 7 * o.value
    ensures o.unit == Day ==> d == o.value
  {
    if o.unit == Week then o.value * 7 else o.value
  }

  /** The first pass takes the encounters whose time value is 0. */
  predicate InFirstPass(time: Option<Offset>) {
    time.Some? && time.value.value == 0
  }

  /** The create one pass issues for an encounter. */
  function VisitFor(inputs: VisitInputs, enc: Encounter, first: bool): VisitRequest {
    var time := TimeOf(inputs, enc.id);
    var days := if time.Some? then Some(Days(time.value)) else None;
    CreateVisit(
      EpochUidOf(inputs, enc.id),
      VisitType(Lower(enc.labelText)),
      ContactModeUid(enc, inputs.contactTerms),
      days,
      "UnitDefinition_000364",
      if first then time.Some? && time.value.value == 0 else days == Some(0),
      enc.description)
  }

  /** The encounter takes part in a pass: its epoch was created and its time fits the pass. */
  predicate Selected(inputs: VisitInputs, enc: Encounter, first: bool) {
    EpochUidOf(inputs, enc.id) != "" && InFirstPass(TimeOf(inputs, enc.id)) == first
  }

  /** The creates of one pass over the sorted pairs, keyed by encounter id. */
  function PassPlan(pairs: seq<Timed>, inputs: VisitInputs, first: bool): (p: seq<Planned<string, VisitRequest>>)
    ensures |p| <= |pairs|
  {
    if pairs == [] then []
    else
      var enc := pairs[0].enc;
      var rest := PassPlan(pairs[1..], inputs, first);
      if Selected(inputs, enc, first) then [Planned(enc.id, VisitFor(inputs, enc, first))] + rest else rest
  }

  lemma PassPlanStep(pairs: seq<Timed>, i: nat, inputs: VisitInputs, first: bool)
    requires i < |pairs|
    ensures PassPlan(pairs[i..], inputs, first) ==
      (if Selected(inputs, pairs[i].enc, first) then [Planned(pairs[i].enc.id, VisitFor(inputs, pairs[i].enc, first))] else [])
      + PassPlan(pairs[i + 1..], inputs, first)
  {
    assert pairs[i..][1..] == pairs[i + 1..];
  }

  /** `x` is the create of a pass for the selected encounter `enc`. */
  predicate PlannedFor(enc: Encounter, inputs: VisitInputs, first: bool, x: Planned<string, VisitRequest>) {
    Selected(inputs, enc, first) && x == Planned(enc.id, VisitFor(inputs, enc, first))
  }

  /** Every planned create is that of a selected pair. */
  lemma {:induction false} PassPlanSound(pairs: seq<Timed>, inputs: VisitInputs, first: bool, x: Planned<string, VisitRequest>)
    requires x in PassPlan(pairs, inputs, first)
    ensures exists j :: 0 <= j < |pairs| && PlannedFor(pairs[j].enc, inputs, first, x)
  {
    var enc := pairs[0].enc;
    if !PlannedFor(enc, inputs, first, x) {
      PassPlanSound(pairs[1..], inputs, first, x);
      var j :| 0 <= j < |pairs[1..]| && PlannedFor(pairs[1..][j].enc, inputs, first, x);
      assert pairs[1..][j] == pairs[j + 1];
    }
  }

  /** Every selected pair is planned in its pass. */
  lemma {:induction false} PassPlanComplete(pairs: seq<Timed>, inputs: VisitInputs, first: bool, j: nat)
    requires j < |pairs| && Selected(inputs, pairs[j].enc, first)
    ensures Planned(pairs[j].enc.id, VisitFor(inputs, pairs[j].enc, first)) in PassPlan(pairs, inputs, first)
  {
    if j > 0 {
      assert pairs[1..][j - 1] == pairs[j];
      PassPlanComplete(pairs[1..], inputs, first, j - 1);
      PassPlanStep(pairs, 0, inputs, first);
      assert pairs[0..] == pairs;
    }
  }

  /**
   * What a planned create sends: the first pass sends time 0 and marks the
   * global anchor, the second pass never does; weeks are sent as days and an
   * untimed encounter as None.
   */
  lemma VisitForValues(inputs: VisitInputs, enc: Encounter, first: bool)
    requires Selected(inputs, enc, first)
    ensures var r := VisitFor(inputs, enc, first);
      r.epochUid != "" &&
      (first ==> r.timeValue == Some(0) && r.isGlobalAnchor) &&
      (!first ==> r.timeValue != Some(0) && !r.isGlobalAnchor) &&
      (enc.id in inputs.timing ==> r.timeValue == Some(Days(inputs.timing[enc.id]))) &&
      (enc.id !in inputs.timing ==> r.timeValue == None)
  {
  }

  // ---------------------------------------------------------------------
  // The milestone flag (epochs_visits_soa.py:247, 335-336, 415-416)

  /** The epoch uids of a plan. */
  function EpochsOf(p: seq<Planned<string, VisitRequest>>): set<string> {
    if p == [] then {} else {p[0].req.epochUid} + EpochsOf(p[1..])
  }

  /** An epoch uid is collected iff some planned create carries it. */
  lemma {:induction false} EpochsOfMeaning(p: seq<Planned<string, VisitRequest>>, e: string)
    ensures e in EpochsOf(p) <==> exists k :: 0 <= k < |p| && p[k].req.epochUid == e
  {
    if p != [] {
      EpochsOfMeaning(p[1..], e);
      if e != p[0].req.epochUid && e in EpochsOf(p) {
        var k :| 0 <= k < |p[1..]| && p[1..][k].req.epochUid == e;
        assert p[k + 1] == p[1..][k];
      }
    }
  }

  /** `is_milestone` for each planned create, given the epochs already visited. */
  function Milestones(seen: set<string>, p: seq<Planned<string, VisitRequest>>): (r: seq<bool>)
    decreases |p|
    ensures |r| == |p|
  {
    if p == [] then []
    else [p[0].req.epochUid !in seen] + Milestones(seen + {p[0].req.epochUid}, p[1..])
  }

  /** A create is a milestone iff it is the first of its epoch uid. */
  lemma {:induction false} MilestonesMeaning(seen: set<string>, p: seq<Planned<string, VisitRequest>>, k: nat)
    requires k < |p|
    ensures Milestones(seen, p)[k] <==>
      p[k].req.epochUid !in seen && forall j :: 0 <= j < k ==> p[j].req.epochUid != p[k].req.epochUid
    decreases k
  {
    if k > 0 {
      MilestonesMeaning(seen + {p[0].req.epochUid}, p[1..], k - 1);
      assert forall j :: 0 <= j < k - 1 ==> p[1..][j] == p[j + 1];
    }
  }

  lemma {:induction false} MilestonesAppend(seen: set<string>, p: seq<Planned<string, VisitRequest>>,
                                            q: seq<Planned<string, VisitRequest>>)
    ensures Milestones(seen, p + q) == Milestones(seen, p) + Milestones(seen + EpochsOf(p), q)
    decreases |p|
  {
    if p == [] {
      assert p + q == q;
      assert seen + EpochsOf(p) == seen;
    } else {
      var e := p[0].req.epochUid;
      var b := e !in seen;
      var r := p[1..];
      var m1 := Milestones(seen + {e}, r);
      var m2 := Milestones(seen + {e} + EpochsOf(r), q);
      assert Milestones(seen, p + q) == [b] + Milestones(seen + {e}, r + q) by {
        assert (p + q)[0] == p[0] && (p + q)[1..] == r + q;
      }
      assert Milestones(seen + {e}, r + q) == m1 + m2 by {
        MilestonesAppend(seen + {e}, r, q);
      }
      assert seen + {e} + EpochsOf(r) == seen + EpochsOf(p);
      assert [b] + (m1 + m2) == ([b] + m1) + m2;
    }
  }

  // ---------------------------------------------------------------------
  // The creation loops

  /** Issuing the head of a plan: one step of each fold. */
  lemma PlanHead(x: Planned<string, VisitRequest>, rest: seq<Planned<string, VisitRequest>>,
                 m: map<string, string>, h: seq<VisitRequest>, seen: set<string>,
                 server: (seq<VisitRequest>, VisitRequest) -> Option<string>)
    ensures var answer := server(h, x.req);
      Record(m, h, [x] + rest, server) ==
      Record(if answer.Some? then m[x.key := answer.value] else m, h + [x.req], rest, server)
    ensures Reqs([x] + rest) == [x.req] + Reqs(rest)
    ensures EpochsOf([x] + rest) == {x.req.epochUid} + EpochsOf(rest)
    ensures Milestones(seen, [x] + rest)[0] <==> x.req.epochUid !in seen
    ensures Milestones(seen, [x] + rest)[1..] == Milestones(seen + {x.req.epochUid}, rest)
  {
    var q := [x] + rest;
    assert q[0] == x && q[1..] == rest;
  }

  /**
   * Issuing one create (epochs_visits_soa.py:335-351): the epoch's milestone
   * flag is read and cleared, the create is logged, and an answered uid is
   * stored under the encounter.
   */
  method IssueVisit(x: Planned<string, VisitRequest>, ghost rest: seq<Planned<string, VisitRequest>>,
                    server: (seq<VisitRequest>, VisitRequest) -> Option<string>,
                    log: seq<VisitRequest>, visitMap: map<string, string>, seen: set<string>, milestones: seq<bool>)
    returns (log': seq<VisitRequest>, visitMap': map<string, string>, seen': set<string>, milestones': seq<bool>)
    ensures log' + Reqs(rest) == log + Reqs([x] + rest)
    ensures Record(visitMap', log', rest, server) == Record(visitMap, log, [x] + rest, server)
    ensures seen' + EpochsOf(rest) == seen + EpochsOf([x] + rest)
    ensures milestones' + Milestones(seen', rest) == milestones + Milestones(seen, [x] + rest)
  {
    PlanHead(x, rest, visitMap, log, seen, server);
    var isMilestone := x.req.epochUid !in seen;
    seen' := seen + {x.req.epochUid};
    milestones' := milestones + [isMilestone];
    var answer := server(log, x.req);
    log' := log + [x.req];
    visitMap' := visitMap;
    if answer.Some? {
      visitMap' := visitMap[x.key := answer.value];
    }
    ghost var ms := Milestones(seen, [x] + rest);
    assert ms == [isMilestone] + Milestones(seen', rest) by {
      assert ms == [ms[0]] + ms[1..];
    }
    assert milestones' + Milestones(seen', rest) == milestones + ms;
  }

  /**
   * The create of a selected encounter, as the statements each pass's loop
   * runs for it (epochs_visits_soa.py:290-348 and 372-428); `VisitStep` calls
   * it, and its ensures ties those statements to `VisitFor`, which the pass
   * plans use.
   */
  method BuildVisit(inputs: VisitInputs, enc: Encounter, first: bool, epochUid: string, time: Option<Offset>)
    returns (req: VisitRequest)
    requires epochUid == EpochUidOf(inputs, enc.id) && time == TimeOf(inputs, enc.id)
    ensures req == VisitFor(inputs, enc, first)
  {
    var days: Option<int> := None;
    if time.Some? {
      days := if time.value.unit == Week then Some(time.value.value * 7) else Some(time.value.value);
    }
    var zero := time.Some? && time.value.value == 0;
    req := CreateVisit(epochUid, VisitType(Lower(enc.labelText)), ContactModeUid(enc, inputs.contactTerms),
                       days, "UnitDefinition_000364", if first then zero else days == Some(0), enc.description);
  }

  /**
   * The body of each pass's loop for pair `i`: an encounter whose epoch was
   * created and whose time fits the pass is issued; any other is skipped.
   */
  method VisitStep(pairs: seq<Timed>, i: nat, inputs: VisitInputs, first: bool,
                   server: (seq<VisitRequest>, VisitRequest) -> Option<string>,
                   log: seq<VisitRequest>, visitMap: map<string, string>, seen: set<string>, milestones: seq<bool>)
    returns (log': seq<VisitRequest>, visitMap': map<string, string>, seen': set<string>, milestones': seq<bool>)
    requires i < |pairs|
    ensures log' + Reqs(PassPlan(pairs[i + 1..], inputs, first)) == log + Reqs(PassPlan(pairs[i..], inputs, first))
    ensures Record(visitMap', log', PassPlan(pairs[i + 1..], inputs, first), server) ==
      Record(visitMap, log, PassPlan(pairs[i..], inputs, first), server)
    ensures seen' + EpochsOf(PassPlan(pairs[i + 1..], inputs, first)) == seen + EpochsOf(PassPlan(pairs[i..], inputs, first))
    ensures milestones' + Milestones(seen', PassPlan(pairs[i + 1..], inputs, first)) ==
      milestones + Milestones(seen, PassPlan(pairs[i..], inputs, first))
  {
    PassPlanStep(pairs, i, inputs, first);
    ghost var rest := PassPlan(pairs[i + 1..], inputs, first);
    var enc := pairs[i].enc;
    var epochUid := EpochUidOf(inputs, enc.id);
    var time := TimeOf(inputs, enc.id);
    var zero := time.Some? && time.value.value == 0;
    if epochUid != "" && (if first then zero else !zero) {
      var req := BuildVisit(inputs, enc, first, epochUid, time);
      assert PassPlan(pairs[i..], inputs, first) == [Planned(enc.id, req)] + rest;
      log', visitMap', seen', milestones' := IssueVisit(Planned(enc.id, req), rest, server, log, visitMap, seen, milestones);
    } else {
      assert PassPlan(pairs[i..], inputs, first) == rest;
      log', visitMap', seen', milestones' := log, visitMap, seen, milestones;
    }
  }

  /**
   * One pass over the sorted pairs (epochs_visits_soa.py:276-353 with
   * `first`, 355-433 without): a create for each selected encounter, the
   * milestone flag of its epoch, and the answered uid stored under the
   * encounter. `server` answers a create with its uid, or None when the
   * call raises (the error is printed and the pass goes on).
   */
  method VisitPass(pairs: seq<Timed>, inputs: VisitInputs, first: bool,
                   server: (seq<VisitRequest>, VisitRequest) -> Option<string>,
                   log: seq<VisitRequest>, visitMap: map<string, string>, seen: set<string>)
    returns (log': seq<VisitRequest>, visitMap': map<string, string>, seen': set<string>, milestones: seq<bool>)
    ensures log' == log + Reqs(PassPlan(pairs, inputs, first))
    ensures visitMap' == Record(visitMap, log, PassPlan(pairs, inputs, first), server)
    ensures seen' == seen + EpochsOf(PassPlan(pairs, inputs, first))
    ensures milestones == Milestones(seen, PassPlan(pairs, inputs, first))
  {
    log', visitMap', seen', milestones := log, visitMap, seen, [];
    ghost var plan := PassPlan(pairs, inputs, first);
    var i := 0;
    assert pairs[i..] == pairs;
    while i < |pairs|
      invariant 0 <= i <= |pairs|
      invariant log' + Reqs(PassPlan(pairs[i..], inputs, first)) == log + Reqs(plan)
      invariant Record(visitMap', log', PassPlan(pairs[i..], inputs, first), server) == Record(visitMap, log, plan, server)
      invariant seen' + EpochsOf(PassPlan(pairs[i..], inputs, first)) == seen + EpochsOf(plan)
      invariant milestones + Milestones(seen', PassPlan(pairs[i..], inputs, first)) == Milestones(seen, plan)
    {
      log', visitMap', seen', milestones := VisitStep(pairs, i, inputs, first, server, log', visitMap', seen', milestones);
      i := i + 1;
    }
    assert pairs[i..] == [];
  }

  /** Both passes, one after the other, over the encounters sorted by time value. */
  function VisitPlan(encounters: seq<Encounter>, inputs: VisitInputs): seq<Planned<string, VisitRequest>> {
    var pairs := SortByTime(Pairs(encounters, inputs.timing));
    PassPlan(pairs, inputs, true) + PassPlan(pairs, inputs, false)
  }

  /**
   * epochs_visits_soa.py:264-433: sort, then the two passes sharing the
   * milestone flags and the encounter-to-visit map.
   */
  method CreateVisits(encounters: seq<Encounter>, inputs: VisitInputs,
                      server: (seq<VisitRequest>, VisitRequest) -> Option<string>, log: seq<VisitRequest>)
    returns (log': seq<VisitRequest>, visitMap: map<string, string>, milestones: seq<bool>)
    ensures log' == log + Reqs(VisitPlan(encounters, inputs))
    ensures visitMap == Record(map[], log, VisitPlan(encounters, inputs), server)
    ensures milestones == Milestones({}, VisitPlan(encounters, inputs))
  {
    var pairs := SortByTime(Pairs(encounters, inputs.timing));
    var seen: set<string>;
    var more: seq<bool>;
    log', visitMap, seen, milestones := VisitPass(pairs, inputs, true, server, log, map[], {});
    ghost var p1 := PassPlan(pairs, inputs, true);
    ghost var p2 := PassPlan(pairs, inputs, false);
    RecordThen(map[], log, p1, p2, server, visitMap, log');
    MilestonesAppend({}, p1, p2);
    log', visitMap, seen, more := VisitPass(pairs, inputs, false, server, log', visitMap, seen);
    milestones := milestones + more;
  }

  /** Every visit sent with time 0 is created before every other visit, and only those are global anchors. */
  lemma ZeroVisitsFirst(encounters: seq<Encounter>, inputs: VisitInputs, k: nat, l: nat)
    requires k < l < |VisitPlan(encounters, inputs)|
    ensures var p := VisitPlan(encounters, inputs);
      (p[l].req.timeValue == Some(0) ==> p[k].req.timeValue == Some(0)) &&
      (p[k].req.isGlobalAnchor <==> p[k].req.timeValue == Some(0))
  {
    var pairs := SortByTime(Pairs(encounters, inputs.timing));
    var p1 := PassPlan(pairs, inputs, true);
    var p2 := PassPlan(pairs, inputs, false);
    var p := p1 + p2;
    forall m | 0 <= m < |p| ensures (p[m].req.timeValue == Some(0)) == (m < |p1|) == p[m].req.isGlobalAnchor {
      var first := m < |p1|;
      var x := if first then p1[m] else p2[m - |p1|];
      assert p[m] == x;
      PassPlanSound(pairs, inputs, first, x);
      var j :| 0 <= j < |pairs| && PlannedFor(pairs[j].enc, inputs, first, x);
      VisitForValues(inputs, pairs[j].enc, first);
    }
  }

  /** An untimed encounter whose epoch was created reaches the second pass, sent with time None. */
  lemma UntimedInSecondPass(encounters: seq<Encounter>, inputs: VisitInputs, e: Encounter)
    requires e in encounters && e.id !in inputs.timing && EpochUidOf(inputs, e.id) != ""
    ensures Planned(e.id, VisitFor(inputs, e, false)) in VisitPlan(encounters, inputs)
    ensures VisitFor(inputs, e, false).timeValue == None
  {
    var base := Pairs(encounters, inputs.timing);
    var pairs := SortByTime(base);
    var i :| 0 <= i < |encounters| && encounters[i] == e;
    assert base[i] == Timed(None, e);
    assert Timed(None, e) in multiset(pairs);
    var j :| 0 <= j < |pairs| && pairs[j] == Timed(None, e);
    PassPlanComplete(pairs, inputs, false, j);
  }
}
