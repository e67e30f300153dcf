/**
 * Find-or-create of activity groups and subgroups and the two library
 * searches of activities.py. Every remote call is a request appended to one
 * log; the remote side answers each request from the log up to and
 * including it, so a group created earlier in the run can be listed by a
 * later lookup.
 */
module Activities {
  import opened Common
  import opened Text
  import opened Steps

  // ---------------------------------------------------------------------
  // Remote side

  datatype Level = GroupLevel | SubgroupLevel

  /** The body of an activity group or subgroup create. */
  datatype GroupPayload = GroupPayload(
    name: string,
    nameSentenceCase: string,
    definition: string,
    abbreviation: string,
    libraryName: string,
    activityGroups: seq<Option<string>>)  // only subgroups list their group

  /** A listed group or subgroup; a missing uid is None. */
  datatype NamedItem = NamedItem(name: string, uid: Option<string>)

  /** A library activity; each of its groupings maps field names to uids. */
  datatype LibraryActivity = LibraryActivity(name: string, uid: Option<string>, groupings: seq<map<string, string>>)

  datatype Listing<T> = Listing(status: int, items: seq<T>)

  /** The answer to a create: its status and the uid of the body, if any. */
  datatype Posted = Posted(status: int, uid: Option<string>)

  /** The remote calls of the activity upload, in the order they are made. */
  datatype Req =
    | ListPosted                                   // GET studies/{uid}/study-activities
    | ListLibrary                                  // GET concepts/activities/activities
    | ListGroups(level: Level)                     // GET activity-groups / activity-sub-groups
    | CreateGroup(level: Level, payload: GroupPayload)
    | ApproveGroup(level: Level, uid: Option<string>)
    | CreateConcept(name: string, groupUid: Option<string>, subgroupUid: Option<string>)
    | ApproveConcept(uid: Option<string>)
    | LinkActivity(groupUid: Option<string>, subgroupUid: Option<string>, activityUid: Option<string>)

  /**
   * The answers of the remote side to the log so far, and difflib's
   * get_close_matches(word, candidates, n=1, cutoff=0.6) as an oracle.
   */
  datatype Remote = Remote(
    library: seq<Req> -> Listing<LibraryActivity>,
    groups: seq<Req> -> Listing<NamedItem>,
    posted: seq<Req> -> Posted,
    concept: seq<Req> -> Option<string>,
    close: (string, set<string>) -> Option<string>)

  /** get_close_matches only ever returns one of the candidates. */
  ghost predicate ReturnsCandidate(close: (string, set<string>) -> Option<string>) {
    forall w, c :: close(w, c).Some? ==> close(w, c).value in c
  }

  /** What a step leaves behind: the log and its value or the exception it raises. */
  datatype Outcome<T> = Outcome(log: seq<Req>, result: Result<T>)

  // ---------------------------------------------------------------------
  // Names (activities.py:45-46, 106-107) and payloads (62-68, 124-131)

  /** `name.lower().replace("grouping activity", "").strip()`. */
  function CleanName(name: string): string {
    Strip(RemoveAll(Lower(name), "grouping activity"))
  }

  /** The name a group is looked up and created under. */
  function TargetName(name: string): string {
    var clean := CleanName(name);
    if StartsWith(clean, "tbd") then Upper(name) else clean
  }

  /** The comparison key of the lookup: `.lower().strip()`. */
  function Normal(s: string): string {
    Strip(Lower(s))
  }

  /** The create body of a group or subgroup with the given target and clean names. */
  function Payload(level: Level, target: string, clean: string, groupUid: Option<string>): GroupPayload {
    GroupPayload(
      target,
      Lower(clean),
      (if level == GroupLevel then "Auto-generated group for " else "Auto-generated subgroup for ") + clean,
      Upper(Take(clean, 3)),
      "Requested",
      if level == GroupLevel then [] else [groupUid])
  }

  /** The clean name is lower-case and has no surrounding white space. */
  lemma CleanNameShape(name: string)
    ensures NoUpper(CleanName(name))
    ensures Strip(CleanName(name)) == CleanName(name)
  {
    var removed := RemoveAll(Lower(name), "grouping activity");
    RemoveAllNoUpper(Lower(name), "grouping activity");
    StripNoUpper(removed);
    StripIdempotent(removed);
  }

  /**
   * The payload: the sentence-case name is the clean name itself, the
   * abbreviation is its first three letters in upper case, and a subgroup
   * lists the uid of its group.
   */
  lemma PayloadShape(level: Level, name: string, groupUid: Option<string>)
    ensures var p := Payload(level, TargetName(name), CleanName(name), groupUid);
      p.name == TargetName(name) &&
      p.nameSentenceCase == CleanName(name) &&
      |p.abbreviation| <= 3 && Lower(p.abbreviation) == Take(CleanName(name), 3) &&
      p.libraryName == "Requested" &&
      (level == SubgroupLevel ==> p.activityGroups == [groupUid])
  {
    CleanNameShape(name);
    AbbreviationShape(CleanName(name));
  }

  /** Of a lower-case text: its lower-case form is itself, and its abbreviation lower-cases back to its first three letters. */
  lemma AbbreviationShape(clean: string)
    requires NoUpper(clean)
    ensures Lower(clean) == clean
    ensures |Upper(Take(clean, 3))| <= 3 && Lower(Upper(Take(clean, 3))) == Take(clean, 3)
  {
    LowerNoUpper(clean);
    var t := Take(clean, 3);
    LowerOfUpper(t);
    assert NoUpper(t) by {
      assert forall i :: 0 <= i < |t| ==> t[i] == clean[i];
    }
    LowerNoUpper(t);
  }

  /**
   * The lookup key of the target: the lower-cased, stripped original for a
   * `tbd` name, the clean name otherwise.
   */
  lemma NormalTarget(name: string)
    ensures Normal(TargetName(name)) ==
      if StartsWith(CleanName(name), "tbd") then Normal(name) else CleanName(name)
  {
    CleanNameShape(name);
    LowerNoUpper(CleanName(name));
    LowerOfUpper(name);
  }

  /** The placeholder group of a study, `TBD_{study_number}`, is created under its upper-cased name. */
  lemma TbdTarget(studyNumber: string)
    ensures TargetName("TBD_" + studyNumber) == Upper("TBD_" + studyNumber)
  {
    TbdRemoved(studyNumber);
    TbdKept(RemoveAll(Lower("TBD_" + studyNumber), "grouping activity"));
  }

  /** Removing "grouping activity" from a lower-cased "TBD_" name keeps its "tbd_" head. */
  lemma TbdRemoved(studyNumber: string)
    ensures var r := RemoveAll(Lower("TBD_" + studyNumber), "grouping activity");
      |r| >= 4 && r[..4] == "tbd_"
  {
    LowerConcat("TBD_", studyNumber);
    assert Lower("TBD_") == "tbd_";
    RemoveAllPrefix("tbd_", Lower(studyNumber), "grouping activity");
  }

  /** Stripping keeps a "tbd_" head, so the clean name starts with "tbd". */
  lemma TbdKept(removed: string)
    requires |removed| >= 4 && removed[..4] == "tbd_"
    ensures StartsWith(Strip(removed), "tbd")
  {
    StripKeepsHead(removed, 4);
    assert removed[..4][..3] == "tbd";
  }

  // ---------------------------------------------------------------------
  // get_or_create_group / get_or_create_subgroup (activities.py:44-88, 105-151)

  /** Whether a listed group has the name of `target`, compared lower-cased and stripped. */
  function HasName(target: string): NamedItem -> bool {
    (item: NamedItem) => Normal(item.name) == Normal(target)
  }

  /**
   * What get_or_create_group and get_or_create_subgroup do once the name
   * test and the create payload are known: list the groups (a failure
   * raises), return the uid of the first one the test accepts, and
   * otherwise create the payload (422 gives None, another failure raises)
   * and approve it, whatever the approval answers.
   */
  function Reconcile(level: Level, wanted: NamedItem -> bool, payload: GroupPayload, remote: Remote, log: seq<Req>)
    : Outcome<Option<string>>
  {
    var l1 := log + [ListGroups(level)];
    var listing := remote.groups(l1);
    if !IsSuccess(listing.status) then Outcome(l1, Err(HttpStatus(listing.status)))
    else
      match FirstWhere(listing.items, wanted, 0)
      case Some(k) => Outcome(l1, Ok(listing.items[k].uid))
      case None =>
        var l2 := l1 + [CreateGroup(level, payload)];
        var answer := remote.posted(l2);
        if answer.status == 422 then Outcome(l2, Ok(None))
        else if !IsSuccess(answer.status) then Outcome(l2, Err(HttpStatus(answer.status)))
        else Outcome(l2 + [ApproveGroup(level, answer.uid)], Ok(answer.uid))
  }

  /** The lookup loop with its for-else create, shared by both levels. */
  method GetOrCreate(level: Level, target: string, payload: GroupPayload, remote: Remote, log: seq<Req>)
    returns (log': seq<Req>, r: Result<Option<string>>)
    ensures Outcome(log', r) == Reconcile(level, HasName(target), payload, remote, log)
  {
    log' := log + [ListGroups(level)];
    var listing := remote.groups(log');
    if !IsSuccess(listing.status) {
      return log', Err(HttpStatus(listing.status));
    }
    var items := listing.items;
    var k := 0;
    while k < |items|
      invariant 0 <= k <= |items|
      invariant FirstWhere(items, HasName(target), 0) == FirstWhere(items, HasName(target), k)
    {
      if Normal(items[k].name) == Normal(target) {
        return log', Ok(items[k].uid);
      }
      k := k + 1;
    }
    log' := log' + [CreateGroup(level, payload)];
    var answer := remote.posted(log');
    if answer.status == 422 {
      return log', Ok(None);
    }
    if !IsSuccess(answer.status) {
      return log', Err(HttpStatus(answer.status));
    }
    log' := log' + [ApproveGroup(level, answer.uid)];
    r := Ok(answer.uid);
  }

  /** get_or_create_group (activities.py:44-88). */
  method GetOrCreateGroup(groupName: string, remote: Remote, log: seq<Req>)
    returns (log': seq<Req>, r: Result<Option<string>>)
    ensures Outcome(log', r) ==
      Reconcile(GroupLevel, HasName(TargetName(groupName)), Payload(GroupLevel, TargetName(groupName), CleanName(groupName), None), remote, log)
  {
    var clean := CleanName(groupName);
    var target := TargetName(groupName);
    log', r := GetOrCreate(GroupLevel, target, Payload(GroupLevel, target, clean, None), remote, log);
  }

  /** get_or_create_subgroup (activities.py:105-151). */
  method GetOrCreateSubgroup(subgroupName: string, groupUid: Option<string>, remote: Remote, log: seq<Req>)
    returns (log': seq<Req>, r: Result<Option<string>>)
    ensures Outcome(log', r) ==
      Reconcile(SubgroupLevel, HasName(TargetName(subgroupName)),
                Payload(SubgroupLevel, TargetName(subgroupName), CleanName(subgroupName), groupUid), remote, log)
  {
    var clean := CleanName(subgroupName);
    var target := TargetName(subgroupName);
    log', r := GetOrCreate(SubgroupLevel, target, Payload(SubgroupLevel, target, clean, groupUid), remote, log);
  }

  /** An existing group named like the target: the uid of the first such, and no create. */
  lemma ReconcileFound(level: Level, target: string, payload: GroupPayload, remote: Remote, log: seq<Req>, k: nat)
    requires var listing := remote.groups(log + [ListGroups(level)]);
      IsSuccess(listing.status) && k < |listing.items| &&
      Normal(listing.items[k].name) == Normal(target) &&
      forall j :: 0 <= j < k ==> Normal(listing.items[j].name) != Normal(target)
    ensures Reconcile(level, HasName(target), payload, remote, log) ==
      Outcome(log + [ListGroups(level)], Ok(remote.groups(log + [ListGroups(level)]).items[k].uid))
  {
    var items := remote.groups(log + [ListGroups(level)]).items;
    forall j | 0 <= j < k
      ensures !HasName(target)(items[j])
    {
    }
    FirstWhereAt(items, HasName(target), 0, k);
  }

  /**
   * No listed group is named like the target: the payload is created; 422
   * gives None, another failure raises, a success is approved and its uid
   * returned.
   */
  lemma ReconcileMissed(level: Level, target: string, payload: GroupPayload, remote: Remote, log: seq<Req>)
    requires var listing := remote.groups(log + [ListGroups(level)]);
      IsSuccess(listing.status) &&
      forall j :: 0 <= j < |listing.items| ==> Normal(listing.items[j].name) != Normal(target)
    ensures var l2 := log + [ListGroups(level), CreateGroup(level, payload)];
      var answer := remote.posted(l2);
      var o := Reconcile(level, HasName(target), payload, remote, log);
      (answer.status == 422 ==> o == Outcome(l2, Ok(None))) &&
      (answer.status != 422 && !IsSuccess(answer.status) ==> o == Outcome(l2, Err(HttpStatus(answer.status)))) &&
      (IsSuccess(answer.status) ==> o == Outcome(l2 + [ApproveGroup(level, answer.uid)], Ok(answer.uid)))
  {
    var listing := remote.groups(log + [ListGroups(level)]);
    FirstWhereSpec(listing.items, HasName(target), 0);
    assert log + [ListGroups(level)] + [CreateGroup(level, payload)] == log + [ListGroups(level), CreateGroup(level, payload)];
  }

  /** A failed listing raises before anything is created. */
  lemma ReconcileListingFails(level: Level, target: string, payload: GroupPayload, remote: Remote, log: seq<Req>)
    requires !IsSuccess(remote.groups(log + [ListGroups(level)]).status)
    ensures Reconcile(level, HasName(target), payload, remote, log) ==
      Outcome(log + [ListGroups(level)], Err(HttpStatus(remote.groups(log + [ListGroups(level)]).status)))
  {
  }

  // ---------------------------------------------------------------------
  // search_frontend_activity (activities.py:26-41)

  /** The lower-cased names of the listed items, the candidates of the close match. */
  function LowerNames(items: seq<LibraryActivity>): set<string> {
    set k | 0 <= k < |items| :: Lower(items[k].name)
  }

  /** The first item whose lower-cased name is `m`. */
  function FirstWithLowerName(items: seq<LibraryActivity>, m: string): Option<LibraryActivity> {
    if items == [] then None
    else if Lower(items[0].name) == m then Some(items[0])
    else FirstWithLowerName(items[1..], m)
  }

  lemma LowerNamesCons(items: seq<LibraryActivity>)
    requires items != []
    ensures LowerNames(items) == {Lower(items[0].name)} + LowerNames(items[1..])
  {
    var tail := items[1..];
    forall x | x in LowerNames(items) ensures x in {Lower(items[0].name)} + LowerNames(tail) {
      var k :| 0 <= k < |items| && x == Lower(items[k].name);
      if k > 0 {
        assert x == Lower(tail[k - 1].name);
      }
    }
    forall x | x in LowerNames(tail) ensures x in LowerNames(items) {
      var k :| 0 <= k < |tail| && x == Lower(tail[k].name);
      assert items[k + 1] == tail[k];
    }
  }

  lemma {:induction false} FirstWithLowerNameSpec(items: seq<LibraryActivity>, m: string)
    ensures FirstWithLowerName(items, m).Some? ==>
      exists k :: 0 <= k < |items| && items[k] == FirstWithLowerName(items, m).value && Lower(items[k].name) == m &&
        forall j :: 0 <= j < k ==> Lower(items[j].name) != m
    ensures FirstWithLowerName(items, m).None? <==> m !in LowerNames(items)
  {
    if items != [] {
      var tail := items[1..];
      FirstWithLowerNameSpec(tail, m);
      assert forall k :: 0 <= k < |tail| ==> tail[k] == items[k + 1];
      LowerNamesCons(items);
      if Lower(items[0].name) != m && FirstWithLowerName(tail, m).Some? {
        var k :| 0 <= k < |tail| && tail[k] == FirstWithLowerName(tail, m).value && Lower(tail[k].name) == m &&
          forall j :: 0 <= j < k ==> Lower(tail[j].name) != m;
        assert items[k + 1] == tail[k];
      }
    }
  }

  /** The listing request, and the library item found by close match of the name. */
  function Search(name: string, remote: Remote, log: seq<Req>): (seq<Req>, Option<LibraryActivity>) {
    var l := log + [ListLibrary];
    var listing := remote.library(l);
    if listing.status != 200 then (l, None)
    else
      match remote.close(Lower(name), LowerNames(listing.items))
      case None => (l, None)
      case Some(m) => (l, FirstWithLowerName(listing.items, m))
  }

  method SearchFrontendActivity(name: string, remote: Remote, log: seq<Req>)
    returns (log': seq<Req>, r: Option<LibraryActivity>)
    ensures (log', r) == Search(name, remote, log)
  {
    log' := log + [ListLibrary];
    var listing := remote.library(log');
    if listing.status != 200 {
      return log', None;
    }
    var items := listing.items;
    var names := set k | 0 <= k < |items| :: Lower(items[k].name);
    var found := remote.close(Lower(name), names);
    if found.None? {
      return log', None;
    }
    var m := found.value;
    var k := 0;
    while k < |items|
      invariant 0 <= k <= |items|
      invariant FirstWithLowerName(items, m) == FirstWithLowerName(items[k..], m)
    {
      assert items[k..][1..] == items[k + 1..];
      if Lower(items[k].name) == m {
        return log', Some(items[k]);
      }
      k := k + 1;
    }
    r := None;
  }

  /**
   * The search finds nothing exactly when the listing fails or no name is
   * close enough; otherwise it returns the first item whose lower-cased
   * name is the best close match.
   */
  lemma SearchMeaning(name: string, remote: Remote, log: seq<Req>)
    requires ReturnsCandidate(remote.close)
    ensures var listing := remote.library(log + [ListLibrary]);
      var best := remote.close(Lower(name), LowerNames(listing.items));
      (Search(name, remote, log).1.None? <==> listing.status != 200 || best.None?) &&
      (Search(name, remote, log).1.Some? ==>
        exists k :: 0 <= k < |listing.items| && Search(name, remote, log).1.value == listing.items[k] &&
          Lower(listing.items[k].name) == best.value &&
          forall j :: 0 <= j < k ==> Lower(listing.items[j].name) != best.value)
  {
    var listing := remote.library(log + [ListLibrary]);
    var best := remote.close(Lower(name), LowerNames(listing.items));
    if best.Some? {
      FirstWithLowerNameSpec(listing.items, best.value);
    }
  }

  // ---------------------------------------------------------------------
  // match_synonym_to_activity (activities.py:154-169)

  /** `set(s.lower() for s in synonyms)`. */
  function SynonymSet(synonyms: seq<string>): set<string> {
    set k | 0 <= k < |synonyms| :: Lower(synonyms[k])
  }

  /** `any(get_close_matches(name, synonym_set, n=1))`: a close match that is not the empty string. */
  predicate Accepts(match_: Option<string>) {
    match_.Some? && match_.value != ""
  }

  /** Whether a library item's lower-cased name close-matches one of the synonyms. */
  function MatchesSynonym(synonyms: set<string>, close: (string, set<string>) -> Option<string>): LibraryActivity -> bool {
    (item: LibraryActivity) => Accepts(close(Lower(item.name), synonyms))
  }

  /** The listing request, and the first library item matching one of the synonyms. */
  function MatchSynonym(synonyms: seq<string>, remote: Remote, log: seq<Req>): (seq<Req>, Option<LibraryActivity>) {
    var l := log + [ListLibrary];
    var listing := remote.library(l);
    if listing.status != 200 then (l, None)
    else
      match FirstWhere(listing.items, MatchesSynonym(SynonymSet(synonyms), remote.close), 0)
      case Some(k) => (l, Some(listing.items[k]))
      case None => (l, None)
  }

  method MatchSynonymToActivity(synonyms: seq<string>, remote: Remote, log: seq<Req>)
    returns (log': seq<Req>, r: Option<LibraryActivity>)
    ensures (log', r) == MatchSynonym(synonyms, remote, log)
  {
    log' := log + [ListLibrary];
    var listing := remote.library(log');
    if listing.status != 200 {
      return log', None;
    }
    var items := listing.items;
    var synonymSet := set k | 0 <= k < |synonyms| :: Lower(synonyms[k]);
    var k := 0;
    while k < |items|
      invariant 0 <= k <= |items|
      invariant FirstWhere(items, MatchesSynonym(synonymSet, remote.close), 0) == FirstWhere(items, MatchesSynonym(synonymSet, remote.close), k)
    {
      var m := remote.close(Lower(items[k].name), synonymSet);
      if m.Some? && m.value != "" {
        return log', Some(items[k]);
      }
      k := k + 1;
    }
    r := None;
  }

  /** Without synonyms there is nothing to match. */
  lemma NoSynonymsNoMatch(remote: Remote, log: seq<Req>)
    requires ReturnsCandidate(remote.close)
    ensures MatchSynonym([], remote, log) == (log + [ListLibrary], None)
  {
    var listing := remote.library(log + [ListLibrary]);
    assert SynonymSet([]) == {};
    var wanted := MatchesSynonym({}, remote.close);
    forall j | 0 <= j < |listing.items|
      ensures !wanted(listing.items[j])
    {
      var c := remote.close(Lower(listing.items[j].name), {});
      assert c == None;
    }
    FirstWhereSpec(listing.items, wanted, 0);
  }

  /**
   * A match is the first library item, in library order, whose lower-cased
   * name has a close match among the lower-cased synonyms.
   */
  lemma MatchSynonymMeaning(synonyms: seq<string>, remote: Remote, log: seq<Req>)
    ensures var listing := remote.library(log + [ListLibrary]);
      var syn := SynonymSet(synonyms);
      var r := MatchSynonym(synonyms, remote, log).1;
      (r.Some? ==> (listing.status == 200 &&
        exists k :: 0 <= k < |listing.items| && r.value == listing.items[k] &&
          Accepts(remote.close(Lower(listing.items[k].name), syn)) &&
          forall j :: 0 <= j < k ==> !Accepts(remote.close(Lower(listing.items[j].name), syn)))) &&
      (r.None? && listing.status == 200 ==>
        forall j :: 0 <= j < |listing.items| ==> !Accepts(remote.close(Lower(listing.items[j].name), syn)))
  {
    var listing := remote.library(log + [ListLibrary]);
    FirstWhereSpec(listing.items, MatchesSynonym(SynonymSet(synonyms), remote.close), 0);
  }
}
