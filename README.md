# A verified model of the USDM-to-OpenStudyBuilder uploader core

usdm-osb-uploader reads a study in the CDISC USDM JSON form and recreates it in OpenStudyBuilder, one REST call at a time. This project models the `osb` package's upload steps in Dafny:

- the timing scan, the epochs, the visit sort, the visits and the schedule of activities (`epochs_visits_soa.py`);
- the activity-group reconciliation, the library searches and the decision tree of `create_study_activity` (`activities.py`);
- the eligibility criteria (`criteria.py`), the study elements (`elements.py`), the arms (`arms.py`), and the objectives with their endpoints (`objectivies_endpoints.py`).

How the model is built:

- **Requests are logged, answers are functions.** Every call an upload step makes to OpenStudyBuilder is a request value appended to a log, a `seq` of requests. Each module's `Remote` datatype holds the server's answers as functions. A function is applied to the log that ends with the request being answered, so an answer may depend on everything sent before it.
- **A step ends in a `Walk`.** The result of an upload step is a `Walk`: the final log, plus the exception that stopped the step, if one did. `Steps.Run` folds a step over a list and stops at the first exception, as a Python `for` loop does when its body raises.
- **Methods are proved against functions.** Each Python loop is a Dafny `method` with loop invariants. Its `ensures` ties the result to a specification function (`ExtractDayOrWeekValues` to `Scanned`, `CreateVisits` to `VisitPlan`, `CreateStudyCriteria` to `Upload`). Lemmas then say what that function means: which requests are sent, under which conditions, with which fields, and when the step raises.
- **Maps filled from answers.** `Calls.Record` builds a uid map from server answers, such as `epoch_uid_map` and `visit_mapping_encounter`.
- **Timings are updated in place.** `finalize_timing_integration` rewrites each timing's encounter id. In the model that is an `array` the method updates.

Modules: `Common`, `Text`, `Steps`, `Calls` and `Scan` are shared helpers. The other modules follow the source: `Timing`, `TimingFacts` (properties of the anchor-relative scan), `Epochs`, `VisitOrder`, `Visits` and `Schedule` cover `epochs_visits_soa.py`; `Activities` and `ActivityTree` cover `activities.py`; `Criteria`, `Elements`, `Arms` and `Objectives` each cover one file.

Four behaviours of the code worth knowing:

- **Shadowed visit types.** A second pass creates the visits whose time is not 0, including the untimed ones. Some visit types can never be chosen: the tests for "pre-screening", "pre-treatment" and "no-treatment" come after the tests for "screening" and "treatment", which catch them first.
- **The child branch uses the parent's concepts.** A child that has concepts of its own links the concept ids of its parent.
- **Bracketed objective names.** The study-objective lookup compares the objective's original text with the name that was posted, and that name had its brackets replaced. An objective whose text has a square bracket is therefore not found when the server lists the study's objectives under the names the uploader posted, and its endpoints are skipped.
- **Milestone flags.** A milestone flag is computed for each visit and never sent.

## Model

| member | source | states |
|---|---|---|
| Timing.Signed | src/usdm_osb_uploader/osb/epochs_visits_soa.py:42-55 | Before the anchor has been seen a written value is sent as minus its absolute value, after it unchanged; the unit is kept and a missing value stays missing. |
| Timing.AnchorBeforeIff | src/usdm_osb_uploader/osb/epochs_visits_soa.py:25-37 | The anchor flag at timing k is set exactly when some earlier timing's description mentions "anchor". |
| Timing.EntryAt | src/usdm_osb_uploader/osb/epochs_visits_soa.py:28-57 | The entry written for timing k: (0, day) for the anchor, the written offset after the anchor, a value at most 0 before it, and a missing offset exactly when no number is found. |
| Timing.LastIndexOf | src/usdm_osb_uploader/osb/epochs_visits_soa.py:28-57 | The last timing writing an encounter is found, and no later timing writes that encounter. |
| Timing.LastWriteWins | src/usdm_osb_uploader/osb/epochs_visits_soa.py:36-57 | When no later timing writes the same encounter, the dictionary entry of that encounter is the one timing k writes. |
| Timing.ScannedMeaning | src/usdm_osb_uploader/osb/epochs_visits_soa.py:26-59 | After n timings, an encounter is a key exactly when one of them writes it, and its value is the entry of the last such write. |
| Timing.ExtractDayOrWeekValues | src/usdm_osb_uploader/osb/epochs_visits_soa.py:24-59 | The loop, with its anchor flag, builds exactly the dictionary of the scan specification. |
| Timing.ScanResult | src/usdm_osb_uploader/osb/epochs_visits_soa.py:24-59 | The returned dictionary holds exactly the written encounters, each with its last write; other encounters have no entry. |
| Timing.InstanceEncounters | src/usdm_osb_uploader/osb/epochs_visits_soa.py:66-70 | An instance id is a key exactly when some instance with that id has an encounter; the last such instance supplies the value. |
| Timing.WithEncounter | src/usdm_osb_uploader/osb/epochs_visits_soa.py:77 | The kept timings are the ones with an encounter, and every timing with an encounter is kept. |
| Timing.WithEncounterConcat | src/usdm_osb_uploader/osb/epochs_visits_soa.py:77 | The filter keeps order and multiplicity: the timings kept from `a + b` are those kept from `a`, then those kept from `b`. |
| Timing.WithEncounterOne | src/usdm_osb_uploader/osb/epochs_visits_soa.py:77 | A single timing is kept exactly when it has an encounter. |
| Timing.AttachAll | src/usdm_osb_uploader/osb/epochs_visits_soa.py:72-75 | Each timing, in place and in order, gets the encounter of the instance it is relative to. |
| Timing.AttachEncounters | src/usdm_osb_uploader/osb/epochs_visits_soa.py:72-75 | The array update writes the attached timings over the old contents, element by element. |
| Timing.CollectTimed | src/usdm_osb_uploader/osb/epochs_visits_soa.py:82-88 | An encounter of the list is in the result exactly when its scanned value is present, and the result holds that value. |
| Timing.FinalizeTimingIntegration | src/usdm_osb_uploader/osb/epochs_visits_soa.py:62-88 | The timings are updated in place, and the result maps each listed encounter to the entry the scan of the kept timings gives it. |
| TimingFacts.DayTakesPrecedence | src/usdm_osb_uploader/osb/epochs_visits_soa.py:39-45 | The first `day`, spaces and integer in the lower-cased label, wherever it stands, yields that integer in days, whatever else the label (a later `week`) or the value label says. |
| TimingFacts.WeekWithoutDay | src/usdm_osb_uploader/osb/epochs_visits_soa.py:39-49 | When the label has no `day` match, its first `week`, spaces and integer, wherever it stands, yields that integer in weeks. |
| TimingFacts.ValueLabelFallback | src/usdm_osb_uploader/osb/epochs_visits_soa.py:51-55 | When the label has neither a `day` nor a `week` match, the first integer anywhere in the stripped, lower-cased value label is used, in weeks exactly when the label or the value label contains `week` and in days otherwise. |
| TimingFacts.ValueLabelOnlyNumber | src/usdm_osb_uploader/osb/epochs_visits_soa.py:51-55 | A label without digits and a value label that is just an integer give that integer, in weeks exactly when the label contains `week`. |
| TimingFacts.NoNumberNoOffset | src/usdm_osb_uploader/osb/epochs_visits_soa.py:56-57 | With no number in either label, a non-anchor timing gets no offset. |
| TimingFacts.NoAnchorNothingPositive | src/usdm_osb_uploader/osb/epochs_visits_soa.py:44-55 | On a timeline with no anchor, no encounter ends with a positive value. |
| TimingFacts.BeforeAnchorNegated | src/usdm_osb_uploader/osb/epochs_visits_soa.py:44 | A value written before the anchor is sent as minus its absolute value. |
| TimingFacts.AfterAnchorKeepsSign | src/usdm_osb_uploader/osb/epochs_visits_soa.py:35-44 | Every timing after the anchor keeps its written value and sign. |
| TimingFacts.FirstTimingNegated | src/usdm_osb_uploader/osb/epochs_visits_soa.py:25-44 | A first timing that is not the anchor gets a non-positive value. |
| TimingFacts.DayLabel | src/usdm_osb_uploader/osb/epochs_visits_soa.py:39-44 | A label "Day n" yields n days. |
| TimingFacts.WeekLabel | src/usdm_osb_uploader/osb/epochs_visits_soa.py:40-48 | A label "Week n" yields n weeks. |
| TimingFacts.TimelineBeforeAnchor | src/usdm_osb_uploader/osb/epochs_visits_soa.py:24-59 | In a timeline before, anchor, after, the timing before the anchor is negated. |
| TimingFacts.TimelineAnchor | src/usdm_osb_uploader/osb/epochs_visits_soa.py:34-37 | In such a timeline, the anchor gets (0, day). |
| TimingFacts.TimelineAfterAnchor | src/usdm_osb_uploader/osb/epochs_visits_soa.py:44-48 | In such a timeline, the timing after the anchor keeps its written week value. |
| Scan.NumberPosSpec | src/usdm_osb_uploader/osb/epochs_visits_soa.py:51 | `re.search(r"-?\d+")` finds the leftmost position where a number starts, and no number means none starts anywhere. |
| Scan.KeywordPosSpec | src/usdm_osb_uploader/osb/epochs_visits_soa.py:39-40 | `re.search(kw + r"\s*(-?\d+)")` finds the leftmost match, and no match means none anywhere. |
| Scan.KeywordRoundTrip | src/usdm_osb_uploader/osb/epochs_visits_soa.py:39-43 | Reading `kw`, spaces and a rendered integer gives back that integer. |
| Scan.NumberRoundTrip | src/usdm_osb_uploader/osb/epochs_visits_soa.py:51-53 | Reading a rendered integer after a digit-free prefix gives back that integer. |
| Scan.KeywordRoundTripAfter | src/usdm_osb_uploader/osb/epochs_visits_soa.py:39-43 | When no match starts inside the prefix, reading `kw`, spaces and a rendered integer after it gives back that integer. |
| Scan.NumberRoundTripAfter | src/usdm_osb_uploader/osb/epochs_visits_soa.py:51-53 | When no number starts inside the prefix, the first number of prefix, rendered integer and a suffix not starting with a digit is that integer. |
| Scan.NoDigitsNoNumber | src/usdm_osb_uploader/osb/epochs_visits_soa.py:51-57 | Text without digits has no number and no keyword match. |
| Scan.KeywordNeedsText | src/usdm_osb_uploader/osb/epochs_visits_soa.py:39-40 | A keyword match needs the keyword in the text. |
| Scan.StripTagsRemovesAllTags | src/usdm_osb_uploader/osb/criteria.py:29 | After `re.sub(r"<[^>]+>", "")` no tag is left. |
| Scan.StripTagsPlainText | src/usdm_osb_uploader/osb/criteria.py:29 | Text without `<` is unchanged by the tag removal. |
| VisitOrder.Pairs | src/usdm_osb_uploader/osb/epochs_visits_soa.py:264-272 | One (time, encounter) pair per encounter in list order, timed when the encounter has a value and untimed otherwise. |
| VisitOrder.SortByTime | src/usdm_osb_uploader/osb/epochs_visits_soa.py:274 | The sort keeps the pairs as a permutation. |
| VisitOrder.SortByTimeCorrect | src/usdm_osb_uploader/osb/epochs_visits_soa.py:274 | The sort orders by time, untimed last, and is stable: the pairs with any one key keep their order. |
| Visits.ShadowedVisitTypes | src/usdm_osb_uploader/osb/epochs_visits_soa.py:303-316 | The pre-screening, pre-treatment and no-treatment visit types are never chosen: an earlier test always catches them. |
| Visits.VisitTypeDefault | src/usdm_osb_uploader/osb/epochs_visits_soa.py:303-324 | The default visit type is chosen exactly when the label has none of the keywords. |
| Visits.ScreeningFirst | src/usdm_osb_uploader/osb/epochs_visits_soa.py:303-304 | The screening type is chosen exactly when the label contains "screening". |
| Visits.PreferredContactName | src/usdm_osb_uploader/osb/epochs_visits_soa.py:92-95 | Only the two known decodes have a preferred name. |
| Visits.FetchContactModeUid | src/usdm_osb_uploader/osb/epochs_visits_soa.py:91-105 | The uid found is the one of the first term with the preferred name, and one is found whenever the listed terms contain one. |
| Visits.ContactModeUid | src/usdm_osb_uploader/osb/epochs_visits_soa.py:326-333 | The contact mode is the fetched uid when one is found and non-empty, and otherwise (nothing found, an empty uid, or an unknown decode) the default CTTerm_000082. |
| Visits.FirstEpochOf | src/usdm_osb_uploader/osb/epochs_visits_soa.py:278-285 | The epoch of the first instance with the encounter, or none when no instance has it. |
| Visits.Days | src/usdm_osb_uploader/osb/epochs_visits_soa.py:292-297 | A week value is sent as 7 times the value in days; a day value is sent unchanged. |
| Visits.PassPlanSound | src/usdm_osb_uploader/osb/epochs_visits_soa.py:276-353 | Every create of a pass belongs to a selected encounter of the sorted pairs. |
| Visits.PassPlanComplete | src/usdm_osb_uploader/osb/epochs_visits_soa.py:276-353 | Every selected encounter gets its create in the pass. |
| Visits.VisitForValues | src/usdm_osb_uploader/osb/epochs_visits_soa.py:290-348 | A create has a created epoch; a first-pass create has time 0 and is the global anchor; a second-pass create is neither; time values are in days and untimed encounters send no time. |
| Visits.MilestonesMeaning | src/usdm_osb_uploader/osb/epochs_visits_soa.py:335-336 | A create is its epoch's milestone exactly when no earlier create in either pass had that epoch. |
| Visits.EpochsOfMeaning | src/usdm_osb_uploader/osb/epochs_visits_soa.py:335-336 | The epochs seen are exactly the epochs of the creates issued. |
| Visits.IssueVisit | src/usdm_osb_uploader/osb/epochs_visits_soa.py:338-351 | One create: its request is logged, its uid stored under the encounter when answered, its epoch marked seen. |
| Visits.BuildVisit | src/usdm_osb_uploader/osb/epochs_visits_soa.py:290-348 | The request built from the encounter is the pass's create for it. |
| Visits.VisitPass | src/usdm_osb_uploader/osb/epochs_visits_soa.py:276-353 | One pass logs exactly its plan, stores the answered uids and computes the milestone flags. |
| Visits.CreateVisits | src/usdm_osb_uploader/osb/epochs_visits_soa.py:264-433 | Both passes together: the log, the encounter-to-visit map and the milestones are those of the plan. |
| Visits.ZeroVisitsFirst | src/usdm_osb_uploader/osb/epochs_visits_soa.py:276-433 | Every visit with time 0 is created before every other visit, and a create is the global anchor exactly when its time is 0. |
| Visits.UntimedInSecondPass | src/usdm_osb_uploader/osb/epochs_visits_soa.py:355-377 | An encounter without a time value but with a created epoch is created in the second pass, with no time. |
| Calls.RecordKeys | src/usdm_osb_uploader/osb/epochs_visits_soa.py:338-351 | The uid map holds exactly its old keys plus the keys of the calls that were answered. |
| Schedule.DesignNameFirst | src/usdm_osb_uploader/osb/epochs_visits_soa.py:454-463 | An activity id resolves to the name of the first design activity with that id. |
| Schedule.DesignNameAbsent | src/usdm_osb_uploader/osb/epochs_visits_soa.py:454-463 | An unknown activity id resolves to "". |
| Schedule.StudyActivityForSpec | src/usdm_osb_uploader/osb/epochs_visits_soa.py:448-466 | The first study activity whose name matches up to case is found, and none is found only when no name matches. |
| Schedule.LinkActivities | src/usdm_osb_uploader/osb/epochs_visits_soa.py:447-477 | The inner loop issues exactly the schedule creates of the instance's activity ids. |
| Schedule.LinkInstance | src/usdm_osb_uploader/osb/epochs_visits_soa.py:443-477 | An instance without a visit is skipped; otherwise its activity ids are linked. |
| Schedule.CreateScheduleEdges | src/usdm_osb_uploader/osb/epochs_visits_soa.py:442-478 | The outer loop issues exactly the schedule creates of all the instances, in order. |
| Schedule.ActivityEdgeSound | src/usdm_osb_uploader/osb/epochs_visits_soa.py:447-474 | Every create of an instance links a matching study activity to that instance's visit. |
| Schedule.ActivityEdgeComplete | src/usdm_osb_uploader/osb/epochs_visits_soa.py:447-474 | Every activity id whose name matches a study activity gets its create. |
| Schedule.EdgeSound | src/usdm_osb_uploader/osb/epochs_visits_soa.py:442-474 | Every create comes from an instance with a visit and one of its activity ids that has a match. |
| Schedule.EdgeComplete | src/usdm_osb_uploader/osb/epochs_visits_soa.py:442-474 | Every instance with a visit and every matching activity id of it get their create. |
| Epochs.EpochTypeCode | src/usdm_osb_uploader/osb/epochs_visits_soa.py:168-173 | "screening" forces C48262 and "follow-up" forces C99158, whatever the case; otherwise the epoch's own code is used. |
| Epochs.EpochTypeCodeIgnoresCase | src/usdm_osb_uploader/osb/epochs_visits_soa.py:168-171 | Upper-casing the epoch name does not change the code. |
| Epochs.ElementIndex | src/usdm_osb_uploader/osb/epochs_visits_soa.py:151-158 | The first element whose id ends in the epoch id's last character is found; an empty id raises IndexError; with non-empty ids it never raises. |
| Epochs.RulesOf | src/usdm_osb_uploader/osb/epochs_visits_soa.py:159-166 | The matched element's start and end rule texts, or none for both without a match. |
| Epochs.EpochTypeFor | src/usdm_osb_uploader/osb/epochs_visits_soa.py:214-228 | The type of the first configuration whose type name is the (lower-cased) sponsor name of the term, or none exactly when no configuration has that name. |
| Epochs.EpochPlan | src/usdm_osb_uploader/osb/epochs_visits_soa.py:206-239 | The creates of one epoch are keyed by its id and numbered by its position plus one; an empty code creates nothing. |
| Epochs.EpochsPlan | src/usdm_osb_uploader/osb/epochs_visits_soa.py:146-239 | Each create is numbered 1 to n and keyed by the id of the epoch at that position. |
| Epochs.EpochOrdersAscend | src/usdm_osb_uploader/osb/epochs_visits_soa.py:236 | The epoch creates are issued with ascending order numbers. |
| Epochs.FirstUnmatched | src/usdm_osb_uploader/osb/epochs_visits_soa.py:151-158 | The first epoch whose element match raises, if any; every earlier epoch matches. |
| Epochs.CreateEpochTerms | src/usdm_osb_uploader/osb/epochs_visits_soa.py:206-239 | The term loop logs exactly the creates of the epoch and stores their uids. |
| Epochs.CreateEpochs | src/usdm_osb_uploader/osb/epochs_visits_soa.py:146-239 | The epochs are created in order; the step raises IndexError exactly when an element match raises, after the creates already made; otherwise it returns the uid map of all the creates. |
| Activities.CleanNameShape | src/usdm_osb_uploader/osb/activities.py:45 | The clean name is lower-case and has no surrounding white space. |
| Activities.PayloadShape | src/usdm_osb_uploader/osb/activities.py:62-68 | The create body has the target name, the clean name, a 3-letter abbreviation of the clean name, library "Requested", and for a subgroup its group. |
| Activities.NormalTarget | src/usdm_osb_uploader/osb/activities.py:46-58 | The lookup key is the upper-cased name's key for a "tbd" name and the clean name otherwise. |
| Activities.TbdTarget | src/usdm_osb_uploader/osb/activities.py:45-46 | A "TBD_" name is looked up and created upper-cased. |
| Activities.GetOrCreate | src/usdm_osb_uploader/osb/activities.py:49-88 | The lookup loop with its for-else create is the reconciliation specification. |
| Activities.GetOrCreateGroup | src/usdm_osb_uploader/osb/activities.py:44-88 | get_or_create_group reconciles the target name at group level. |
| Activities.GetOrCreateSubgroup | src/usdm_osb_uploader/osb/activities.py:105-151 | get_or_create_subgroup reconciles the target name at subgroup level, with the group in its body. |
| Activities.ReconcileFound | src/usdm_osb_uploader/osb/activities.py:57-60 | When a listed group matches, the first match's uid is returned and nothing is created. |
| Activities.ReconcileMissed | src/usdm_osb_uploader/osb/activities.py:61-88 | Without a match the payload is created: 422 returns None, another failure raises, and a success is approved whatever the approval answers. |
| Activities.ReconcileListingFails | src/usdm_osb_uploader/osb/activities.py:54 | A failed listing raises with its status. |
| Activities.FirstWithLowerNameSpec | src/usdm_osb_uploader/osb/activities.py:37-40 | The item returned is the first whose lower-cased name is the close match; none is returned only when no name lower-cases to it. |
| Activities.SearchFrontendActivity | src/usdm_osb_uploader/osb/activities.py:26-41 | The search method is the search specification. |
| Activities.SearchMeaning | src/usdm_osb_uploader/osb/activities.py:26-41 | No result exactly when the listing fails or there is no close match; otherwise the first item with the matched name. |
| Activities.MatchSynonymToActivity | src/usdm_osb_uploader/osb/activities.py:154-169 | The synonym search method is its specification. |
| Activities.NoSynonymsNoMatch | src/usdm_osb_uploader/osb/activities.py:164-169 | With no synonyms nothing is matched. |
| Activities.MatchSynonymMeaning | src/usdm_osb_uploader/osb/activities.py:161-169 | A match is the first listed item whose name close-matches a synonym; no match on a good listing means no item does. |
| ActivityTree.LinkToStudy | src/usdm_osb_uploader/osb/activities.py:255-262 | The link step is its specification: a matched activity is linked under its first grouping, and one without groupings raises IndexError. |
| ActivityTree.CreateActivityIfNotExist | src/usdm_osb_uploader/osb/activities.py:91-102 | The concept is created, then approved, and its uid returned. |
| ActivityTree.CreateAndLinkActivity | src/usdm_osb_uploader/osb/activities.py:211-224 | The fallback: group, subgroup, concept and link, in that order. |
| ActivityTree.LinkConceptStep | src/usdm_osb_uploader/osb/activities.py:227-250 | One concept id: a known concept with a synonym match is linked. |
| ActivityTree.LinkConcepts | src/usdm_osb_uploader/osb/activities.py:227-250 | The concept loop runs the steps in order and stops at the first raise. |
| ActivityTree.LinkChildStep | src/usdm_osb_uploader/osb/activities.py:187-250 | One child of a grouping activity, by the source's branches. |
| ActivityTree.LinkChildren | src/usdm_osb_uploader/osb/activities.py:187-250 | The child loop runs the steps in order and stops at the first raise. |
| ActivityTree.UploadActivityStep | src/usdm_osb_uploader/osb/activities.py:180-297 | One activity, grouping or not, by the source's branches. |
| ActivityTree.UploadDesign | src/usdm_osb_uploader/osb/activities.py:176-297 | The activity loop of one design. |
| ActivityTree.CreateStudyActivity | src/usdm_osb_uploader/osb/activities.py:172-298 | The posted study activities are listed first, then every design's activities are uploaded in order, stopping at the first raise. |
| ActivityTree.ReconcileAppends | src/usdm_osb_uploader/osb/activities.py:44-88 | A group lookup only appends to the log, and never lists the posted study activities again. |
| ActivityTree.LinkNewAppends | src/usdm_osb_uploader/osb/activities.py:91-102 | Creating a concept only appends to the log, and never lists the posted study activities again. |
| ActivityTree.CreateAndLinkAppends | src/usdm_osb_uploader/osb/activities.py:211-224 | The fallback only appends to the log, and never lists the posted study activities again. |
| ActivityTree.FallbackAppends | src/usdm_osb_uploader/osb/activities.py:211-224 | The fallback under a description only appends to the log, and never lists the posted study activities again. |
| ActivityTree.LinkMatchedAppends | src/usdm_osb_uploader/osb/activities.py:254-262 | Linking a matched activity sends nothing but a study-activity link (and nothing at all when it has no grouping). |
| ActivityTree.ConceptLinksOnlyLookUpAndLink | src/usdm_osb_uploader/osb/activities.py:280-297 | The concept loop issues only library listings and links: it never creates a group or a concept. |
| ActivityTree.ActivityStepAppends | src/usdm_osb_uploader/osb/activities.py:180-297 | One activity only appends to the log, and never lists the posted study activities again. |
| ActivityTree.ChildStepAppends | src/usdm_osb_uploader/osb/activities.py:187-250 | One child only appends to the log, and never lists the posted study activities again. |
| ActivityTree.UploadAppends | src/usdm_osb_uploader/osb/activities.py:172-298 | The upload starts with the posted-activity listing, only appends after it, and never sends that listing again. |
| ActivityTree.UnknownChildSkipped | src/usdm_osb_uploader/osb/activities.py:188-192 | A child id that names no activity is skipped. |
| ActivityTree.ChildConceptsFromParent | src/usdm_osb_uploader/osb/activities.py:226-250 | A child with concepts links the parent's concept ids, and raises TypeError when the parent has none. |
| ActivityTree.ChildFallbackToParent | src/usdm_osb_uploader/osb/activities.py:199-224 | A child without concepts and without a library match falls back to the parent's description and name. |
| ActivityTree.FoundActivityLinked | src/usdm_osb_uploader/osb/activities.py:252-262 | An ordinary activity found in the library is linked under its first grouping's group and subgroup, or raises IndexError without one. |
| ActivityTree.UnknownActivityUnderTbd | src/usdm_osb_uploader/osb/activities.py:263-278 | An ordinary activity not found in the library is created under the study's TBD group. |
| ActivityTree.GroupFailureStopsFallback | src/usdm_osb_uploader/osb/activities.py:211-214 | A failing group lookup raises before the subgroup is touched. |
| ActivityTree.FallbackReusesGroups | src/usdm_osb_uploader/osb/activities.py:211-224 | The concept and the link use the uids the group and subgroup steps returned. |
| ActivityTree.UnknownConceptSkipped | src/usdm_osb_uploader/osb/activities.py:281-285 | A concept id that names no concept is skipped. |
| ActivityTree.KnownConceptMatched | src/usdm_osb_uploader/osb/activities.py:285-297 | A known concept with no match issues only the listing; a match is linked under its first grouping or raises IndexError. |
| Criteria.TextMapMissing | src/usdm_osb_uploader/osb/criteria.py:21 | A criterion whose item id is not listed gets the empty text. |
| Criteria.TextMapLast | src/usdm_osb_uploader/osb/criteria.py:13 | When item ids repeat, the last item's text wins. |
| Criteria.KindIff | src/usdm_osb_uploader/osb/criteria.py:18-26 | A criterion is an inclusion exactly when its decode starts with "in" in any case; inclusion is CTTerm_000028 and exclusion CTTerm_000029. |
| Criteria.KindIgnoresCase | src/usdm_osb_uploader/osb/criteria.py:18-19 | The case of the decode does not matter. |
| Criteria.TemplateNameShape | src/usdm_osb_uploader/osb/criteria.py:28-33 | The template name has no tag, no square bracket and no surrounding white space. |
| Criteria.TemplateNamePlain | src/usdm_osb_uploader/osb/criteria.py:28-33 | Text without tags, brackets or surrounding white space is posted unchanged. |
| Criteria.GatheredConcat | src/usdm_osb_uploader/osb/criteria.py:16-22 | The criteria of two lists of designs are those of each, in order. |
| Criteria.GatheredOne | src/usdm_osb_uploader/osb/criteria.py:17-22 | One design gives one mapped criterion per eligibility criterion, with its kind and text. |
| Criteria.GatherCriteria | src/usdm_osb_uploader/osb/criteria.py:15-22 | The nested loops build exactly the gathered criteria. |
| Criteria.CreateCriterionFrom | src/usdm_osb_uploader/osb/criteria.py:24-60 | One criterion: the template, its approval and the criterion create. |
| Criteria.CreateStudyCriteria | src/usdm_osb_uploader/osb/criteria.py:10-60 | Every gathered criterion in order, stopping at the first raise. |
| Criteria.NoTemplateSkips | src/usdm_osb_uploader/osb/criteria.py:38-39 | A template without a uid skips the criterion after the template request. |
| Criteria.ApprovedUsesAnswer | src/usdm_osb_uploader/osb/criteria.py:42-46 | An approved template creates the criterion with the approval's uid. |
| Criteria.AlreadyApprovedUsesTemplate | src/usdm_osb_uploader/osb/criteria.py:47-53 | A template that is not a draft creates the criterion with the template's own uid. |
| Criteria.OtherRefusalReraised | src/usdm_osb_uploader/osb/criteria.py:54-56 | Any other approval error is raised again, and nothing more is sent. |
| Criteria.CriterionStepAppends | src/usdm_osb_uploader/osb/criteria.py:24-60 | Each criterion sends only requests for the study: templates in "User Defined" with an inclusion or exclusion type and no square bracket. |
| Criteria.UploadAppends | src/usdm_osb_uploader/osb/criteria.py:10-60 | The whole upload sends only such requests. |
| Criteria.UploadDesignByDesign | src/usdm_osb_uploader/osb/criteria.py:16-22 | Uploading two lists of designs is uploading one after the other. |
| Elements.ClassLabelIsLoweredName | src/usdm_osb_uploader/osb/elements.py:9-34 | The element is classified by the lower-cased form of the name it is posted under: its name when longer than 3 characters, otherwise its label. |
| Elements.EndRuleIsText | src/usdm_osb_uploader/osb/elements.py:11-15 | The truthiness test changes nothing: the end rule is the rule's text, if any. |
| Elements.ClassifyMeaning | src/usdm_osb_uploader/osb/elements.py:18-32 | Each subtype and the code in terms of the phrases the label contains, in the order of the tests. |
| Elements.ClassifyIgnoresCase | src/usdm_osb_uploader/osb/elements.py:9-32 | The case of the name and label does not change the classification. |
| Elements.ElementRequestMeaning | src/usdm_osb_uploader/osb/elements.py:38-47 | The create posts the chosen name twice, the terms of its classified label, the end rule text and the study. |
| Elements.ElementRequestsAt | src/usdm_osb_uploader/osb/elements.py:7-47 | Exactly one create per element, in order. |
| Elements.ElementCreate | src/usdm_osb_uploader/osb/elements.py:8-47 | The loop body builds the element's create. |
| Elements.CreateStudyElement | src/usdm_osb_uploader/osb/elements.py:4-47 | IndexError without a design; otherwise one create per element of the first design. |
| Arms.FindStudyUid | src/usdm_osb_uploader/osb/arms.py:10-25 | The lookup method is the lookup specification. |
| Arms.StudyFound | src/usdm_osb_uploader/osb/arms.py:15-19 | The first listed study with the id gives its uid. |
| Arms.StudyMissing | src/usdm_osb_uploader/osb/arms.py:20-21 | No listed study with the id raises "not found". |
| Arms.StudyListFails | src/usdm_osb_uploader/osb/arms.py:22-25 | A failed listing raises with its status. |
| Arms.CreateForKeyword | src/usdm_osb_uploader/osb/arms.py:46-61 | One create per code-list item whose sponsor name contains the keyword. |
| Arms.CreateForArm | src/usdm_osb_uploader/osb/arms.py:44-61 | The creates for every keyword the arm's decode contains. |
| Arms.CreateArmStep | src/usdm_osb_uploader/osb/arms.py:38-61 | One arm: the arm-type listing and, when it succeeds, the creates. |
| Arms.CreateStudyArm | src/usdm_osb_uploader/osb/arms.py:7-61 | The study lookup, IndexError without a design, then every arm of the first design. |
| Arms.ItemCreatesMeaning | src/usdm_osb_uploader/osb/arms.py:46-61 | A create exists exactly for each item whose sponsor name has the keyword. |
| Arms.KeywordCreatesMeaning | src/usdm_osb_uploader/osb/arms.py:44-61 | A create exists exactly for each pair of a keyword in the decode and an item whose sponsor name has it. |
| Arms.ArmCreatesFields | src/usdm_osb_uploader/osb/arms.py:53-61 | Every create carries the study uid, the arm name as name, short name and code, the arm id as randomisation group, and the description. |
| Arms.InvestigationalOnly | src/usdm_osb_uploader/osb/arms.py:31-36 | Of the keywords, only "investigational" occurs in "investigational". |
| Arms.OneKeyword | src/usdm_osb_uploader/osb/arms.py:44-45 | When only one keyword occurs in the decode, only its creates are made. |
| Arms.NoKeyword | src/usdm_osb_uploader/osb/arms.py:44-45 | When no keyword occurs in the decode, nothing is created. |
| Arms.TreatmentIsInvestigational | src/usdm_osb_uploader/osb/arms.py:34-36 | A decode containing "treatment" creates the investigational arms only. |
| Arms.FailedListingCreatesNothing | src/usdm_osb_uploader/osb/arms.py:42 | A failed arm-type listing creates nothing, and nothing is raised. |
| Arms.ArmStepAppends | src/usdm_osb_uploader/osb/arms.py:38-61 | An arm only lists arm types and creates arms for the study, and never raises. |
| Arms.ArmsNeverRaise | src/usdm_osb_uploader/osb/arms.py:30-61 | In the model, where every call answers, the arm loop has no raise site of its own. |
| Arms.UploadAppends | src/usdm_osb_uploader/osb/arms.py:7-61 | The step raises exactly when the lookup fails or there is no design; otherwise it sends only arm-type listings and arm creates for the found uid. |
| Objectives.LevelsMeaning | src/usdm_osb_uploader/osb/objectivies_endpoints.py:31-76 | An objective is primary exactly when its decode is "primary objective" in any case; an endpoint is primary exactly when its decode is "primary endpoint"; otherwise each is secondary. |
| Objectives.LevelsIgnoreCase | src/usdm_osb_uploader/osb/objectivies_endpoints.py:31-76 | The case of the decode does not matter. |
| Objectives.FindStudyObjective | src/usdm_osb_uploader/osb/objectivies_endpoints.py:45-49 | The lookup loop is the lookup specification. |
| Objectives.StudyObjectiveFirst | src/usdm_osb_uploader/osb/objectivies_endpoints.py:45-49 | The first existing objective with the text gives the uid. |
| Objectives.StudyObjectiveMissing | src/usdm_osb_uploader/osb/objectivies_endpoints.py:52-56 | With no objective of that text there is no uid. |
| Objectives.StudyObjectiveNamed | src/usdm_osb_uploader/osb/objectivies_endpoints.py:45-49 | A uid found belongs to an objective with the text. |
| Objectives.CreateEndpoint | src/usdm_osb_uploader/osb/objectivies_endpoints.py:59-84 | One endpoint: the template, its approval and the study endpoint under the found objective. |
| Objectives.CreateEndpoints | src/usdm_osb_uploader/osb/objectivies_endpoints.py:58-84 | The endpoint loop runs the steps in order. |
| Objectives.CreateObjective | src/usdm_osb_uploader/osb/objectivies_endpoints.py:20-84 | One objective: template, approval, create, lookup and its endpoints. |
| Objectives.CreateStudyObjectiveEndpoint | src/usdm_osb_uploader/osb/objectivies_endpoints.py:14-84 | IndexError without a design; otherwise every objective of the first design in order. |
| Objectives.MissingObjectiveSkipsEndpoints | src/usdm_osb_uploader/osb/objectivies_endpoints.py:52-56 | A study objective that is not found skips all its endpoints; the lookup is the last request. |
| Objectives.FoundObjectiveGetsEndpoints | src/usdm_osb_uploader/osb/objectivies_endpoints.py:58-84 | A study objective that is found gets every endpoint created under its uid. |
| Objectives.BracketedObjectiveMissed | src/usdm_osb_uploader/osb/objectivies_endpoints.py:22-56 | When no listed study objective has a `[` in its name, as none the uploader posts does, an objective text with a square bracket is not found and its endpoints are skipped. |
| Objectives.EndpointStepAppends | src/usdm_osb_uploader/osb/objectivies_endpoints.py:59-84 | An endpoint sends only well-formed requests for the study. |
| Objectives.ObjectiveStepAppends | src/usdm_osb_uploader/osb/objectivies_endpoints.py:20-84 | An objective sends only well-formed requests for the study. |
| Objectives.UploadAppends | src/usdm_osb_uploader/osb/objectivies_endpoints.py:14-84 | The step raises exactly when there is no design, and sends only well-formed requests. |
| Objectives.EndpointsNeverRaise | src/usdm_osb_uploader/osb/objectivies_endpoints.py:58-84 | In the model, where every call answers, the endpoint loop has no raise site of its own. |
| Objectives.ObjectivesNeverRaise | src/usdm_osb_uploader/osb/objectivies_endpoints.py:19-84 | In the model, where every call answers, the objective loop has no raise site of its own. |
| Text.Parenthesize | src/usdm_osb_uploader/osb/criteria.py:33 | `.replace("[", "(").replace("]", ")")`: same length, each bracket replaced, and no square bracket left. |
| Text.StripIdempotent | src/usdm_osb_uploader/osb/activities.py:45 | Stripping twice is stripping once. |
| Text.LowerOfUpper | src/usdm_osb_uploader/osb/activities.py:58 | Lower-casing an upper-cased name is lower-casing it. |
| Steps.FirstWhereSpec | src/usdm_osb_uploader/osb/activities.py:57-60 | The first element the test accepts is found; none is found only when no element passes. |

## Left out

- HTTP transport, `async`, headers, URLs and `print` output: only the requests and the answers that decide the next step are modelled.
- The wrappers in `osb_api.py` are not part of this model. Each call is a request value, and its answer comes from the `Remote` functions. A failure of those wrappers is modelled only where the core catches or re-raises it: the template-approval refusal in `criteria.py`, and the visit create whose failure is caught.
- `posted_uids` is only passed on to `create_study_activity_api`, which is not part of this model, so the model does not carry it.
- `difflib.get_close_matches` (ratio cutoff 0.6) is the oracle `close` in `Activities.Remote`. The model assumes only that it returns a name from the candidates it is given.
- Absent or `None` JSON fields are modelled as `""` or the empty collection. A `None` name, or any other JSON type where a string is expected, is not modelled.
- The subscripts `c["id"]` and `c["text"]` (`criteria.py`:13) and `schedule["instances"]` (`epochs_visits_soa.py`:281 and :360) raise `KeyError` on a missing key. The model reads a missing key as `""` or the empty list, so that `KeyError` is not modelled.
- `str.lower`, `str.upper` and `str.strip` are modelled on ASCII letters and ASCII white space. Unicode case mapping is not modelled.
- `VisitOrder.SortByTime`: the Python sort works in place on a list. The model sorts a sequence value and proves what `list.sort` guarantees (sorted by time, stable, a permutation).
- Epochs: the `allowed-configs` response is assembled into `all_subtypes`; the model takes that list of configurations as an input. The `NameError` raised when that GET fails is not modelled.
- Epochs: the C99079 code list is an input of term values. Its GET is not logged, and a failed GET is the empty list.
- `Epochs.CreateEpochs`: the create of an epoch is assumed to answer. An exception raised by the create would stop the upload, and that is not modelled.
- `fetch_existing_study_activities` is an input list for the schedule step. Its `raise_for_status` failure is not modelled.
- Visits: the contact-mode terms are an input. The GET made for each visit is not logged, and its failure is not modelled.
- `global_visit_window_unit_uid` and `first_unit` (`epochs_visits_soa.py`:249-261) are computed and never used, so they are not modelled.
- Visits: `is_milestone` is never sent, so the model keeps the flags as a separate `seq<bool>` and does not add them to the request.
- The `IndexError` raised by `study_designs[0]` and `scheduleTimelines[0]` in the visit and schedule steps is not modelled: both steps take the design's encounters, instances and timings as inputs.
- A create answer whose `uid` is `None` is stored as `""`, as an absent answer is.
- `create_study` and the command-line entry points are not part of this model.
- Arms: `study_uid` defaults to `""` when the matching study has no uid.
- Arms: a code-list item without a term uid is sent as `"UNKNOWN_UID"`.
- Arms and objectives: network exceptions on the code-list GET and the study-objectives GET are not modelled. Only the status code the core tests is modelled.
- Elements: a `transitionStartRule` or `transitionEndRule` that is `null` is modelled as the empty map. The start rule's `.get` on `None` raises `AttributeError`, and that is not modelled.
- ArmsNeverRaise: an exception raised by an `osb_api` wrapper or a GET inside the arm loop is not modelled, so the real loop can still be stopped by one.
- EndpointsNeverRaise: an exception raised by an `osb_api` wrapper or a GET inside the endpoint loop is not modelled, so the real loop can still be stopped by one.
- ObjectivesNeverRaise: an exception raised by an `osb_api` wrapper or a GET inside the objective loop is not modelled, so the real loop can still be stopped by one.
