/**
 * Timing resolution for the schedule of activities: each timeline timing is
 * tied to an encounter through the instance it is measured from, a signed
 * day or week offset is read from its free text, and offsets met before the
 * anchor timing are forced negative.
 * Source: src/usdm_osb_uploader/osb/epochs_visits_soa.py:24-88.
 */
module Timing {
  import opened Common
  import opened Text
  import opened Scan

  datatype Unit = Day | Week

  /** A resolved timing: `(value, unit)` of the source. */
  datatype Offset = Offset(value: int, unit: Unit)

  /** A scheduled instance of the timeline. Absent string fields are "". */
  datatype Instance = Instance(id: string, encounterId: string, epochId: string, activityIds: seq<string>)

  /**
   * A timeline timing. `encounterId` is the field the integration step
   * writes (epochs_visits_soa.py:75); "" stands for None.
   */
  datatype Timing = Timing(
    labelText: string,
    valueLabel: string,
    description: string,
    relativeFromScheduledInstanceId: string,
    encounterId: string)

  /** A study encounter (visit). `contactModes` holds the decode of each contact mode. */
  datatype Encounter = Encounter(id: string, labelText: string, description: string, contactModes: seq<string>)

  // ---------------------------------------------------------------------
  // One timing

  /** The description mentions the anchor (epochs_visits_soa.py:34). */
  predicate IsAnchor(t: Timing) {
    Contains(Lower(t.description), "anchor")
  }

  /** The unit of the `valueLabel` fallback: "week" if either text mentions it. */
  function FallbackUnit(lowLabel: string, valueLabel: string): Unit {
    if Contains(lowLabel, "week") || Contains(valueLabel, "week") then Week else Day
  }

  /**
   * The offset as written in the timing's text, with its own sign: a
   * `day N` in the label, else a `week N` in the label, else the first
   * integer of the value label (epochs_visits_soa.py:39-57).
   */
  function WrittenOffset(t: Timing): Option<Offset> {
    var lowLabel := Lower(t.labelText);
    var valueLabel := Lower(Strip(t.valueLabel));
    match KeywordNumber(lowLabel, "day")
    case Some(d) => Some(Offset(d, Day))
    case None =>
      match KeywordNumber(lowLabel, "week")
      case Some(w) => Some(Offset(w, Week))
      case None =>
        match FirstSignedNumber(valueLabel)
        case Some(v) => Some(Offset(v, FallbackUnit(lowLabel, valueLabel)))
        case None => None
  }

  function Abs(v: int): (r: int)
    ensures r >= 0 && (r == v || r == -v)
  {
    if v < 0 then -v else v
  }

  /** The offset recorded for a non-anchor timing, given whether the anchor was met. */
  function Signed(written: Option<Offset>, anchorSeen: bool): (r: Option<Offset>)
    ensures r.Some? <==> written.Some?
    ensures r.Some? ==> r.value.unit == written.value.unit
    ensures anchorSeen ==> r == written
    ensures !anchorSeen && r.Some? ==> r.value.value == -Abs(written.value.value) <= 0
  {
    match written
    case Some(o) => Some(Offset(if anchorSeen then o.value else -Abs(o.value), o.unit))
    case None => None
  }

  // ---------------------------------------------------------------------
  // The scan over all timings (extract_day_or_week_value_dynamic_with_anchor_flag)

  /** What the scan records for `t` when the anchor has or has not been met before it. */
  function EntryFor(t: Timing, anchorSeen: bool): Option<Offset> {
    if IsAnchor(t) then Some(Offset(0, Day)) else Signed(WrittenOffset(t), anchorSeen)
  }

  /** The anchor flag after the first `k` timings. */
  predicate AnchorBefore(ts: seq<Timing>, k: nat)
    requires k <= |ts|
  {
    k > 0 && (AnchorBefore(ts, k - 1) || IsAnchor(ts[k - 1]))
  }

  /** The flag is set exactly when some earlier timing is the anchor. */
  lemma {:induction false} AnchorBeforeIff(ts: seq<Timing>, k: nat)
    requires k <= |ts|
    ensures AnchorBefore(ts, k) <==> exists j :: 0 <= j < k && IsAnchor(ts[j])
  {
    if k > 0 {
      AnchorBeforeIff(ts, k - 1);
    }
  }

  /** What the scan records for timing `k`; None is the source's `(None, None)`. */
  function EntryAt(ts: seq<Timing>, k: nat): (r: Option<Offset>)
    requires k < |ts|
    ensures IsAnchor(ts[k]) ==> r == Some(Offset(0, Day))
    ensures !IsAnchor(ts[k]) && AnchorBefore(ts, k) ==> r == WrittenOffset(ts[k])
    ensures !AnchorBefore(ts, k) && r.Some? ==> r.value.value <= 0
    ensures !IsAnchor(ts[k]) ==> (r.Some? <==> WrittenOffset(ts[k]).Some?)
  {
    EntryFor(ts[k], AnchorBefore(ts, k))
  }

  /** One step of the scan: the entry written for timing `k` and the new anchor flag. */
  lemma ScanStep(ts: seq<Timing>, k: nat, anchorSeen: bool)
    requires k < |ts| && anchorSeen == AnchorBefore(ts, k)
    ensures Scanned(ts, k + 1) == Scanned(ts, k)[ts[k].encounterId := EntryFor(ts[k], anchorSeen)]
    ensures AnchorBefore(ts, k + 1) == (anchorSeen || IsAnchor(ts[k]))
  {
    EntryAtFlag(ts, k, anchorSeen);
  }

  lemma EntryAtFlag(ts: seq<Timing>, k: nat, anchorSeen: bool)
    requires k < |ts| && anchorSeen == AnchorBefore(ts, k)
    ensures EntryAt(ts, k) == EntryFor(ts[k], anchorSeen)
  {
  }

  /** The last timing of `ts` that writes encounter `e`, if any: the write that wins. */
  function LastIndexOf(ts: seq<Timing>, e: string): (r: Option<nat>)
    ensures r.Some? ==> r.value < |ts| && ts[r.value].encounterId == e
    ensures r.Some? ==> forall j :: r.value < j < |ts| ==> ts[j].encounterId != e
    ensures r.None? ==> forall j :: 0 <= j < |ts| ==> ts[j].encounterId != e
  {
    if ts == [] then None
    else if ts[|ts| - 1].encounterId == e then Some(|ts| - 1)
    else LastIndexOf(ts[..|ts| - 1], e)
  }

  /** `results.get(e, (None, None))` after the scan. */
  function TimingOf(ts: seq<Timing>, e: string): Option<Offset> {
    match LastIndexOf(ts, e)
    case Some(k) => EntryAt(ts, k)
    case None => None
  }

  lemma LastIndexOfExtend(ts: seq<Timing>, i: nat, e: string)
    requires i < |ts|
    ensures LastIndexOf(ts[..i + 1], e) ==
      if ts[i].encounterId == e then Some(i) else LastIndexOf(ts[..i], e)
  {
    assert ts[..i + 1][..i] == ts[..i];
  }

  /** Last write wins: an encounter no later timing writes again keeps the entry of timing `k`. */
  lemma {:induction false} LastWriteWins(ts: seq<Timing>, k: nat)
    requires k < |ts|
    requires forall j :: k < j < |ts| ==> ts[j].encounterId != ts[k].encounterId
    ensures LastIndexOf(ts, ts[k].encounterId) == Some(k)
    ensures TimingOf(ts, ts[k].encounterId) == EntryAt(ts, k)
    decreases |ts|
  {
    if k < |ts| - 1 {
      var init := ts[..|ts| - 1];
      assert init[k] == ts[k];
      LastWriteWins(init, k);
    }
  }

  /** The dictionary after the scan has visited the first `n` timings. */
  function Scanned(ts: seq<Timing>, n: nat): map<string, Option<Offset>>
    requires n <= |ts|
  {
    if n == 0 then map[] else Scanned(ts, n - 1)[ts[n - 1].encounterId := EntryAt(ts, n - 1)]
  }

  /** After `n` timings, each encounter written so far holds the entry of its last write. */
  lemma {:induction false} ScannedMeaning(ts: seq<Timing>, n: nat, e: string)
    requires n <= |ts|
    ensures e in Scanned(ts, n) <==> LastIndexOf(ts[..n], e).Some?
    ensures e in Scanned(ts, n) ==> Scanned(ts, n)[e] == EntryAt(ts, LastIndexOf(ts[..n], e).value)
  {
    if n > 0 {
      ScannedMeaning(ts, n - 1, e);
      LastIndexOfExtend(ts, n - 1, e);
    }
  }

  /**
   * The scan of epochs_visits_soa.py:24-59: one pass in order with the
   * anchor flag; each timing overwrites its encounter's entry.
   */
  method ExtractDayOrWeekValues(ts: seq<Timing>) returns (results: map<string, Option<Offset>>)
    ensures results == Scanned(ts, |ts|)
  {
    var anchorFound := false;
    results := map[];
    var i := 0;
    while i < |ts|
      invariant 0 <= i <= |ts|
      invariant anchorFound == AnchorBefore(ts, i)
      invariant results == Scanned(ts, i)
    {
      var t := ts[i];
      var entry := EntryFor(t, anchorFound);
      ScanStep(ts, i, anchorFound);
      if IsAnchor(t) {
        anchorFound := true;
      }
      results := results[t.encounterId := entry];
      i := i + 1;
    }
  }

  /** The scanned dictionary holds exactly the encounters some timing writes, each with its last write's entry. */
  lemma ScanResult(ts: seq<Timing>)
    ensures forall e :: e in Scanned(ts, |ts|) <==> LastIndexOf(ts, e).Some?
    ensures forall e :: e in Scanned(ts, |ts|) ==> Scanned(ts, |ts|)[e] == TimingOf(ts, e)
    ensures forall e :: e !in Scanned(ts, |ts|) ==> TimingOf(ts, e) == None
  {
    assert ts[..|ts|] == ts;
    forall e ensures e in Scanned(ts, |ts|) <==> LastIndexOf(ts, e).Some?
      ensures e in Scanned(ts, |ts|) ==> Scanned(ts, |ts|)[e] == TimingOf(ts, e)
    {
      ScannedMeaning(ts, |ts|, e);
    }
  }

  // ---------------------------------------------------------------------
  // finalize_timing_integration

  /** No later instance with the same id carries an encounter. */
  predicate LastWithId(instances: seq<Instance>, k: nat)
    requires k < |instances|
  {
    forall j :: k < j < |instances| && instances[j].id == instances[k].id ==> instances[j].encounterId == ""
  }

  /**
   * The dict `{inst.id: inst.encounterId for inst in instances if inst.encounterId}`:
   * a later instance with the same id overrides an earlier one.
   */
  function InstanceEncounters(instances: seq<Instance>): (m: map<string, string>)
    ensures forall id :: id in m <==>
      exists k :: 0 <= k < |instances| && instances[k].id == id && instances[k].encounterId != ""
    ensures forall k :: 0 <= k < |instances| && instances[k].encounterId != "" && LastWithId(instances, k) ==>
      m[instances[k].id] == instances[k].encounterId
  {
    if instances == [] then map[]
    else
      var init := instances[..|instances| - 1];
      var last := instances[|instances| - 1];
      var m := InstanceEncounters(init);
      assert forall k :: 0 <= k < |init| ==> init[k] == instances[k];
      if last.encounterId != "" then m[last.id := last.encounterId] else m
  }

  /** The encounter a timing is measured from, or "" (None) if its reference does not resolve. */
  function EncounterFrom(instances: seq<Instance>, relId: string): string {
    var m := InstanceEncounters(instances);
    if relId in m then m[relId] else ""
  }

  /** `[t for t in timings if t.get("encounterId")]`. */
  function WithEncounter(ts: seq<Timing>): (r: seq<Timing>)
    ensures |r| <= |ts|
    ensures forall k :: 0 <= k < |r| ==> r[k].encounterId != "" && r[k] in ts
    ensures forall t :: t in ts && t.encounterId != "" ==> t in r
  {
    if ts == [] then []
    else if ts[0].encounterId != "" then [ts[0]] + WithEncounter(ts[1..])
    else WithEncounter(ts[1..])
  }

  /**
   * The comprehension is an order-preserving filter: a timing with an
   * encounter is kept in place and once, and one without is dropped, so the
   * kept timings of a split timeline are those of each part, in order.
   */
  lemma {:induction false} WithEncounterConcat(a: seq<Timing>, b: seq<Timing>)
    ensures WithEncounter(a + b) == WithEncounter(a) + WithEncounter(b)
    decreases |a|
  {
    if a == [] {
      assert a + b == b;
    } else {
      assert (a + b)[0] == a[0];
      assert (a + b)[1..] == a[1..] + b;
      WithEncounterConcat(a[1..], b);
    }
  }

  /** A single timing is kept exactly when it has an encounter. */
  lemma WithEncounterOne(t: Timing)
    ensures t.encounterId != "" ==> WithEncounter([t]) == [t]
    ensures t.encounterId == "" ==> WithEncounter([t]) == []
  {
    assert [t][1..] == [];
  }

  /** The timing with its encounter filled in from its reference instance. */
  function Attach(instances: seq<Instance>, t: Timing): Timing {
    t.(encounterId := EncounterFrom(instances, t.relativeFromScheduledInstanceId))
  }

  /** Every timing with its encounter filled in, in timeline order. */
  function AttachAll(instances: seq<Instance>, ts: seq<Timing>): (r: seq<Timing>)
    ensures |r| == |ts|
    ensures forall k :: 0 <= k < |ts| ==> r[k] == Attach(instances, ts[k])
  {
    if ts == [] then [] else [Attach(instances, ts[0])] + AttachAll(instances, ts[1..])
  }

  /** Some encounter of the list has identifier `e`. */
  predicate HasEncounter(encounters: seq<Encounter>, e: string) {
    exists k :: 0 <= k < |encounters| && encounters[k].id == e
  }

  /** The in-place write of epochs_visits_soa.py:72-75. */
  method AttachEncounters(instances: seq<Instance>, timings: array<Timing>)
    modifies timings
    ensures timings[..] == AttachAll(instances, old(timings[..]))
  {
    ghost var before := timings[..];
    var i := 0;
    while i < timings.Length
      invariant 0 <= i <= timings.Length
      invariant forall k :: 0 <= k < i ==> timings[k] == Attach(instances, before[k])
      invariant forall k :: i <= k < timings.Length ==> timings[k] == before[k]
    {
      timings[i] := Attach(instances, timings[i]);
      i := i + 1;
    }
    assert timings[..] == AttachAll(instances, before);
  }

  /**
   * epochs_visits_soa.py:82-88: the encounters, in list order, whose scanned
   * entry has a value.
   */
  method CollectTimed(encounters: seq<Encounter>, scanned: map<string, Option<Offset>>)
    returns (result: map<string, Offset>)
    ensures forall e :: e in result <==> HasEncounter(encounters, e) && e in scanned && scanned[e].Some?
    ensures forall e :: e in result ==> Some(result[e]) == scanned[e]
  {
    result := map[];
    var j := 0;
    while j < |encounters|
      invariant 0 <= j <= |encounters|
      invariant forall e :: e in result <==>
        (exists k :: 0 <= k < j && encounters[k].id == e) && e in scanned && scanned[e].Some?
      invariant forall e :: e in result ==> Some(result[e]) == scanned[e]
    {
      var id := encounters[j].id;
      if id in scanned && scanned[id].Some? {
        result := result[id := scanned[id].value];
      }
      j := j + 1;
    }
  }

  /**
   * epochs_visits_soa.py:62-88. The timings are updated in place with the
   * encounter they are measured from; the result maps each listed encounter
   * that received a value to that value.
   */
  method FinalizeTimingIntegration(instances: seq<Instance>, timings: array<Timing>, encounters: seq<Encounter>)
    returns (result: map<string, Offset>)
    modifies timings
    ensures timings[..] == AttachAll(instances, old(timings[..]))
    ensures forall e :: e in result <==>
      HasEncounter(encounters, e) && TimingOf(WithEncounter(timings[..]), e).Some?
    ensures forall e :: e in result ==> Some(result[e]) == TimingOf(WithEncounter(timings[..]), e)
  {
    AttachEncounters(instances, timings);
    var valid := WithEncounter(timings[..]);
    var scanned := ExtractDayOrWeekValues(valid);
    ScanResult(valid);
    result := CollectTimed(encounters, scanned);
  }
}
