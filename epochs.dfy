/**
 * Study epochs (epochs_visits_soa.py:135-239): the epoch type code with its
 * two name overrides, the element whose transition rules an epoch takes,
 * and the epoch creates, each numbered by the epoch's position.
 */
module Epochs {
  import opened Common
  import opened Text
  import opened Calls

  /** A study epoch of the design; absent strings are "". */
  datatype Epoch = Epoch(id: string, name: string, description: string, typeCode: string)

  /** A study element as far as epochs use it: the `text` of each transition rule, if any. */
  datatype ElementRules = ElementRules(id: string, startRule: Option<string>, endRule: Option<string>)

  /** A term of the epoch code list C99079. */
  datatype EpochTerm = EpochTerm(termUid: string, conceptId: string, sponsorName: string)

  /** One entry of the allowed epoch configurations: a type and the sponsor name it goes by. */
  datatype EpochConfig = EpochConfig(typeUid: string, typeName: string)

  /** The arguments of create_study_structure_study_epoch. */
  datatype EpochRequest = CreateEpoch(
    epochType: Option<string>,
    epochSubtype: string,
    startRule: Option<string>,
    endRule: Option<string>,
    order: int,
    description: string)

  /** The code an epoch is created under: two epoch names force their own code. */
  function EpochTypeCode(name: string, typeCode: string): (code: string)
    ensures Lower(name) == "screening" ==> code == "C48262"
    ensures Lower(name) == "follow-up" ==> code == "C99158"
    ensures code != typeCode ==> code == "C48262" || code == "C99158"
  {
    if Lower(name) == "screening" then "C48262"
    else if Lower(name) == "follow-up" then "C99158"
    else typeCode
  }

  /** The override looks at the name regardless of case. */
  lemma EpochTypeCodeIgnoresCase(name: string, typeCode: string)
    ensures EpochTypeCode(Upper(name), typeCode) == EpochTypeCode(name, typeCode)
  {
    LowerOfUpper(name);
  }

  function LastChar(s: string): char
    requires s != []
  {
    s[|s| - 1]
  }

  /**
   * The first element at or after `from` whose id ends in the same character
   * as the epoch id. `id[-1]` raises on an empty id, the element's first.
   */
  function ElementIndex(elements: seq<ElementRules>, epochId: string, from: nat): (r: Result<Option<nat>>)
    decreases |elements| - from
    ensures r.Ok? ==> forall j :: from <= j < |elements| && (r.value.None? || j < r.value.value) ==>
      elements[j].id != [] && epochId != [] && LastChar(elements[j].id) != LastChar(epochId)
    ensures r.Ok? && r.value.Some? ==>
      (from <= r.value.value < |elements| && elements[r.value.value].id != [] && epochId != [] &&
       LastChar(elements[r.value.value].id) == LastChar(epochId))
    ensures r.Err? ==>
      (r.error == IndexError && exists j :: from <= j < |elements| && (elements[j].id == [] || epochId == []))
    ensures (forall j :: from <= j < |elements| ==> elements[j].id != []) && (epochId != [] || from >= |elements|) ==> r.Ok?
  {
    if from >= |elements| then Ok(None)
    else if elements[from].id == [] || epochId == [] then Err(IndexError)
    else if LastChar(elements[from].id) == LastChar(epochId) then Ok(Some(from))
    else ElementIndex(elements, epochId, from + 1)
  }

  /** The start and end rule texts of the matched element, or None for both without a match. */
  function RulesOf(elements: seq<ElementRules>, idx: Option<nat>): (r: (Option<string>, Option<string>))
    ensures idx.Some? && idx.value < |elements| ==>
      r == (elements[idx.value].startRule, elements[idx.value].endRule)
    ensures idx.None? ==> r == (None, None)
  {
    if idx.Some? && idx.value < |elements| then (elements[idx.value].startRule, elements[idx.value].endRule)
    else (None, None)
  }

  /** The type of the first configuration named like the term, if any. */
  function EpochTypeFor(configs: seq<EpochConfig>, sponsorName: string): (r: Option<string>)
    ensures r.Some? ==>
      exists k :: 0 <= k < |configs| && configs[k].typeName == sponsorName && configs[k].typeUid == r.value &&
        forall j :: 0 <= j < k ==> configs[j].typeName != sponsorName
    ensures r.None? ==> forall k :: 0 <= k < |configs| ==> configs[k].typeName != sponsorName
  {
    if configs == [] then None
    else if configs[0].typeName == sponsorName then Some(configs[0].typeUid)
    else EpochTypeFor(configs[1..], sponsorName)
  }

  /** The element match succeeds for every epoch before `n`. */
  predicate ElementsResolve(epochs: seq<Epoch>, elements: seq<ElementRules>, n: nat) {
    n <= |epochs| && forall j :: 0 <= j < n ==> ElementIndex(elements, epochs[j].id, 0).Ok?
  }

  /** The create for one code-list term of epoch `i`. */
  function EpochCreate(epochs: seq<Epoch>, elements: seq<ElementRules>, configs: seq<EpochConfig>,
                       i: nat, term: EpochTerm): EpochRequest
    requires ElementsResolve(epochs, elements, i + 1)
  {
    var rules := RulesOf(elements, ElementIndex(elements, epochs[i].id, 0).value);
    CreateEpoch(EpochTypeFor(configs, Lower(term.sponsorName)), term.termUid,
                rules.0, rules.1, i + 1, epochs[i].description)
  }

  /** The creates of epoch `i`, for the terms from index `t` on, one per term with the epoch's code. */
  function EpochPlan(epochs: seq<Epoch>, elements: seq<ElementRules>, terms: seq<EpochTerm>,
                     configs: seq<EpochConfig>, i: nat, t: nat): (p: seq<Planned<string, EpochRequest>>)
    requires ElementsResolve(epochs, elements, i + 1)
    decreases |terms| - t
    ensures forall k :: 0 <= k < |p| ==> p[k].key == epochs[i].id && p[k].req.order == i + 1
    ensures EpochTypeCode(epochs[i].name, epochs[i].typeCode) == "" ==> p == []
    ensures t >= |terms| ==> p == []
  {
    var code := EpochTypeCode(epochs[i].name, epochs[i].typeCode);
    if code == "" || t >= |terms| then []
    else
      var rest := EpochPlan(epochs, elements, terms, configs, i, t + 1);
      if terms[t].conceptId == code then [Planned(epochs[i].id, EpochCreate(epochs, elements, configs, i, terms[t]))] + rest
      else rest
  }

  /** One step of the term loop: term `t` contributes a create iff its concept is the epoch's code. */
  lemma EpochPlanAt(epochs: seq<Epoch>, elements: seq<ElementRules>, terms: seq<EpochTerm>,
                    configs: seq<EpochConfig>, i: nat, t: nat)
    requires ElementsResolve(epochs, elements, i + 1)
    requires EpochTypeCode(epochs[i].name, epochs[i].typeCode) != "" && t < |terms|
    ensures EpochPlan(epochs, elements, terms, configs, i, t) ==
      (if terms[t].conceptId == EpochTypeCode(epochs[i].name, epochs[i].typeCode)
       then [Planned(epochs[i].id, EpochCreate(epochs, elements, configs, i, terms[t]))] +
            EpochPlan(epochs, elements, terms, configs, i, t + 1)
       else EpochPlan(epochs, elements, terms, configs, i, t + 1))
  {
  }

  /** The creates of the first `n` epochs, in order. */
  function EpochsPlan(epochs: seq<Epoch>, elements: seq<ElementRules>, terms: seq<EpochTerm>,
                      configs: seq<EpochConfig>, n: nat): (p: seq<Planned<string, EpochRequest>>)
    requires ElementsResolve(epochs, elements, n)
    ensures forall k :: 0 <= k < |p| ==> 1 <= p[k].req.order <= n && p[k].key == epochs[p[k].req.order - 1].id
  {
    if n == 0 then []
    else EpochsPlan(epochs, elements, terms, configs, n - 1) + EpochPlan(epochs, elements, terms, configs, n - 1, 0)
  }

  predicate OrdersAscend(p: seq<Planned<string, EpochRequest>>) {
    forall k, l :: 0 <= k < l < |p| ==> p[k].req.order <= p[l].req.order
  }

  /** Epoch creates are issued in the order of the epochs, each numbered by its position plus one. */
  lemma {:induction false} EpochOrdersAscend(epochs: seq<Epoch>, elements: seq<ElementRules>, terms: seq<EpochTerm>,
                                             configs: seq<EpochConfig>, n: nat)
    requires ElementsResolve(epochs, elements, n)
    ensures OrdersAscend(EpochsPlan(epochs, elements, terms, configs, n))
  {
    if n > 0 {
      EpochOrdersAscend(epochs, elements, terms, configs, n - 1);
      var done := EpochsPlan(epochs, elements, terms, configs, n - 1);
      var last := EpochPlan(epochs, elements, terms, configs, n - 1, 0);
      AscendAppend(done, last, n);
    }
  }

  /** Two ascending runs, the first at most `c` and the second all `c`, ascend together. */
  lemma AscendAppend(p: seq<Planned<string, EpochRequest>>, q: seq<Planned<string, EpochRequest>>, c: int)
    requires OrdersAscend(p) && forall k :: 0 <= k < |p| ==> p[k].req.order <= c
    requires forall l :: 0 <= l < |q| ==> q[l].req.order == c
    ensures OrdersAscend(p + q)
  {
    forall k, l | 0 <= k < l < |p + q| ensures (p + q)[k].req.order <= (p + q)[l].req.order {
      if l < |p| {
        assert (p + q)[k] == p[k] && (p + q)[l] == p[l];
      } else if k < |p| {
        assert (p + q)[k] == p[k] && (p + q)[l] == q[l - |p|];
      } else {
        assert (p + q)[k] == q[k - |p|] && (p + q)[l] == q[l - |p|];
      }
    }
  }

  /** Whether the epoch creates run to the end, or the first epoch whose element match raises. */
  function FirstUnmatched(epochs: seq<Epoch>, elements: seq<ElementRules>, from: nat): (r: Option<nat>)
    decreases |epochs| - from
    ensures r.Some? ==> from <= r.value < |epochs| && ElementIndex(elements, epochs[r.value].id, 0).Err?
    ensures forall j :: from <= j < |epochs| && (r.None? || j < r.value) ==>
      ElementIndex(elements, epochs[j].id, 0).Ok?
  {
    if from >= |epochs| then None
    else if ElementIndex(elements, epochs[from].id, 0).Err? then Some(from)
    else FirstUnmatched(epochs, elements, from + 1)
  }

  /** A server that always answers: an epoch create that raises is not modelled. */
  function Answered(server: (seq<EpochRequest>, EpochRequest) -> string): (seq<EpochRequest>, EpochRequest) -> Option<string> {
    (h: seq<EpochRequest>, q: EpochRequest) => Some(server(h, q))
  }

  /** The term loop for epoch `i` (epochs_visits_soa.py:206-239). */
  method CreateEpochTerms(epochs: seq<Epoch>, elements: seq<ElementRules>, terms: seq<EpochTerm>,
                          configs: seq<EpochConfig>, i: nat, server: (seq<EpochRequest>, EpochRequest) -> string,
                          log: seq<EpochRequest>, uids: map<string, string>)
    returns (log': seq<EpochRequest>, uids': map<string, string>)
    requires ElementsResolve(epochs, elements, i + 1)
    ensures log' == log + Reqs(EpochPlan(epochs, elements, terms, configs, i, 0))
    ensures uids' == Record(uids, log, EpochPlan(epochs, elements, terms, configs, i, 0), Answered(server))
  {
    var epoch := epochs[i];
    var rules := RulesOf(elements, ElementIndex(elements, epoch.id, 0).value);
    var code := EpochTypeCode(epoch.name, epoch.typeCode);
    ghost var plan := EpochPlan(epochs, elements, terms, configs, i, 0);
    log', uids' := log, uids;
    if code != "" {
      var t := 0;
      while t < |terms|
        invariant 0 <= t <= |terms|
        invariant log' + Reqs(EpochPlan(epochs, elements, terms, configs, i, t)) == log + Reqs(plan)
        invariant Record(uids', log', EpochPlan(epochs, elements, terms, configs, i, t), Answered(server)) ==
          Record(uids, log, plan, Answered(server))
      {
        EpochPlanAt(epochs, elements, terms, configs, i, t);
        if terms[t].conceptId == code {
          var req := CreateEpoch(EpochTypeFor(configs, Lower(terms[t].sponsorName)), terms[t].termUid,
                                 rules.0, rules.1, i + 1, epoch.description);
          assert req == EpochCreate(epochs, elements, configs, i, terms[t]);
          RecordCons(uids', log', Planned(epoch.id, req), EpochPlan(epochs, elements, terms, configs, i, t + 1),
                     Answered(server));
          var uid := server(log', req);
          log' := log' + [req];
          uids' := uids'[epoch.id := uid];
        }
        t := t + 1;
      }
    }
  }

  /**
   * epochs_visits_soa.py:146-239. Each epoch, in order, is matched to an
   * element; its code selects the terms to create it under; each create is
   * logged and the answered uid stored under the epoch id. An element match
   * that raises stops the whole step after the creates already made.
   * `server` answers each create given the creates before it.
   */
  method CreateEpochs(epochs: seq<Epoch>, elements: seq<ElementRules>, terms: seq<EpochTerm>,
                      configs: seq<EpochConfig>, server: (seq<EpochRequest>, EpochRequest) -> string,
                      log: seq<EpochRequest>)
    returns (r: Result<map<string, string>>, log': seq<EpochRequest>)
    ensures var n := match FirstUnmatched(epochs, elements, 0) case Some(i) => i case None => |epochs|;
      ElementsResolve(epochs, elements, n) &&
      log' == log + Reqs(EpochsPlan(epochs, elements, terms, configs, n))
    ensures r.Err? <==> FirstUnmatched(epochs, elements, 0).Some?
    ensures r.Err? ==> r.error == IndexError
    ensures r.Ok? ==>
      (ElementsResolve(epochs, elements, |epochs|) &&
       r.value == Record(map[], log, EpochsPlan(epochs, elements, terms, configs, |epochs|), Answered(server)))
  {
    var uids: map<string, string> := map[];
    log' := log;
    var i := 0;
    while i < |epochs|
      invariant 0 <= i <= |epochs|
      invariant ElementsResolve(epochs, elements, i)
      invariant FirstUnmatched(epochs, elements, 0) == FirstUnmatched(epochs, elements, i)
      invariant log' == log + Reqs(EpochsPlan(epochs, elements, terms, configs, i))
      invariant uids == Record(map[], log, EpochsPlan(epochs, elements, terms, configs, i), Answered(server))
    {
      var idx := ElementIndex(elements, epochs[i].id, 0);
      if idx.Err? {
        assert FirstUnmatched(epochs, elements, i) == Some(i);
        return Err(idx.error), log';
      }
      assert FirstUnmatched(epochs, elements, i) == FirstUnmatched(epochs, elements, i + 1);
      assert ElementsResolve(epochs, elements, i + 1);
      RecordThen(map[], log, EpochsPlan(epochs, elements, terms, configs, i),
                 EpochPlan(epochs, elements, terms, configs, i, 0), Answered(server), uids, log');
      log', uids := CreateEpochTerms(epochs, elements, terms, configs, i, server, log', uids);
      i := i + 1;
    }
    assert FirstUnmatched(epochs, elements, i) == None;
    return Ok(uids), log';
  }
}
