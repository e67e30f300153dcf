/**
 * The order visits are created in (epochs_visits_soa.py:264-274): every
 * encounter is paired with its time value, untimed encounters standing
 * after every value, and the pairs are sorted stably by that key.
 */
module VisitOrder {
  import opened Common
  import opened Timing

  /** An encounter with its time value; None stands for `float("inf")`. */
  datatype Timed = Timed(time: Option<int>, enc: Encounter)

  /** The key order: values ascending, None after all of them. */
  predicate KeyLe(a: Option<int>, b: Option<int>) {
    b.None? || (a.Some? && a.value <= b.value)
  }

  predicate Sorted(s: seq<Timed>) {
    forall i, j :: 0 <= i < j < |s| ==> KeyLe(s[i].time, s[j].time)
  }

  /** The pairs whose key is `k`, in order: what stability preserves. */
  function WithKey(s: seq<Timed>, k: Option<int>): (r: seq<Timed>)
    ensures |r| <= |s|
  {
    if s == [] then []
    else (if s[0].time == k then [s[0]] else []) + WithKey(s[1..], k)
  }

  /** epochs_visits_soa.py:264-272: one pair per encounter, in list order. */
  function Pairs(encounters: seq<Encounter>, timing: map<string, Offset>): (r: seq<Timed>)
    ensures |r| == |encounters|
    ensures forall k :: 0 <= k < |r| ==>
      (r[k].enc == encounters[k] &&
       r[k].time == (if encounters[k].id in timing then Some(timing[encounters[k].id].value) else None))
  {
    if encounters == [] then []
    else
      var e := encounters[0];
      [Timed(if e.id in timing then Some(timing[e.id].value) else None, e)] + Pairs(encounters[1..], timing)
  }

  /** `x` placed before the first pair whose key is not smaller. */
  function Insert(x: Timed, s: seq<Timed>): (r: seq<Timed>)
    ensures |r| == |s| + 1
    ensures multiset(r) == multiset(s) + multiset{x}
  {
    if s == [] || KeyLe(x.time, s[0].time) then [x] + s
    else
      assert s == [s[0]] + s[1..];
      [s[0]] + Insert(x, s[1..])
  }

  /** list.sort(key=...), which is stable. */
  function SortByTime(s: seq<Timed>): (r: seq<Timed>)
    ensures |r| == |s|
    ensures multiset(r) == multiset(s)
  {
    if s == [] then []
    else
      assert s == [s[0]] + s[1..];
      Insert(s[0], SortByTime(s[1..]))
  }

  lemma {:induction false} InsertSorted(x: Timed, s: seq<Timed>)
    requires Sorted(s)
    ensures Sorted(Insert(x, s))
    decreases |s|
  {
    if s != [] && !KeyLe(x.time, s[0].time) {
      InsertSorted(x, s[1..]);
      var r := Insert(x, s[1..]);
      forall j | 0 <= j < |r| ensures KeyLe(s[0].time, r[j].time) {
        assert r[j] in multiset(r);
        if r[j] != x {
          assert r[j] in multiset(s[1..]);
          var m :| 1 <= m < |s| && s[m] == r[j];
        }
      }
    }
  }

  lemma {:induction false} InsertWithKey(x: Timed, s: seq<Timed>, k: Option<int>)
    ensures WithKey(Insert(x, s), k) == (if x.time == k then [x] else []) + WithKey(s, k)
    decreases |s|
  {
    if s == [] || KeyLe(x.time, s[0].time) {
      assert ([x] + s)[1..] == s;
    } else {
      InsertWithKey(x, s[1..], k);
      assert ([s[0]] + Insert(x, s[1..]))[1..] == Insert(x, s[1..]);
      assert s[0].time != x.time;
    }
  }

  /**
   * The sorted pairs are in key order (timed encounters ascending, untimed
   * ones last) and, for every key, the pairs with that key appear in the
   * order of the input: the sort is stable.
   */
  lemma {:induction false} SortByTimeCorrect(s: seq<Timed>)
    ensures Sorted(SortByTime(s))
    ensures forall k :: WithKey(SortByTime(s), k) == WithKey(s, k)
  {
    if s != [] {
      SortByTimeCorrect(s[1..]);
      InsertSorted(s[0], SortByTime(s[1..]));
      forall k ensures WithKey(SortByTime(s), k) == WithKey(s, k) {
        InsertWithKey(s[0], SortByTime(s[1..]), k);
      }
    }
  }
}
