/**
 * Remote calls as a log. A call the uploader makes is appended to a
 * sequence of requests; the remote side is a function from the requests
 * already made and the new request to its answer, so the same model covers
 * any server behaviour.
 */
module Calls {
  import opened Common

  /** A request that is about to be issued, tagged with the key its answer is stored under. */
  datatype Planned<K, R> = Planned(key: K, req: R)

  /** The requests of a plan, in order. */
  function Reqs<K, R>(plan: seq<Planned<K, R>>): (r: seq<R>)
    ensures |r| == |plan|
    ensures forall k :: 0 <= k < |plan| ==> r[k] == plan[k].req
  {
    if plan == [] then [] else [plan[0].req] + Reqs(plan[1..])
  }

  lemma ReqsAppend<K, R>(p: seq<Planned<K, R>>, q: seq<Planned<K, R>>)
    ensures Reqs(p + q) == Reqs(p) + Reqs(q)
  {
  }

  /**
   * A dictionary filled by issuing the planned requests in order and storing
   * each answered uid under the request's key; None is a call that raised,
   * which leaves the dictionary as it was.
   */
  function Record<K, R>(m: map<K, string>, history: seq<R>, plan: seq<Planned<K, R>>,
                        server: (seq<R>, R) -> Option<string>): map<K, string>
    decreases |plan|
  {
    if plan == [] then m
    else
      var answer := server(history, plan[0].req);
      var m' := if answer.Some? then m[plan[0].key := answer.value] else m;
      Record(m', history + [plan[0].req], plan[1..], server)
  }

  lemma {:induction false} RecordAppend<K, R>(m: map<K, string>, history: seq<R>,
                                              p: seq<Planned<K, R>>, q: seq<Planned<K, R>>,
                                              server: (seq<R>, R) -> Option<string>)
    ensures Record(m, history, p + q, server) ==
      Record(Record(m, history, p, server), history + Reqs(p), q, server)
    decreases |p|
  {
    if p == [] {
      assert p + q == q;
      assert history + Reqs(p) == history;
    } else {
      var answer := server(history, p[0].req);
      var m' := if answer.Some? then m[p[0].key := answer.value] else m;
      assert (p + q)[0] == p[0] && (p + q)[1..] == p[1..] + q;
      RecordAppend(m', history + [p[0].req], p[1..], q, server);
      assert history + [p[0].req] + Reqs(p[1..]) == history + Reqs(p);
    }
  }

  /** Issuing a plan request by request: the first answer, then the rest. */
  lemma RecordCons<K, R>(m: map<K, string>, history: seq<R>, x: Planned<K, R>, rest: seq<Planned<K, R>>,
                         server: (seq<R>, R) -> Option<string>)
    ensures Record(m, history, [x] + rest, server) ==
      Record(if server(history, x.req).Some? then m[x.key := server(history, x.req).value] else m,
             history + [x.req], rest, server)
    ensures history + Reqs([x] + rest) == history + [x.req] + Reqs(rest)
  {
    assert ([x] + rest)[0] == x && ([x] + rest)[1..] == rest;
  }

  /** Issuing a plan after another continues the dictionary and the log of the first. */
  lemma RecordThen<K, R>(m: map<K, string>, history: seq<R>, done: seq<Planned<K, R>>, next: seq<Planned<K, R>>,
                         server: (seq<R>, R) -> Option<string>, m': map<K, string>, history': seq<R>)
    requires m' == Record(m, history, done, server) && history' == history + Reqs(done)
    ensures Record(m', history', next, server) == Record(m, history, done + next, server)
    ensures history' + Reqs(next) == history + Reqs(done + next)
  {
    RecordAppend(m, history, done, next, server);
    HistoryThen(history, done, next);
  }

  /** The history after two plans is the history after their concatenation. */
  lemma HistoryThen<K, R>(history: seq<R>, done: seq<Planned<K, R>>, next: seq<Planned<K, R>>)
    ensures history + Reqs(done) + Reqs(next) == history + Reqs(done + next)
  {
    ReqsAppend(done, next);
    Associative(history, Reqs(done), Reqs(next));
  }

  lemma Associative<T>(a: seq<T>, b: seq<T>, c: seq<T>)
    ensures a + b + c == a + (b + c)
  {
  }

  /** The answer the server gives to planned request `k`, after the requests before it. */
  function AnswerAt<K, R>(history: seq<R>, plan: seq<Planned<K, R>>, k: nat,
                          server: (seq<R>, R) -> Option<string>): Option<string>
    requires k < |plan|
  {
    server(history + Reqs(plan[..k]), plan[k].req)
  }

  /** Some planned request under key `e` was answered. */
  ghost predicate AnsweredUnder<K, R>(history: seq<R>, plan: seq<Planned<K, R>>, server: (seq<R>, R) -> Option<string>, e: K) {
    exists k :: 0 <= k < |plan| && plan[k].key == e && AnswerAt(history, plan, k, server).Some?
  }

  /** The answers of a plan's tail, issued after its head, are the plan's later answers. */
  lemma AnswerAtTail<K, R>(history: seq<R>, plan: seq<Planned<K, R>>, k: nat, server: (seq<R>, R) -> Option<string>)
    requires k + 1 < |plan|
    ensures AnswerAt(history + [plan[0].req], plan[1..], k, server) == AnswerAt(history, plan, k + 1, server)
  {
    assert plan[1..][..k] == plan[1..k + 1];
    assert Reqs(plan[..k + 1]) == [plan[0].req] + Reqs(plan[1..k + 1]);
    assert history + [plan[0].req] + Reqs(plan[1..][..k]) == history + Reqs(plan[..k + 1]);
  }

  lemma AnsweredUnderCons<K, R>(history: seq<R>, plan: seq<Planned<K, R>>, server: (seq<R>, R) -> Option<string>, e: K)
    requires plan != []
    ensures AnsweredUnder(history, plan, server, e) <==>
      (plan[0].key == e && server(history, plan[0].req).Some?) ||
      AnsweredUnder(history + [plan[0].req], plan[1..], server, e)
  {
    var h' := history + [plan[0].req];
    assert AnswerAt(history, plan, 0, server) == server(history, plan[0].req) by {
      assert history + Reqs(plan[..0]) == history;
    }
    if AnsweredUnder(h', plan[1..], server, e) {
      var k :| 0 <= k < |plan| - 1 && plan[1..][k].key == e && AnswerAt(h', plan[1..], k, server).Some?;
      AnswerAtTail(history, plan, k, server);
      assert plan[k + 1].key == e;
    }
    if AnsweredUnder(history, plan, server, e) && !(plan[0].key == e && server(history, plan[0].req).Some?) {
      var k :| 0 <= k < |plan| && plan[k].key == e && AnswerAt(history, plan, k, server).Some?;
      assert k != 0;
      AnswerAtTail(history, plan, k - 1, server);
      assert plan[1..][k - 1].key == e;
    }
  }

  /**
   * A key is in the filled dictionary iff it was there before or some
   * planned request under it was answered.
   */
  lemma {:induction false} RecordKeys<K, R>(m: map<K, string>, history: seq<R>, plan: seq<Planned<K, R>>,
                                            server: (seq<R>, R) -> Option<string>, e: K)
    ensures e in Record(m, history, plan, server) <==> e in m || AnsweredUnder(history, plan, server, e)
    decreases |plan|
  {
    if plan != [] {
      var answer := server(history, plan[0].req);
      var m' := if answer.Some? then m[plan[0].key := answer.value] else m;
      RecordKeys(m', history + [plan[0].req], plan[1..], server, e);
      AnsweredUnderCons(history, plan, server, e);
    }
  }
}
