/**
 * Running the uploader's loops: each step appends requests to a log and may
 * raise; the first exception ends the loop and escapes to the caller.
 */
module Steps {
  import opened Common

  /** What a step leaves behind: the log and the exception it raised, if any. */
  datatype Walk<R> = Walk(log: seq<R>, raised: Option<Failure>)

  // ---------------------------------------------------------------------
  // Running a sequence of steps, stopping at the first exception

  /** The steps for `xs` in order, each on the log the previous one left; an exception ends the run. */
  function Run<T, R>(xs: seq<T>, step: (T, seq<R>) -> Walk<R>, log: seq<R>): Walk<R>
    decreases |xs|
  {
    if xs == [] then Walk(log, None)
    else
      var before := Run(xs[..|xs| - 1], step, log);
      if before.raised.Some? then before else step(xs[|xs| - 1], before.log)
  }

  lemma RunNext<T, R>(xs: seq<T>, step: (T, seq<R>) -> Walk<R>, log: seq<R>, i: nat)
    requires i < |xs| && Run(xs[..i], step, log).raised.None?
    ensures Run(xs[..i + 1], step, log) == step(xs[i], Run(xs[..i], step, log).log)
  {
    assert xs[..i + 1][..i] == xs[..i];
  }

  /** Once a step raises, no later step is taken and the run ends with that exception. */
  lemma {:induction false} RunStopsAtError<T, R>(xs: seq<T>, step: (T, seq<R>) -> Walk<R>, log: seq<R>, i: nat)
    requires i <= |xs| && Run(xs[..i], step, log).raised.Some?
    ensures Run(xs, step, log) == Run(xs[..i], step, log)
    decreases |xs|
  {
    if i < |xs| {
      var init := xs[..|xs| - 1];
      assert init[..i] == xs[..i];
      RunStopsAtError(init, step, log, i);
    } else {
      assert xs[..i] == xs;
    }
  }

  /** `after` extends `before` by requests that `allowed` accepts. */
  ghost predicate Appends<R>(before: seq<R>, after: seq<R>, allowed: R -> bool) {
    |before| <= |after| && after[..|before|] == before &&
    forall k :: |before| <= k < |after| ==> allowed(after[k])
  }

  lemma AppendsTransitive<R>(a: seq<R>, b: seq<R>, c: seq<R>, allowed: R -> bool)
    requires Appends(a, b, allowed) && Appends(b, c, allowed)
    ensures Appends(a, c, allowed)
  {
    assert c[..|a|] == c[..|b|][..|a|];
  }

  /** A run of steps that each only append allowed requests only appends allowed requests. */
  lemma {:induction false} RunAppends<T, R>(xs: seq<T>, step: (T, seq<R>) -> Walk<R>, log: seq<R>, allowed: R -> bool)
    requires forall x, l :: Appends(l, step(x, l).log, allowed)
    ensures Appends(log, Run(xs, step, log).log, allowed)
    decreases |xs|
  {
    if xs != [] {
      var before := Run(xs[..|xs| - 1], step, log);
      RunAppends(xs[..|xs| - 1], step, log, allowed);
      if before.raised.None? {
        AppendsTransitive(log, before.log, step(xs[|xs| - 1], before.log).log, allowed);
      }
    }
  }

  /** Walking `xs + ys` walks `xs`, then walks `ys` from where `xs` left the log. */
  lemma {:induction false} RunConcat<T, R>(xs: seq<T>, ys: seq<T>, step: (T, seq<R>) -> Walk<R>, log: seq<R>)
    requires Run(xs, step, log).raised.None?
    ensures Run(xs + ys, step, log) == Run(ys, step, Run(xs, step, log).log)
    decreases |ys|
  {
    if ys == [] {
      assert xs + ys == xs;
    } else {
      var init := ys[..|ys| - 1];
      assert (xs + ys)[..|xs + ys| - 1] == xs + init;
      RunConcat(xs, init, step, log);
    }
  }

  // ---------------------------------------------------------------------
  // A search loop that breaks at the first match

  /** The index of the first element at or after `from` that `wanted` accepts. */
  function FirstWhere<T>(xs: seq<T>, wanted: T -> bool, from: nat): (r: Option<nat>)
    decreases |xs| - from
    ensures r.Some? ==> from <= r.value < |xs|
  {
    if from >= |xs| then None
    else if wanted(xs[from]) then Some(from)
    else FirstWhere(xs, wanted, from + 1)
  }

  /** The search finds the first accepted element, and nothing only when no element is accepted. */
  lemma {:induction false} FirstWhereSpec<T>(xs: seq<T>, wanted: T -> bool, from: nat)
    decreases |xs| - from
    ensures FirstWhere(xs, wanted, from).Some? ==>
      wanted(xs[FirstWhere(xs, wanted, from).value]) &&
      forall j :: from <= j < FirstWhere(xs, wanted, from).value ==> !wanted(xs[j])
    ensures FirstWhere(xs, wanted, from).None? ==> forall j :: from <= j < |xs| ==> !wanted(xs[j])
  {
    if from < |xs| && !wanted(xs[from]) {
      FirstWhereSpec(xs, wanted, from + 1);
    }
  }

  /** The first accepted element at or after `from` is the one the search finds. */
  lemma {:induction false} FirstWhereAt<T>(xs: seq<T>, wanted: T -> bool, from: nat, k: nat)
    requires from <= k < |xs| && wanted(xs[k])
    requires forall j :: from <= j < k ==> !wanted(xs[j])
    ensures FirstWhere(xs, wanted, from) == Some(k)
    decreases k - from
  {
    if from < k {
      FirstWhereAt(xs, wanted, from + 1, k);
    }
  }
}
