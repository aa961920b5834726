/**
 * The bounded worker pool of the interop runner. Runners share the counter `next` and the array
 * `results`; between two awaits a runner stores a result and claims its next item. Which busy runner
 * resumes next is left open, so what is proved holds for every interleaving.
 */
module WorkerPool {
  import opened Wrappers

  /** The first `n` indices, each once and in order. */
  function UpTo(n: nat): (s: seq<nat>)
    ensures |s| == n && forall i | 0 <= i < n :: s[i] == i
  {
    if n == 0 then [] else UpTo(n - 1) + [n - 1]
  }

  lemma UpToStep(n: nat)
    ensures UpTo(n) + [n] == UpTo(n + 1)
  {
  }

  /** Index `i` is not yet claimed, in the hands of a runner, or settled. */
  ghost predicate Accounted<T, R, E>(items: seq<T>, worker: (T, nat) -> Result<R, E>, results: seq<Option<R>>,
                                     busy: map<nat, nat>, next: nat, i: nat)
    requires i < |items| == |results|
  {
    || next <= i
    || (exists r :: r in busy && busy[r] == i)
    || (results[i].Some? && worker(items[i], i) == Success(results[i].value))
  }

  ghost predicate Inv<T, R, E>(items: seq<T>, worker: (T, nat) -> Result<R, E>, results: seq<Option<R>>,
                               busy: map<nat, nat>, next: nat)
  {
    && |items| == |results|
    && (forall r | r in busy :: busy[r] < next && busy[r] < |items|)
    && (forall r, q | r in busy && q in busy && busy[r] == busy[q] :: r == q)
    && (forall i: nat | i < |items| :: Accounted(items, worker, results, busy, next, i))
  }

  /** A runner that stored its result and claimed again, or ended. */
  function Resumed(busy: map<nat, nat>, runner: nat, next: nat, n: nat): map<nat, nat> {
    if next < n then busy[runner := next] else busy - {runner}
  }

  lemma ResumeKeepsInv<T, R, E>(items: seq<T>, worker: (T, nat) -> Result<R, E>, results: seq<Option<R>>,
                                busy: map<nat, nat>, next: nat, runner: nat, v: R)
    requires Inv(items, worker, results, busy, next) && runner in busy
    requires worker(items[busy[runner]], busy[runner]) == Success(v)
    ensures var after := Resumed(busy, runner, next, |items|);
            && Inv(items, worker, results[busy[runner] := Some(v)], after, next + 1)
            && |after| == if next < |items| then |busy| else |busy| - 1
  {
    var after := Resumed(busy, runner, next, |items|);
    if next < |items| {
      assert after.Keys == busy.Keys;
    } else {
      assert after.Keys == busy.Keys - {runner};
    }
    var stored, bound := results[busy[runner] := Some(v)], next + 1;
    forall k: nat | k < |items|
      ensures Accounted(items, worker, stored, after, bound, k)
    {
      assert Accounted(items, worker, results, busy, next, k);
      if k == next {
        assert after[runner] == k;
      } else if k != busy[runner] && k < next && !(results[k].Some? && worker(items[k], k) == Success(results[k].value)) {
        var r :| r in busy && busy[r] == k;
        assert r in after && after[r] == k;
      }
    }
  }

  // ---------------------------------------------------------------------------------------
  // What the runners hold, from one await to the next.
  // ---------------------------------------------------------------------------------------

  ghost predicate FirstClaims(busy: map<nat, nat>, workers: nat, n: nat) {
    && (forall r: nat :: r in busy <==> r < workers && r < n)
    && (forall r | r in busy :: busy[r] == r)
  }

  ghost predicate ResumedBySome(busy: map<nat, nat>, after: map<nat, nat>, next: nat, n: nat) {
    exists r :: r in busy && after == Resumed(busy, r, next, n)
  }

  /** From one state to the next, some busy runner resumes; `next` has by then been read once per claim. */
  ghost predicate IsTrace(trace: seq<map<nat, nat>>, workers: nat, n: nat) {
    && trace != [] && FirstClaims(trace[0], workers, n)
    && forall k | 0 < k < |trace| :: ResumedBySome(trace[k - 1], trace[k], workers + k - 1, n)
  }

  lemma ResumingIsBySome(busy: map<nat, nat>, r: nat, next: nat, n: nat)
    requires r in busy
    ensures ResumedBySome(busy, Resumed(busy, r, next, n), next, n)
  {
  }

  lemma TraceGrows(trace: seq<map<nat, nat>>, workers: nat, n: nat, r: nat)
    requires IsTrace(trace, workers, n) && r in trace[|trace| - 1]
    ensures IsTrace(trace + [Resumed(trace[|trace| - 1], r, workers + |trace| - 1, n)], workers, n)
  {
    var last, next := trace[|trace| - 1], workers + |trace| - 1;
    var more := trace + [Resumed(last, r, next, n)];
    ResumingIsBySome(last, r, next, n);
    forall k | 0 < k < |more|
      ensures ResumedBySome(more[k - 1], more[k], workers + k - 1, n)
    {
      if k < |trace| {
        assert more[k - 1] == trace[k - 1] && more[k] == trace[k];
      } else {
        assert more[k - 1] == last && more[k] == Resumed(last, r, next, n) && workers + k - 1 == next;
      }
    }
  }

  ghost predicate HoldsDistinct(busy: map<nat, nat>, bound: nat, n: nat) {
    && (forall r | r in busy :: busy[r] < bound && busy[r] < n)
    && (forall r, q | r in busy && q in busy && busy[r] == busy[q] :: r == q)
  }

  lemma {:induction false} FirstClaimsSize(busy: map<nat, nat>, workers: nat, n: nat)
    requires FirstClaims(busy, workers, n)
    ensures |busy| == Min(workers, n)
    decreases workers
  {
    if workers == 0 || n == 0 {
      assert busy.Keys == {};
    } else if workers <= n {
      FirstClaimsSize(busy - {workers - 1}, workers - 1, n);
      assert busy.Keys == (busy - {workers - 1}).Keys + {workers - 1};
    } else {
      FirstClaimsSize(busy, workers - 1, n);
    }
  }

  lemma ResumedSize(busy: map<nat, nat>, r: nat, next: nat, n: nat)
    requires r in busy
    ensures |Resumed(busy, r, next, n)| == if next < n then |busy| else |busy| - 1
  {
  }

  /** At most `workers` items are being worked on at any time, and never more than there are. */
  lemma {:induction false} NeverMoreThanWorkers(trace: seq<map<nat, nat>>, workers: nat, n: nat, k: nat)
    requires IsTrace(trace, workers, n) && k < |trace|
    ensures |trace[k]| <= Min(workers, n)
    decreases k
  {
    if k == 0 {
      FirstClaimsSize(trace[0], workers, n);
    } else {
      NeverMoreThanWorkers(trace, workers, n, k - 1);
      assert ResumedBySome(trace[k - 1], trace[k], workers + k - 1, n);
      var r :| r in trace[k - 1] && trace[k] == Resumed(trace[k - 1], r, workers + k - 1, n);
      ResumedSize(trace[k - 1], r, workers + k - 1, n);
    }
  }

  lemma {:induction false} HeldAreDistinct(trace: seq<map<nat, nat>>, workers: nat, n: nat, k: nat)
    requires IsTrace(trace, workers, n) && k < |trace|
    ensures HoldsDistinct(trace[k], workers + k, n)
    decreases k
  {
    if k > 0 {
      HeldAreDistinct(trace, workers, n, k - 1);
      assert ResumedBySome(trace[k - 1], trace[k], workers + k - 1, n);
    }
  }

  /** No index is ever in the hands of two runners, at whatever times. */
  lemma {:induction false} OneRunnerPerIndex(trace: seq<map<nat, nat>>, workers: nat, n: nat, j: nat, k: nat, r: nat, q: nat)
    requires IsTrace(trace, workers, n) && j <= k < |trace|
    requires r in trace[j] && q in trace[k] && trace[j][r] == trace[k][q]
    ensures r == q
    decreases k
  {
    HeldAreDistinct(trace, workers, n, j);
    if j < k {
      assert ResumedBySome(trace[k - 1], trace[k], workers + k - 1, n);
      OneRunnerPerIndex(trace, workers, n, j, k - 1, r, q);
    }
  }

  function Values<R>(results: seq<Option<R>>): (values: seq<R>)
    requires forall i | 0 <= i < |results| :: results[i].Some?
    ensures |values| == |results| && forall i | 0 <= i < |values| :: results[i] == Some(values[i])
  {
    seq(|results|, i requires 0 <= i < |results| => results[i].value)
  }

  /** Each runner claims once before the first of them awaits. */
  method StartRunners(n: nat, workers: nat) returns (busy: map<nat, nat>, next: nat, ghost claims: seq<nat>)
    ensures next == workers && claims == UpTo(Min(workers, n))
    ensures FirstClaims(busy, workers, n)
  {
    next, busy, claims := 0, map[], [];
    for runner := 0 to workers
      invariant next == runner
      invariant forall r: nat :: r in busy <==> r < runner && r < n
      invariant forall r | r in busy :: busy[r] == r
      invariant claims == UpTo(Min(next, n))
    {
      var i := next;
      next := next + 1;
      if i < n {
        UpToStep(i);
        busy := busy[runner := i];
        claims := claims + [i];
      }
    }
  }

  lemma StartIsInv<T, R, E>(items: seq<T>, worker: (T, nat) -> Result<R, E>, results: seq<Option<R>>,
                            busy: map<nat, nat>, next: nat)
    requires |results| == |items|
    requires FirstClaims(busy, next, |items|)
    ensures Inv(items, worker, results, busy, next)
  {
    forall i: nat | i < |items|
      ensures Accounted(items, worker, results, busy, next, i)
    {
      assert i < next ==> i in busy && busy[i] == i;
    }
  }

  lemma EndIsComplete<T, R, E>(items: seq<T>, worker: (T, nat) -> Result<R, E>, results: seq<Option<R>>,
                               busy: map<nat, nat>, next: nat)
    requires Inv(items, worker, results, busy, next) && busy == map[] && |items| <= next
    ensures forall i: nat | i < |items| :: results[i].Some? && worker(items[i], i) == Success(results[i].value)
  {
    forall i: nat | i < |items|
      ensures results[i].Some? && worker(items[i], i) == Success(results[i].value)
    {
      assert Accounted(items, worker, results, busy, next, i);
    }
  }

  /** The state of the pool whenever all its busy runners await. */
  ghost predicate Running<T, R, E>(items: seq<T>, worker: (T, nat) -> Result<R, E>, workers: nat, results: seq<Option<R>>,
                                   busy: map<nat, nat>, next: nat, claims: seq<nat>, trace: seq<map<nat, nat>>)
  {
    && Inv(items, worker, results, busy, next)
    && claims == UpTo(Min(next, |items|)) && (next < |items| ==> busy != map[])
    && IsTrace(trace, workers, |items|) && trace[|trace| - 1] == busy && next == workers + |trace| - 1
  }

  lemma ResumeKeepsRunning<T, R, E>(items: seq<T>, worker: (T, nat) -> Result<R, E>, workers: nat, results: seq<Option<R>>,
                                    busy: map<nat, nat>, next: nat, claims: seq<nat>, trace: seq<map<nat, nat>>,
                                    runner: nat, v: R)
    requires Running(items, worker, workers, results, busy, next, claims, trace)
    requires runner in busy && worker(items[busy[runner]], busy[runner]) == Success(v)
    ensures var after := Resumed(busy, runner, next, |items|);
            && |after| == (if next < |items| then |busy| else |busy| - 1)
            && Running(items, worker, workers, results[busy[runner] := Some(v)], after, next + 1,
                       claims + if next < |items| then [next] else [], trace + [after])
  {
    ResumeKeepsInv(items, worker, results, busy, next, runner, v);
    TraceGrows(trace, workers, |items|, runner);
    if next < |items| {
      UpToStep(next);
      assert runner in Resumed(busy, runner, next, |items|);
    }
  }

  lemma StartIsRunning<T, R, E>(items: seq<T>, worker: (T, nat) -> Result<R, E>, workers: nat, results: seq<Option<R>>,
                                busy: map<nat, nat>, claims: seq<nat>)
    requires |results| == |items| && workers > 0 && FirstClaims(busy, workers, |items|)
    requires claims == UpTo(Min(workers, |items|))
    ensures Running(items, worker, workers, results, busy, workers, claims, [busy])
  {
    StartIsInv(items, worker, results, busy, workers);
    assert workers < |items| ==> 0 in busy;
  }

  /**
   * The span of one runner from the end of its await to the next: store, then claim or end.
   * `claims` lists the indices in the order of their claims; `trace` what the runners held at each await.
   */
  method Resume<T, R, E>(items: seq<T>, worker: (T, nat) -> Result<R, E>, workers: nat, results: array<Option<R>>,
                         busy: map<nat, nat>, next: nat, runner: nat, v: R,
                         ghost claims: seq<nat>, ghost trace: seq<map<nat, nat>>)
    returns (after: map<nat, nat>, following: nat, ghost claimed: seq<nat>, ghost longer: seq<map<nat, nat>>)
    requires Running(items, worker, workers, results[..], busy, next, claims, trace)
    requires runner in busy && worker(items[busy[runner]], busy[runner]) == Success(v)
    modifies results
    ensures Running(items, worker, workers, results[..], after, following, claimed, longer)
    ensures results[..] == old(results[..])[busy[runner] := Some(v)]
    ensures following == next + 1 && |after| == if next < |items| then |busy| else |busy| - 1
  {
    ghost var was, i := results[..], busy[runner];
    ResumeKeepsRunning(items, worker, workers, was, busy, next, claims, trace, runner, v);
    results[busy[runner]] := Some(v);
    assert results[..] == was[i := Some(v)];
    after := if next < |items| then busy[runner := next] else busy - {runner};
    assert after == Resumed(busy, runner, next, |items|);
    following := next + 1;
    claimed := claims + if next < |items| then [next] else [];
    longer := trace + [after];
  }

  method RunWithLimit<T, R, E>(items: seq<T>, limit: int, worker: (T, nat) -> Result<R, E>)
    returns (outcome: Result<seq<R>, E>, ghost claims: seq<nat>, ghost trace: seq<map<nat, nat>>)
    ensures outcome.Success? ==> |outcome.value| == |items|
    ensures outcome.Success? ==>
              forall i: nat | i < |items| :: worker(items[i], i) == Success(outcome.value[i])
    ensures outcome.Failure? ==>
              exists i: nat :: i < |items| && worker(items[i], i) == Failure(outcome.error)
    ensures |claims| <= |items| && claims == UpTo(|claims|)
    ensures outcome.Success? ==> |claims| == |items|
    ensures IsTrace(trace, Max(1, Min(limit, |items|)), |items|)
    ensures outcome.Success? ==> trace[|trace| - 1] == map[]
  {
    var results := new Option<R>[|items|](_ => None);
    var workers := Max(1, Min(limit, |items|));
    var busy: map<nat, nat>, next: nat;
    busy, next, claims := StartRunners(|items|, workers);
    trace := [busy];
    StartIsRunning(items, worker, workers, results[..], busy, claims);

    while busy != map[]
      invariant Running(items, worker, workers, results[..], busy, next, claims, trace)
      decreases Max(0, |items| - next) + |busy|
    {
      var runner :| runner in busy;
      var i := busy[runner];
      match worker(items[i], i)
      case Failure(e) => return Failure(e), claims, trace;
      case Success(v) =>
        busy, next, claims, trace := Resume(items, worker, workers, results, busy, next, runner, v, claims, trace);
    }
    EndIsComplete(items, worker, results[..], busy, next);
    return Success(Values(results[..])), claims, trace;
  }
}
