/** `JobProcessor.limitedParallel(tasks, limit)`: starts the tasks one after
    another in input order and, whenever `limit` or more of them are started
    but unsettled, waits until one of them settles. The result is every
    task's value in input order, or the rejection of the first task seen to
    fail.

    Which running task settles first is decided by the outside world, so the
    model chooses it nondeterministically; what the method promises holds for
    every such choice. A task's outcome is given up front as a `Result`. The
    schedule the run went through is returned as a trace of `Launch` and
    `Settle` steps. */
module Parallel {
  import opened Wrappers

  datatype Step = Launch(task: nat) | Settle(task: nat)

  /** The most tasks the scheduler lets run at once: `limit`, but at least one,
      since a race is awaited as soon as one task is running when `limit < 1`. */
  function Cap(limit: int): (c: nat)
    ensures c >= 1 && (limit >= 1 ==> c == limit)
  {
    if limit < 1 then 1 else limit
  }

  /** Tasks started and not yet settled after the steps of `t`. */
  function Running(t: seq<Step>): set<nat> {
    if t == [] then {}
    else
      var prev := Running(t[..|t| - 1]);
      match t[|t| - 1]
      case Launch(j) => prev + {j}
      case Settle(j) => prev - {j}
  }

  /** The tasks started in `t`, in the order they were started. */
  function Launches(t: seq<Step>): seq<nat> {
    if t == [] then []
    else Launches(t[..|t| - 1]) + (if t[|t| - 1].Launch? then [t[|t| - 1].task] else [])
  }

  /** Every settle is of a running task and at no point are more than `cap`
      tasks running. */
  predicate Admissible(t: seq<Step>, cap: nat) {
    if t == [] then true
    else
      var prev := t[..|t| - 1];
      Admissible(prev, cap) &&
      (t[|t| - 1].Settle? ==> t[|t| - 1].task in Running(prev)) &&
      |Running(t)| <= cap
  }

  function Range(n: nat): (r: seq<nat>)
    ensures |r| == n && forall i :: 0 <= i < n ==> r[i] == i
  {
    if n == 0 then [] else Range(n - 1) + [n - 1]
  }

  /** Strictly one task at a time: start 0, settle 0, start 1, settle 1, ... */
  function Sequential(n: nat): (t: seq<Step>)
    ensures |t| == 2 * n
  {
    if n == 0 then [] else Sequential(n - 1) + [Launch(n - 1), Settle(n - 1)]
  }

  /** The first `n` steps start tasks `0 .. n - 1`, before anything settles. */
  ghost predicate StartsAll(t: seq<Step>, n: nat) {
    |t| >= n && forall k :: 0 <= k < n ==> t[k] == Launch(k)
  }

  /** Starting task `i` right after the first `i` starts extends them. */
  lemma StartsAllStep(t0: seq<Step>, t: seq<Step>, i: nat)
    requires StartsAll(t0, i) && |t0| == i
    requires |t| > i && t[i] == Launch(i) && forall k :: 0 <= k < i ==> t[k] == t0[k]
    ensures StartsAll(t, i + 1)
  {
  }

  lemma Extend(t: seq<Step>, x: Step, cap: nat)
    ensures (t + [x])[..|t|] == t
    ensures Running(t + [x]) == if x.Launch? then Running(t) + {x.task} else Running(t) - {x.task}
    ensures Launches(t + [x]) == Launches(t) + (if x.Launch? then [x.task] else [])
    ensures Admissible(t + [x], cap) <==>
      Admissible(t, cap) && (x.Settle? ==> x.task in Running(t)) && |Running(t + [x])| <= cap
  {
    assert (t + [x])[..|t|] == t;
  }

  /** In an admissible trace, every prefix has at most `cap` running tasks. */
  lemma {:induction false} AdmissiblePrefixes(t: seq<Step>, cap: nat)
    requires Admissible(t, cap)
    ensures forall k :: 0 <= k <= |t| ==> Admissible(t[..k], cap) && |Running(t[..k])| <= cap
  {
    if t != [] {
      var prev := t[..|t| - 1];
      AdmissiblePrefixes(prev, cap);
      forall k | 0 <= k <= |t| ensures Admissible(t[..k], cap) && |Running(t[..k])| <= cap {
        if k < |t| {
          assert t[..k] == prev[..k];
        } else {
          assert t[..k] == t;
        }
      }
    }
  }

  /** Only started tasks run. */
  lemma {:induction false} RunningWereLaunched(t: seq<Step>)
    ensures forall j :: j in Running(t) ==> j in Launches(t)
  {
    if t != [] {
      RunningWereLaunched(t[..|t| - 1]);
    }
  }

  /** With room for one task, settling leaves nothing running. */
  lemma SettleEmptiesCapOne(t: seq<Step>)
    requires Admissible(t, 1) && |t| > 0 && t[|t| - 1].Settle?
    ensures Running(t) == {}
  {
    var prev := t[..|t| - 1];
    Singleton(Running(prev), t[|t| - 1].task);
  }

  lemma Singleton(s: set<nat>, j: nat)
    requires j in s && |s| <= 1
    ensures s == {j}
  {
    assert |s - {j}| == |s| - 1;
  }

  /** Starting tasks `0 .. m - 1` in order, the last start is of `m - 1`. */
  lemma LastLaunch(l: seq<nat>, y: nat, m: nat)
    requires l + [y] == Range(m)
    ensures m > 0 && y == m - 1 && l == Range(m - 1)
  {
    assert |Range(m)| == m > 0;
    assert Range(m) == Range(m - 1) + [m - 1];
    assert l == (l + [y])[..|l|] == (Range(m - 1) + [m - 1])[..m - 1] == Range(m - 1);
    assert y == (l + [y])[|l|];
  }

  /** A schedule that never has two tasks running, starts the tasks in order
      and ends with nothing running is the strictly sequential one. */
  lemma {:induction false} CapOneIsSequential(t: seq<Step>, m: nat)
    requires Admissible(t, 1) && Launches(t) == Range(m) && Running(t) == {}
    ensures t == Sequential(m)
  {
    if t != [] {
      var prev := t[..|t| - 1];
      var j := t[|t| - 1].task;
      assert t[|t| - 1].Settle?;
      assert Launches(prev) == Range(m);
      SettleEmptiesCapOneBefore(prev, j, m);
      var pp := prev[..|prev| - 1];
      assert prev[|prev| - 1] == Launch(j);
      assert Launches(prev) == Launches(pp) + [j];
      LastLaunch(Launches(pp), j, m);
      CapOneIsSequential(pp, m - 1);
      assert t == pp + [Launch(j), Settle(j)];
    }
  }

  /** Just before the final settle of `j`, the last step started `j` on an
      empty scheduler. */
  lemma {:induction false} SettleEmptiesCapOneBefore(prev: seq<Step>, j: nat, m: nat)
    requires Admissible(prev, 1) && Launches(prev) == Range(m)
    requires j in Running(prev)
    ensures |prev| > 0 && prev[|prev| - 1] == Launch(j)
    ensures Running(prev[..|prev| - 1]) == {}
  {
    assert prev != [];
    var pp := prev[..|prev| - 1];
    var y := prev[|prev| - 1].task;
    Singleton(Running(prev), j);
    assert prev[|prev| - 1].Launch?;
    assert Running(prev) == Running(pp) + {y};
    assert Launches(prev) == Launches(pp) + [y];
    LastLaunch(Launches(pp), y, m);
    RunningWereLaunched(pp);
    assert y !in Launches(pp);
    assert y !in Running(pp);
    assert y == j;
  }

  /** The last step of `t` settles a task whose outcome is the failure `e`. */
  ghost predicate EndsInFailure<T>(t: seq<Step>, tasks: seq<Result<T, string>>, e: string) {
    |t| > 0 && t[|t| - 1].Settle? && t[|t| - 1].task < |tasks| &&
    tasks[t[|t| - 1].task] == Failure(e)
  }

  function Values<T>(rs: seq<Option<T>>): (vs: seq<T>)
    requires forall i :: 0 <= i < |rs| ==> rs[i].Some?
    ensures |vs| == |rs| && forall i :: 0 <= i < |rs| ==> vs[i] == rs[i].value
  {
    if rs == [] then [] else Values(rs[..|rs| - 1]) + [rs[|rs| - 1].value]
  }

  /** How the scheduler's state relates to the trace after `i` tasks have been
      started and none has failed: `executing` holds exactly the running
      tasks, and `results[j]` holds task `j`'s value once `j` has settled. */
  ghost predicate Consistent<T>(tasks: seq<Result<T, string>>, cap: nat, i: nat,
    executing: set<nat>, results: seq<Option<T>>, trace: seq<Step>)
  {
    i <= |tasks| && |results| == i &&
    (forall j :: j in executing ==> j < i) && |executing| <= i &&
    Running(trace) == executing && Launches(trace) == Range(i) && Admissible(trace, cap) &&
    (forall j :: 0 <= j < i ==> (results[j].Some? <==> j !in executing)) &&
    (forall j :: 0 <= j < i && results[j].Some? ==> tasks[j].Success? && results[j].value == tasks[j].value)
  }

  /** Every task has settled, with the value it resolved to. */
  ghost predicate Settled<T>(tasks: seq<Result<T, string>>, results: seq<Option<T>>) {
    |results| == |tasks| &&
    forall j :: 0 <= j < |tasks| ==> results[j].Some? && tasks[j] == Success(results[j].value)
  }

  lemma AllSettled<T>(tasks: seq<Result<T, string>>, cap: nat, results: seq<Option<T>>, trace: seq<Step>)
    requires Consistent(tasks, cap, |tasks|, {}, results, trace)
    ensures Settled(tasks, results)
  {
  }

  lemma StartsAllPrefix(t0: seq<Step>, t: seq<Step>, n: nat)
    requires StartsAll(t0, n) && t0 <= t
    ensures StartsAll(t, n)
  {
    assert forall k :: 0 <= k < n ==> t[k] == t0[k];
  }

  /** What an admissible run that started tasks `0..m` and then either
      drained or stopped at a settle looks like: the cap holds at every
      point, and under a cap of one it is the sequential schedule. */
  lemma RunShape(t: seq<Step>, limit: int, m: nat, failed: bool)
    requires Admissible(t, Cap(limit)) && Launches(t) == Range(m)
    requires failed ==> |t| > 0 && t[|t| - 1].Settle?
    requires !failed ==> Running(t) == {}
    ensures |Launches(t)| == m
    ensures forall k :: 0 <= k <= |t| ==> |Running(t[..k])| <= Cap(limit)
    ensures limit <= 1 ==> t == Sequential(m)
  {
    assert |Launches(t)| == m;
    AdmissiblePrefixes(t, Cap(limit));
    if limit <= 1 {
      CapOneRun(t, m, failed);
    }
  }

  /** A run that ends in a rejection had a failing task. */
  lemma FailedRunHasFailure<T>(t: seq<Step>, tasks: seq<Result<T, string>>, e: string)
    requires EndsInFailure(t, tasks, e)
    ensures !forall i :: 0 <= i < |tasks| ==> tasks[i].Success?
  {
    var j := t[|t| - 1].task;
    assert !tasks[j].Success?;
  }

  /** Settled results are the tasks' values, in task order. */
  lemma SettledValues<T>(tasks: seq<Result<T, string>>, results: seq<Option<T>>)
    requires Settled(tasks, results)
    ensures forall i :: 0 <= i < |tasks| ==> tasks[i].Success?
    ensures |Values(results)| == |tasks| && forall i :: 0 <= i < |tasks| ==> tasks[i] == Success(Values(results)[i])
  {
  }

  /** A run under a cap of one, whether it ran to the end or stopped at a
      rejection, is the strictly sequential schedule of the tasks it started. */
  lemma CapOneRun(t: seq<Step>, m: nat, failed: bool)
    requires Admissible(t, 1) && Launches(t) == Range(m)
    requires failed ==> |t| > 0 && t[|t| - 1].Settle?
    requires !failed ==> Running(t) == {}
    ensures t == Sequential(m)
  {
    if failed {
      SettleEmptiesCapOne(t);
    }
    CapOneIsSequential(t, m);
  }

  lemma LaunchStep<T>(tasks: seq<Result<T, string>>, cap: nat, i: nat,
    executing: set<nat>, results: seq<Option<T>>, trace: seq<Step>)
    requires Consistent(tasks, cap, i, executing, results, trace)
    requires i < |tasks| && |executing| < cap
    ensures Consistent(tasks, cap, i + 1, executing + {i}, results + [None], trace + [Launch(i)])
  {
    var trace' := trace + [Launch(i)];
    var executing' := executing + {i};
    var results' := results + [None];
    assert Running(trace') == executing' && Launches(trace') == Range(i + 1) && Admissible(trace', cap) by {
      Extend(trace, Launch(i), cap);
      assert Range(i + 1) == Range(i) + [i];
      assert |executing'| <= |executing| + 1;
    }
    assert |executing'| <= i + 1 by {
      assert |executing'| <= |executing| + 1;
    }
    forall j | 0 <= j < i + 1
      ensures results'[j].Some? <==> j !in executing'
      ensures results'[j].Some? ==> tasks[j].Success? && results'[j].value == tasks[j].value
    {
      if j < i {
        assert results'[j] == results[j];
      }
    }
  }


  lemma SettleStep<T>(tasks: seq<Result<T, string>>, cap: nat, i: nat,
    executing: set<nat>, results: seq<Option<T>>, trace: seq<Step>, j: nat)
    requires Consistent(tasks, cap, i, executing, results, trace)
    requires j in executing
    ensures Running(trace + [Settle(j)]) == executing - {j}
    ensures Launches(trace + [Settle(j)]) == Range(i)
    ensures Admissible(trace + [Settle(j)], cap)
    ensures j < |tasks| && (tasks[j].Success? ==>
      Consistent(tasks, cap, i, executing - {j}, results[j := Some(tasks[j].value)], trace + [Settle(j)]))
  {
    Extend(trace, Settle(j), cap);
    assert |executing - {j}| == |executing| - 1;
  }

  method LimitedParallel<T>(tasks: seq<Result<T, string>>, limit: int)
    returns (r: Result<seq<T>, string>, ghost trace: seq<Step>)
    // the call succeeds exactly when every task succeeds, with the values in input order
    ensures r.Success? <==> forall i :: 0 <= i < |tasks| ==> tasks[i].Success?
    ensures r.Success? ==>
      |r.value| == |tasks| && forall i :: 0 <= i < |tasks| ==> tasks[i] == Success(r.value[i])
    // a failure is the rejection of the task settled last
    ensures r.Failure? ==> EndsInFailure(trace, tasks, r.error)
    // tasks start in input order, never more than the cap at once
    ensures Admissible(trace, Cap(limit))
    ensures forall k :: 0 <= k <= |trace| ==> |Running(trace[..k])| <= Cap(limit)
    ensures |Launches(trace)| <= |tasks| && Launches(trace) == Range(|Launches(trace)|)
    ensures r.Success? ==> |Launches(trace)| == |tasks| && Running(trace) == {}
    // limit 1 (or less) runs the tasks strictly one after another
    ensures limit <= 1 ==> trace == Sequential(|Launches(trace)|)
    // no more tasks than the limit: all start before any is waited for
    ensures |tasks| <= limit ==> StartsAll(trace, |tasks|)
  {
    var results, failure;
    ghost var launched;
    results, failure, trace, launched := Schedule(tasks, limit);
    RunShape(trace, limit, launched, failure.Some?);
    if failure.Some? {
      r := Failure(failure.value);
      FailedRunHasFailure(trace, tasks, failure.value);
    } else {
      r := Success(Values(results));
      SettledValues(tasks, results);
    }
  }

  /** The loop that starts the tasks, then the wait for the ones still
      running; `launched` counts the tasks started. */
  method Schedule<T>(tasks: seq<Result<T, string>>, limit: int)
    returns (results: seq<Option<T>>, failure: Option<string>, ghost trace: seq<Step>, ghost launched: nat)
    ensures launched <= |tasks| && Launches(trace) == Range(launched) && Admissible(trace, Cap(limit))
    ensures failure.None? ==> launched == |tasks| && Running(trace) == {} && Settled(tasks, results)
    ensures failure.Some? ==> EndsInFailure(trace, tasks, failure.value)
    ensures |tasks| <= limit ==> StartsAll(trace, |tasks|)
  {
    var i, executing;
    i, executing, results, failure, trace := StartAll(tasks, limit);
    launched := i;
    if failure.None? {
      ghost var started := trace;
      executing, results, failure, trace := AwaitAll(tasks, limit, executing, results, trace);
      if |tasks| <= limit {
        StartsAllPrefix(started, trace, |tasks|);
      }
    }
  }

  /** The `for` loop of `limitedParallel`: start each task in turn, and after
      each start await a race while `limit` or more are running. Stops early
      once a race yields a rejection. */
  method StartAll<T>(tasks: seq<Result<T, string>>, limit: int)
    returns (i: nat, executing: set<nat>, results: seq<Option<T>>, failure: Option<string>, ghost trace: seq<Step>)
    ensures i <= |tasks| && Launches(trace) == Range(i) && Admissible(trace, Cap(limit))
    ensures failure.None? ==> i == |tasks| && Consistent(tasks, Cap(limit), i, executing, results, trace)
    ensures failure.Some? ==> EndsInFailure(trace, tasks, failure.value)
    ensures i <= limit ==> StartsAll(trace, i)
    ensures |tasks| <= limit ==> i == |tasks|
  {
    var cap := Cap(limit);
    results := [];
    executing := {};
    failure := None;
    trace := [];
    i := 0;
    while i < |tasks| && failure.None?
      invariant i <= |tasks|
      invariant failure.None? ==> Consistent(tasks, cap, i, executing, results, trace) && |executing| < cap
      invariant Launches(trace) == Range(i) && Admissible(trace, cap)
      invariant failure.Some? ==> EndsInFailure(trace, tasks, failure.value)
      invariant i < limit ==> |trace| == i
      invariant i <= limit ==> StartsAll(trace, i)
      invariant |tasks| <= limit && failure.Some? ==> i == |tasks|
    {
      ghost var before := trace;
      executing, results, failure, trace := StartNext(tasks, limit, i, executing, results, trace);
      if i < limit {
        StartsAllStep(before, trace, i);
      }
      i := i + 1;
    }
  }

  /** One turn of the `for` loop: start task `i`; if that makes `limit` or
      more running, one running task settles. */
  method StartNext<T>(tasks: seq<Result<T, string>>, limit: int, i: nat, executing0: set<nat>,
    results0: seq<Option<T>>, ghost trace0: seq<Step>)
    returns (executing: set<nat>, results: seq<Option<T>>, failure: Option<string>, ghost trace: seq<Step>)
    requires Consistent(tasks, Cap(limit), i, executing0, results0, trace0)
    requires i < |tasks| && |executing0| < Cap(limit)
    ensures Launches(trace) == Range(i + 1) && Admissible(trace, Cap(limit))
    ensures failure.None? ==> Consistent(tasks, Cap(limit), i + 1, executing, results, trace) && |executing| < Cap(limit)
    ensures failure.Some? ==> EndsInFailure(trace, tasks, failure.value) && i + 1 >= limit
    ensures |trace| >= |trace0| + 1 && trace[|trace0|] == Launch(i)
    ensures forall k :: 0 <= k < |trace0| ==> trace[k] == trace0[k]
    ensures i + 1 < limit ==> trace == trace0 + [Launch(i)]
  {
    var cap := Cap(limit);
    LaunchStep(tasks, cap, i, executing0, results0, trace0);
    trace := trace0 + [Launch(i)];
    executing := executing0 + {i};
    results := results0 + [None];
    failure := None;
    if |executing| >= limit {
      // `await Promise.race(executing)`: some running task settles
      var j :| j in executing;
      SettleStep(tasks, cap, i + 1, executing, results, trace, j);
      trace := trace + [Settle(j)];
      if tasks[j].Failure? {
        failure := Some(tasks[j].error);
      } else {
        executing := executing - {j};
        results := results[j := Some(tasks[j].value)];
      }
    }
  }

  /** `Promise.all(results)` after the loop: the tasks still running settle
      in some order, and the first rejection ends the wait. */
  method AwaitAll<T>(tasks: seq<Result<T, string>>, limit: int, executing0: set<nat>,
    results0: seq<Option<T>>, ghost trace0: seq<Step>)
    returns (executing: set<nat>, results: seq<Option<T>>, failure: Option<string>, ghost trace: seq<Step>)
    requires Consistent(tasks, Cap(limit), |tasks|, executing0, results0, trace0)
    ensures Launches(trace) == Range(|tasks|) && Admissible(trace, Cap(limit))
    ensures failure.None? ==> Running(trace) == {} && Settled(tasks, results)
    ensures failure.Some? ==> EndsInFailure(trace, tasks, failure.value)
    ensures trace0 <= trace
  {
    var cap := Cap(limit);
    executing, results, failure, trace := executing0, results0, None, trace0;
    while executing != {} && failure.None?
      invariant failure.None? ==> Consistent(tasks, cap, |tasks|, executing, results, trace)
      invariant Launches(trace) == Range(|tasks|) && Admissible(trace, cap)
      invariant failure.Some? ==> EndsInFailure(trace, tasks, failure.value)
      invariant trace0 <= trace
      decreases |executing|, failure.None?
    {
      var j :| j in executing;
      SettleStep(tasks, cap, |tasks|, executing, results, trace, j);
      trace := trace + [Settle(j)];
      if tasks[j].Failure? {
        failure := Some(tasks[j].error);
      } else {
        executing := executing - {j};
        results := results[j := Some(tasks[j].value)];
      }
    }
    if failure.None? {
      AllSettled(tasks, cap, results, trace);
    }
  }
}
