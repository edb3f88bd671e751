/** The outcome counts of a batch run. The external solver is a predicate
    `solve` that says whether solving a task succeeds (returns without
    raising). */
module BatchTally {
  import opened Parameters

  /** What the runner reports after the last task. */
  datatype BatchReport = BatchReport(total: nat, succeeded: nat, failed: nat)

  /** The number of tasks whose solve succeeds. */
  function Succeeded(tasks: seq<ProgramParameters>, solve: ProgramParameters -> bool): (n: nat)
    ensures n <= |tasks|
    decreases |tasks|
  {
    if tasks == [] then 0
    else Succeeded(tasks[..|tasks| - 1], solve) + (if solve(tasks[|tasks| - 1]) then 1 else 0)
  }

  /** The number of tasks whose solve fails, counted on its own. */
  function Failed(tasks: seq<ProgramParameters>, solve: ProgramParameters -> bool): nat
    decreases |tasks|
  {
    if tasks == [] then 0
    else (if solve(tasks[0]) then 0 else 1) + Failed(tasks[1..], solve)
  }

  /** Counting successes distributes over concatenation. */
  lemma {:induction false} SucceededAppend(a: seq<ProgramParameters>, b: seq<ProgramParameters>,
                                           solve: ProgramParameters -> bool)
    ensures Succeeded(a + b, solve) == Succeeded(a, solve) + Succeeded(b, solve)
    decreases |b|
  {
    if b == [] {
      assert a + b == a;
    } else {
      var b' := b[..|b| - 1];
      assert (a + b)[..|a + b| - 1] == a + b';
      SucceededAppend(a, b', solve);
    }
  }

  /** Every task is either a success or a failure: the failures the runner
      reports as `total - succeeded` are exactly the tasks whose solve fails. */
  lemma {:induction false} SucceededPlusFailed(tasks: seq<ProgramParameters>, solve: ProgramParameters -> bool)
    ensures Succeeded(tasks, solve) + Failed(tasks, solve) == |tasks|
    decreases |tasks|
  {
    if tasks != [] {
      SucceededPlusFailed(tasks[1..], solve);
      SucceededAppend([tasks[0]], tasks[1..], solve);
      assert [tasks[0]] + tasks[1..] == tasks;
      assert [tasks[0]][..0] == [];
    }
  }

  /** All tasks succeed exactly when the success count equals the task count. */
  lemma {:induction false} AllSucceeded(tasks: seq<ProgramParameters>, solve: ProgramParameters -> bool)
    ensures Succeeded(tasks, solve) == |tasks| <==> forall i :: 0 <= i < |tasks| ==> solve(tasks[i])
    decreases |tasks|
  {
    if tasks != [] {
      var init := tasks[..|tasks| - 1];
      AllSucceeded(init, solve);
      if forall i :: 0 <= i < |tasks| ==> solve(tasks[i]) {
        assert forall i :: 0 <= i < |init| ==> solve(init[i]) by {
          forall i | 0 <= i < |init| ensures solve(init[i]) {
            assert init[i] == tasks[i];
          }
        }
      }
    }
  }

  /** A failing task adds no success: the count is what the tasks before it
      and the tasks after it contribute alone. This is about the tally; the
      outcome of each task is `solve` of that task. */
  lemma FailureIsolated(tasks: seq<ProgramParameters>, k: nat, solve: ProgramParameters -> bool)
    requires k < |tasks| && !solve(tasks[k])
    ensures Succeeded(tasks, solve) == Succeeded(tasks[..k], solve) + Succeeded(tasks[k + 1..], solve)
  {
    assert tasks == tasks[..k] + [tasks[k]] + tasks[k + 1..];
    SucceededAppend(tasks[..k] + [tasks[k]], tasks[k + 1..], solve);
    SucceededAppend(tasks[..k], [tasks[k]], solve);
    assert [tasks[k]][..0] == [];
  }
}
