/**
 * The loop that runs a staged action list (src/bin/staging/main.rs): each
 * action's preview is logged; unless this is a dry run the action is
 * performed as the source writes `perform` (so a `Symlink` action makes
 * its link the reversed way round), and the first failure ends the run with
 * the preview as its context.  The log is the sequence of `debug!` lines.
 */
module Driver {
  import opened Wrappers
  import opened Failures
  import opened Actions

  /** What a run leaves behind: the log lines, the filesystem calls, the outcome. */
  datatype Run = Run(log: seq<string>, calls: seq<Call>, result: Result<(), Failure>)

  /** The error a failed action turns into (`with_context`). */
  function StagingFailure(a: Action): Failure
  {
    Message("Failed staging files: " + Preview(a))
  }

  /** The run, on values, after the calls in `history`. */
  function RunActions(actions: seq<Action>, dryRun: bool, history: seq<Call>, fs: FileSystem): Run
    decreases |actions|
  {
    if actions == [] then Run([], [], Ok(()))
    else
      var a := actions[0];
      if dryRun then After([Preview(a)], [], RunActions(actions[1..], dryRun, history, fs))
      else
        var x := PerformAsWritten(a, history, fs);
        if x.result.Err? then Run([Preview(a)], x.calls, Err(StagingFailure(a)))
        else After([Preview(a)], x.calls, RunActions(actions[1..], dryRun, history + x.calls, fs))
  }

  /** A run continued from log lines and calls already made. */
  function After(log: seq<string>, calls: seq<Call>, rest: Run): Run
  {
    Run(log + rest.log, calls + rest.calls, rest.result)
  }

  lemma AfterAfter(l1: seq<string>, c1: seq<Call>, l2: seq<string>, c2: seq<Call>, r: Run)
    ensures After(l1, c1, After(l2, c2, r)) == After(l1 + l2, c1 + c2, r)
  {
    assert l1 + (l2 + r.log) == (l1 + l2) + r.log;
    assert c1 + (c2 + r.calls) == (c1 + c2) + r.calls;
  }

  /** The previews of `actions`, in order. */
  function Previews(actions: seq<Action>): (r: seq<string>)
    ensures |r| == |actions|
    ensures forall i :: 0 <= i < |r| ==> r[i] == Preview(actions[i])
  {
    seq(|actions|, i requires 0 <= i < |actions| => Preview(actions[i]))
  }

  /** The `for action in staging` loop. */
  method RunMethod(actions: seq<Action>, dryRun: bool, fs: FileSystem) returns (run: Run)
    ensures run == RunActions(actions, dryRun, [], fs)
  {
    var log: seq<string> := [];
    var calls: seq<Call> := [];
    var i := 0;
    assert actions[i..] == actions;
    assert After([], [], RunActions(actions, dryRun, [], fs)) == RunActions(actions, dryRun, [], fs) by {
      assert [] + RunActions(actions, dryRun, [], fs).log == RunActions(actions, dryRun, [], fs).log;
      assert [] + RunActions(actions, dryRun, [], fs).calls == RunActions(actions, dryRun, [], fs).calls;
    }
    while i < |actions|
      invariant 0 <= i <= |actions|
      invariant RunActions(actions, dryRun, [], fs) == After(log, calls, RunActions(actions[i..], dryRun, calls, fs))
    {
      assert actions[i..][1..] == actions[i + 1..];
      var a := actions[i];
      var line := Preview(a);
      if dryRun {
        AfterAfter(log, calls, [line], [], RunActions(actions[i + 1..], dryRun, calls, fs));
        log := log + [line];
        assert calls + [] == calls;
      } else {
        var x := PerformAsWritten(a, calls, fs);
        if x.result.Err? {
          return Run(log + [line], calls + x.calls, Err(StagingFailure(a)));
        }
        AfterAfter(log, calls, [line], x.calls, RunActions(actions[i + 1..], dryRun, calls + x.calls, fs));
        log := log + [line];
        calls := calls + x.calls;
      }
      i := i + 1;
    }
    assert actions[i..] == [];
    assert log + [] == log && calls + [] == calls;
    return Run(log, calls, Ok(()));
  }

  // ----- Properties -----

  /** A dry run touches nothing, succeeds, and logs every preview in order. */
  lemma {:induction false} DryRunIsInert(actions: seq<Action>, history: seq<Call>, fs: FileSystem)
    ensures var r := RunActions(actions, true, history, fs);
      r.calls == [] && r.result.Ok? && r.log == Previews(actions)
    decreases |actions|
  {
    if actions != [] {
      var rest := RunActions(actions[1..], true, history, fs);
      assert RunActions(actions, true, history, fs) == After([Preview(actions[0])], [], rest);
      DryRunIsInert(actions[1..], history, fs);
      assert [] + rest.calls == [];
      PreviewsCons(actions, |actions|);
      assert actions[..|actions|] == actions && actions[1..][..|actions| - 1] == actions[1..];
    }
  }

  /** A run that succeeds logs exactly what the dry run previews. */
  lemma {:induction false} SuccessLogsPreviews(actions: seq<Action>, history: seq<Call>, fs: FileSystem)
    requires RunActions(actions, false, history, fs).result.Ok?
    ensures RunActions(actions, false, history, fs).log == RunActions(actions, true, history, fs).log
    decreases |actions|
  {
    DryRunIsInert(actions, history, fs);
    if actions != [] {
      var a := actions[0];
      var x := PerformAsWritten(a, history, fs);
      var rest := RunActions(actions[1..], false, history + x.calls, fs);
      assert x.result.Ok? && RunActions(actions, false, history, fs) == After([Preview(a)], x.calls, rest);
      SuccessLogsPreviews(actions[1..], history + x.calls, fs);
      DryRunIsInert(actions[1..], history + x.calls, fs);
      assert Previews(actions) == [Preview(a)] + Previews(actions[1..]);
    }
  }

  /**
   * A failing run stops at the failing action: it has logged the previews
   * up to and including that action's, and the error names that preview.
   */
  lemma {:induction false} FailFast(actions: seq<Action>, history: seq<Call>, fs: FileSystem)
    requires RunActions(actions, false, history, fs).result.Err?
    ensures var r := RunActions(actions, false, history, fs);
      var k := |r.log| - 1;
      0 <= k < |actions| && r.log == Previews(actions[..k + 1])
      && r.result.error == StagingFailure(actions[k])
      && r == RunActions(actions[..k + 1], false, history, fs)
    decreases |actions|
  {
    var a := actions[0];
    var x := PerformAsWritten(a, history, fs);
    var r := RunActions(actions, false, history, fs);
    if x.result.Err? {
      assert r.log == [Preview(a)];
      assert Previews(actions[..1]) == [Preview(a)];
      assert actions[..1][0] == a;
    } else {
      var rest := RunActions(actions[1..], false, history + x.calls, fs);
      assert r == After([Preview(a)], x.calls, rest);
      FailFast(actions[1..], history + x.calls, fs);
      var k := |rest.log| - 1;
      PreviewsCons(actions, k + 2);
    }
    FailedRunIsPrefix(actions, history, fs, |r.log| - 1);
  }

  /** A failed run is the run of its prefix up to the action it logged last. */
  lemma {:induction false} FailedRunIsPrefix(actions: seq<Action>, history: seq<Call>, fs: FileSystem, k: int)
    requires 0 <= k < |actions|
    requires RunActions(actions, false, history, fs).result.Err?
    requires |RunActions(actions, false, history, fs).log| == k + 1
    ensures RunActions(actions, false, history, fs) == RunActions(actions[..k + 1], false, history, fs)
    decreases k
  {
    var a := actions[0];
    var x := PerformAsWritten(a, history, fs);
    var prefix := actions[..k + 1];
    assert prefix[0] == a;
    if x.result.Ok? {
      RunStep(actions, history, fs);
      assert prefix[1..] == actions[1..][..k];
      FailedRunIsPrefix(actions[1..], history + x.calls, fs, k - 1);
      RunStep(prefix, history, fs);
    } else {
      RunFails(actions, history, fs);
      RunFails(prefix, history, fs);
    }
  }

  /** A performed first action that fails ends the run with its preview and calls. */
  lemma RunFails(actions: seq<Action>, history: seq<Call>, fs: FileSystem)
    requires actions != [] && PerformAsWritten(actions[0], history, fs).result.Err?
    ensures RunActions(actions, false, history, fs)
      == Run([Preview(actions[0])], PerformAsWritten(actions[0], history, fs).calls, Err(StagingFailure(actions[0])))
  {
  }

  /** A performed first action that succeeds: its preview and calls, then the rest's run. */
  lemma RunStep(actions: seq<Action>, history: seq<Call>, fs: FileSystem)
    requires actions != [] && PerformAsWritten(actions[0], history, fs).result.Ok?
    ensures var x := PerformAsWritten(actions[0], history, fs);
      RunActions(actions, false, history, fs)
        == After([Preview(actions[0])], x.calls, RunActions(actions[1..], false, history + x.calls, fs))
  {
  }

  /** The previews of a non-empty prefix: the first action's, then the rest's. */
  lemma PreviewsCons(actions: seq<Action>, n: int)
    requires 1 <= n <= |actions|
    ensures Previews(actions[..n]) == [Preview(actions[0])] + Previews(actions[1..][..n - 1])
  {
    assert actions[1..][..n - 1] == actions[1..n];
  }
}
