/**
 * Filesystem operations to stage files (src/action.rs).
 *
 * An action is a value; its `Display` is the dry-run preview.  Its
 * `perform` is modelled as the ordered list of primitive filesystem calls
 * it makes, run against an oracle that says which call fails (given the
 * calls made before it), stopping at the first failure as `?` does.
 */
module Actions {
  import opened Wrappers
  import opened Paths
  import opened Failures

  /**
   * Operation for setting up the staged tree.  `Access` is the permission
   * placeholder that builder.rs constructs and action.rs does not define:
   * it only carries its path and operation.
   */
  datatype Action =
    | CreateDirectory(staged: string)
    | CopyFile(staged: string, source: string)
    | Symlink(staged: string, target: string)
    | Access(path: string, op: string)

  /** The one-line `Display` preview of an action. */
  function Preview(a: Action): (r: string)
    ensures a.CreateDirectory? ==> r == "mkdir " + Quote(a.staged)
    ensures a.CopyFile? ==> r == "cp " + Quote(a.source) + " " + Quote(a.staged)
    ensures a.Symlink? ==> r == "ln -s " + Quote(a.target) + " " + Quote(a.staged)
  {
    match a
    case CreateDirectory(staged) => "mkdir " + Quote(staged)
    case CopyFile(staged, source) => "cp " + Quote(source) + " " + Quote(staged)
    case Symlink(staged, target) => "ln -s " + Quote(target) + " " + Quote(staged)
    case Access(path, op) => "access " + op + " " + Quote(path)
  }

  /** The preview's first word tells the kind of action apart. */
  lemma PreviewsTellKindsApart(a: Action, b: Action)
    requires a.CreateDirectory? != b.CreateDirectory? || a.CopyFile? != b.CopyFile?
          || a.Symlink? != b.Symlink? || a.Access? != b.Access?
    ensures Preview(a) != Preview(b)
  {
    assert Preview(a)[0] != Preview(b)[0];
  }

  /** A primitive filesystem call (`create_dir_all`, `copy`, std's `soft_link(original, link)`). */
  datatype Call =
    | CreateDirAll(dir: string)
    | Copy(from: string, to: string)
    | SoftLink(original: string, link: string)

  /**
   * Which call fails, and with what cause, given the calls already made:
   * the state of the filesystem is abstracted into that history.
   */
  type FileSystem = (seq<Call>, Call) -> Option<Cause>

  /** The outcome of running calls: the calls attempted, and success or the error. */
  datatype Execution = Execution(calls: seq<Call>, result: Result<(), StagingError>)

  /** The error every failing call is mapped to. */
  function CallFailed(c: Cause): StagingError
  {
    NewError(StagingFailed).SetCause(c)
  }

  /** Every call of `plan`, made in order after `history`, succeeds. */
  predicate Succeeds(plan: seq<Call>, history: seq<Call>, fs: FileSystem)
    decreases |plan|
  {
    plan == [] || (fs(history, plan[0]).None? && Succeeds(plan[1..], history + [plan[0]], fs))
  }

  /**
   * Run `plan` after `history`, stopping at the first failing call: the
   * attempted calls are a prefix of the plan and a failure has kind
   * `StagingFailed`.
   */
  function RunCalls(plan: seq<Call>, history: seq<Call>, fs: FileSystem): (x: Execution)
    ensures |x.calls| <= |plan| && x.calls == plan[..|x.calls|]
    ensures x.result.Err? ==> |x.calls| > 0 && x.result.error.Kind() == StagingFailed
    decreases |plan|
  {
    if plan == [] then Execution([], Ok(()))
    else
      match fs(history, plan[0])
      case Some(c) => Execution([plan[0]], Err(CallFailed(c)))
      case None =>
        var rest := RunCalls(plan[1..], history + [plan[0]], fs);
        Execution([plan[0]] + rest.calls, rest.result)
  }

  /** A run succeeds exactly when every planned call succeeds, and then it made all of them. */
  lemma {:induction false} RunCallsSucceeds(plan: seq<Call>, history: seq<Call>, fs: FileSystem)
    ensures RunCalls(plan, history, fs).result.Ok? <==> Succeeds(plan, history, fs)
    ensures RunCalls(plan, history, fs).result.Ok? ==> RunCalls(plan, history, fs).calls == plan
    decreases |plan|
  {
    if plan != [] && fs(history, plan[0]).None? {
      RunCallsSucceeds(plan[1..], history + [plan[0]], fs);
      assert plan == [plan[0]] + plan[1..];
    }
  }

  /** A failed run stops at the call that failed and reports that call's cause. */
  lemma {:induction false} RunCallsStopsAtFailure(plan: seq<Call>, history: seq<Call>, fs: FileSystem)
    requires RunCalls(plan, history, fs).result.Err?
    ensures var x := RunCalls(plan, history, fs);
      var k := |x.calls| - 1;
      k >= 0 && fs(history + x.calls[..k], x.calls[k]).Some?
      && x.result.error == CallFailed(fs(history + x.calls[..k], x.calls[k]).value)
    decreases |plan|
  {
    var x := RunCalls(plan, history, fs);
    if fs(history, plan[0]).Some? {
      assert x.calls == [plan[0]] && x.calls[..0] == [];
      assert history + [] == history;
    } else {
      var rest := RunCalls(plan[1..], history + [plan[0]], fs);
      RunCallsStopsAtFailure(plan[1..], history + [plan[0]], fs);
      assert x == Execution([plan[0]] + rest.calls, rest.result);
      ShiftHistory(history, plan[0], rest.calls, |rest.calls| - 1);
    }
  }

  /** Moving the first call of a run into the history before it. */
  lemma ShiftHistory(history: seq<Call>, c: Call, calls: seq<Call>, k: int)
    requires 0 <= k < |calls|
    ensures history + ([c] + calls)[..k + 1] == history + [c] + calls[..k]
    ensures ([c] + calls)[k + 1] == calls[k]
  {
    assert ([c] + calls)[..k + 1] == [c] + calls[..k];
  }

  /** `mkdir -p` of the parent, when the path has one. */
  function ParentCalls(staged: string): seq<Call>
  {
    match Parent(staged)
    case Some(parent) => [CreateDirAll(parent)]
    case None => []
  }

  /** The calls `perform` makes, as the source is written. */
  function PlannedCalls(a: Action): seq<Call>
  {
    match a
    case CreateDirectory(staged) => [CreateDirAll(staged)]
    case CopyFile(staged, source) => ParentCalls(staged) + [Copy(source, staged)]
    case Symlink(staged, target) => ParentCalls(staged) + [SoftLink(staged, target)]
    case Access(_, _) => []
  }

  /** The calls `Symlink::perform` evidently means to make: a link at `staged` pointing at `target`. */
  function IntendedCalls(a: Action): seq<Call>
  {
    match a
    case Symlink(staged, target) => ParentCalls(staged) + [SoftLink(target, staged)]
    case _ => PlannedCalls(a)
  }

  /** `Action::perform` as written. */
  function PerformAsWritten(a: Action, history: seq<Call>, fs: FileSystem): (x: Execution)
    ensures |x.calls| <= |PlannedCalls(a)| && x.calls == PlannedCalls(a)[..|x.calls|]
    ensures x.result.Ok? <==> Succeeds(PlannedCalls(a), history, fs)
    ensures x.result.Ok? ==> x.calls == PlannedCalls(a)
    ensures x.result.Err? ==> x.result.error.Kind() == StagingFailed
  {
    RunCallsSucceeds(PlannedCalls(a), history, fs);
    RunCalls(PlannedCalls(a), history, fs)
  }

  /** `Action::perform` with the symbolic link made the way round the documentation says. */
  function Perform(a: Action, history: seq<Call>, fs: FileSystem): Execution
  {
    RunCalls(IntendedCalls(a), history, fs)
  }

  /** `CreateDirectory::perform` is one `create_dir_all` of the staged path. */
  lemma CreateDirectoryPerform(staged: string, history: seq<Call>, fs: FileSystem)
    ensures var x := PerformAsWritten(CreateDirectory(staged), history, fs);
      x.calls == [CreateDirAll(staged)]
      && (x.result.Ok? <==> fs(history, CreateDirAll(staged)).None?)
  {
    var plan := [CreateDirAll(staged)];
    assert plan[1..] == [];
  }

  /**
   * `CopyFile::perform` creates the parent (if any) first; if that fails
   * the copy is never attempted.  On success both calls were made, in order.
   */
  lemma CopyFilePerform(staged: string, source: string, history: seq<Call>, fs: FileSystem)
    ensures var x := PerformAsWritten(CopyFile(staged, source), history, fs);
      (x.result.Ok? ==> x.calls == ParentCalls(staged) + [Copy(source, staged)])
      && (Parent(staged).Some? && fs(history, CreateDirAll(Parent(staged).value)).Some? ==>
            x.calls == [CreateDirAll(Parent(staged).value)] && x.result.Err?)
      && (x.result.Err? ==> x.result.error.Kind() == StagingFailed)
  {
    var plan := ParentCalls(staged) + [Copy(source, staged)];
    RunCallsSucceeds(plan, history, fs);
  }

  /**
   * As written, `Symlink::perform` calls `soft_link(staged, target)`, which
   * creates the link at `target` pointing at `staged`: whenever the two
   * differ, a successful run makes no link at `staged` at all.
   */
  lemma SymlinkAsWrittenLinksTarget(staged: string, target: string, history: seq<Call>, fs: FileSystem)
    requires staged != target
    requires PerformAsWritten(Symlink(staged, target), history, fs).result.Ok?
    ensures var x := PerformAsWritten(Symlink(staged, target), history, fs);
      SoftLink(staged, target) in x.calls
      && forall c :: c in x.calls && c.SoftLink? ==> c.link == target && c.link != staged
  {
    var plan := ParentCalls(staged) + [SoftLink(staged, target)];
    RunCallsSucceeds(plan, history, fs);
    assert plan[|plan| - 1] == SoftLink(staged, target);
  }

  /** The intended `Symlink::perform` makes exactly one link, at `staged`, pointing at `target`. */
  lemma SymlinkPerformLinksStaged(staged: string, target: string, history: seq<Call>, fs: FileSystem)
    requires Perform(Symlink(staged, target), history, fs).result.Ok?
    ensures var x := Perform(Symlink(staged, target), history, fs);
      x.calls == ParentCalls(staged) + [SoftLink(target, staged)]
      && forall c :: c in x.calls && c.SoftLink? ==> c.link == staged && c.original == target
  {
    RunCallsSucceeds(ParentCalls(staged) + [SoftLink(target, staged)], history, fs);
  }

  /** The two readings differ only in how `Symlink` makes its link. */
  lemma PerformDiffersOnlyForSymlink(a: Action, history: seq<Call>, fs: FileSystem)
    requires !a.Symlink?
    ensures Perform(a, history, fs) == PerformAsWritten(a, history, fs)
  {
  }

  /** The placeholder `Access` makes no call and succeeds. */
  lemma AccessIsInert(path: string, op: string, history: seq<Call>, fs: FileSystem)
    ensures PerformAsWritten(Access(path, op), history, fs) == Execution([], Ok(()))
  {
  }
}
