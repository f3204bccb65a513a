/**
 * High-level requirements for staging files (src/builder.rs).
 *
 * Each builder maps a target directory to the list of actions that
 * populates it, or to an error.  `Staging` maps targets (relative to the
 * stage root) to their builders and concatenates everything they produce.
 * The glob walk of `SourceFiles` is an oracle: given the root, the patterns
 * and `follow_links`, it either fails (bad patterns) or yields the entries
 * in walk order, each a path with its `is_dir` answer, or an error.
 */
module Builders {
  import opened Wrappers
  import opened Paths
  import opened Failures
  import A = Actions

  /** Permissions to apply, by operation name. */
  datatype Access = Access(op: string)

  /** One entry of the walk: the file found and whether it is a directory. */
  datatype WalkEntry = WalkEntry(path: string, isDir: bool)

  /** `GlobWalker::from_patterns(root, patterns).follow_links(f)`, iterated. */
  type Walker = (string, seq<string>, bool) -> Result<seq<Result<WalkEntry, Failure>>, Failure>

  /** The implementors of `ActionBuilder`, other than `Staging`. */
  datatype Builder =
    | Directory(access: seq<Access>)
    | SourceFile(path: string, rename: Option<string>, access: seq<Access>, symlink: seq<string>)
    | SourceFiles(path: string, pattern: seq<string>, followLinks: bool, allowEmpty: bool,
                  access: seq<Access>)
    | Symlink(target: string, linkName: string, access: seq<Access>)  // `linkName` is the `rename` field

  /** One `Access` action on `path` per access entry, in order. */
  function AccessActions(path: string, access: seq<Access>): (r: seq<A.Action>)
    ensures |r| == |access|
    ensures forall i :: 0 <= i < |r| ==> r[i] == A.Access(path, access[i].op)
  {
    seq(|access|, i requires 0 <= i < |access| => A.Access(path, access[i].op))
  }

  /** One `Symlink` action per alias, each at `dir.join(alias)` pointing at `target`. */
  function AliasActions(dir: string, aliases: seq<string>, target: string): (r: seq<A.Action>)
    ensures |r| == |aliases|
    ensures forall i :: 0 <= i < |r| ==> r[i] == A.Symlink(Join(dir, aliases[i]), target)
  {
    seq(|aliases|, i requires 0 <= i < |aliases| => A.Symlink(Join(dir, aliases[i]), target))
  }

  /** The name `SourceFile` copies to: the rename, else the path's file name, else empty. */
  function CopyName(path: string, rename: Option<string>): string
  {
    rename.GetOr(FileName(path).GetOr(""))
  }

  /** What a successful walk contributes: a copy and the access actions per file, or the first error. */
  function WalkActions(entries: seq<Result<WalkEntry, Failure>>, root: string, dir: string,
                       access: seq<Access>): Result<seq<A.Action>, Failure>
    decreases |entries|
  {
    if entries == [] then Ok([])
    else
      match entries[0]
      case Err(e) => Err(e)
      case Ok(entry) =>
        if entry.isDir then WalkActions(entries[1..], root, dir, access)
        else
          match StripPrefix(entry.path, root)
          case None => Err(Message("prefix not found"))
          case Some(rel) =>
            Prepend([A.CopyFile(Join(dir, rel), entry.path)] + AccessActions(dir, access),
                    WalkActions(entries[1..], root, dir, access))
  }

  /** Actions already produced in front of the outcome of the rest. */
  function Prepend<T>(front: seq<T>, r: Result<seq<T>, Failure>): Result<seq<T>, Failure>
  {
    match r
    case Ok(rest) => Ok(front + rest)
    case Err(e) => Err(e)
  }

  lemma PrependPrepend<T>(a: seq<T>, b: seq<T>, r: Result<seq<T>, Failure>)
    ensures Prepend(a, Prepend(b, r)) == Prepend(a + b, r)
  {
    if r.Ok? {
      assert a + (b + r.value) == (a + b) + r.value;
    }
  }

  /** `Directory::build`: never fails; the directory, then its access actions. */
  function BuildDirectory(access: seq<Access>, dir: string): (r: Result<seq<A.Action>, Failure>)
    ensures r.Ok? && |r.value| == 1 + |access|
    ensures r.value[0] == A.CreateDirectory(dir)
    ensures forall i :: 0 <= i < |access| ==> r.value[1 + i] == A.Access(dir, access[i].op)
  {
    Ok([A.CreateDirectory(dir)] + AccessActions(dir, access))
  }

  /**
   * `SourceFile::build`: the path must be absolute and the copy's name a
   * single component; then the copy, the access actions on the target
   * directory, and one link per alias to the copy.  Aliases are not checked.
   */
  function BuildSourceFile(path: string, rename: Option<string>, access: seq<Access>,
                           symlink: seq<string>, dir: string): (r: Result<seq<A.Action>, Failure>)
    ensures !IsAbsolute(path) ==> r == Err(Message("SourceFile path must be absolute: " + Quote(path)))
    ensures IsAbsolute(path) && !IsName(CopyName(path, rename)) ==>
      r == Err(Message("SourceFile rename must not change directories: " + Quote(CopyName(path, rename))))
    ensures r.Ok? <==> IsAbsolute(path) && IsName(CopyName(path, rename))
    ensures r.Ok? ==> |r.value| == 1 + |access| + |symlink|
    ensures r.Ok? ==> r.value[0] == A.CopyFile(Join(dir, CopyName(path, rename)), path)
    ensures r.Ok? ==> forall i :: 0 <= i < |access| ==> r.value[1 + i] == A.Access(dir, access[i].op)
    ensures r.Ok? ==> forall i :: 0 <= i < |symlink| ==>
      r.value[1 + |access| + i] == A.Symlink(Join(dir, symlink[i]), Join(dir, CopyName(path, rename)))
  {
    if !IsAbsolute(path) then Err(Message("SourceFile path must be absolute: " + Quote(path)))
    else
      var name := CopyName(path, rename);
      SingleComponentIff(name);
      if !SingleComponent(name) then
        Err(Message("SourceFile rename must not change directories: " + Quote(name)))
      else
        var copyTarget := Join(dir, name);
        Ok([A.CopyFile(copyTarget, path)] + AccessActions(dir, access)
           + AliasActions(dir, symlink, copyTarget))
  }

  /**
   * `SourceFiles::build`, on values: the root must be absolute, the walk
   * must start and every entry must be read and lie under the root; an
   * empty result is an error unless `allow_empty`.
   */
  function SourceFilesSpec(path: string, pattern: seq<string>, followLinks: bool, allowEmpty: bool,
                           access: seq<Access>, dir: string, walk: Walker): (r: Result<seq<A.Action>, Failure>)
    ensures !IsAbsolute(path) ==> r == Err(Message("SourceFiles path must be absolute: " + Quote(path)))
    ensures IsAbsolute(path) && walk(path, pattern, followLinks).Err? ==>
      r == Err(walk(path, pattern, followLinks).error)
    ensures r.Ok? && r.value == [] ==> allowEmpty
    ensures IsAbsolute(path) && walk(path, pattern, followLinks).Ok? ==>
      var w := WalkActions(walk(path, pattern, followLinks).value, path, dir, access);
      (w.Err? ==> r == Err(w.error))
      && (w.Ok? && (w.value != [] || allowEmpty) ==> r == w)
      && (w.Ok? && w.value == [] && !allowEmpty ==> r == Err(NoFiles(path, pattern)))
  {
    if !IsAbsolute(path) then Err(Message("SourceFiles path must be absolute: " + Quote(path)))
    else
      match walk(path, pattern, followLinks)
      case Err(e) => Err(e)
      case Ok(entries) =>
        (match WalkActions(entries, path, dir, access)
         case Err(e) => Err(e)
         case Ok(actions) =>
           if actions == [] && !allowEmpty then Err(NoFiles(path, pattern))
           else Ok(actions))
  }

  /**
   * `Symlink::build`: the link name must be a single component; then the
   * link, and the access actions, which apply to the link's target.
   */
  function BuildSymlink(target: string, linkName: string, access: seq<Access>, dir: string)
    : (r: Result<seq<A.Action>, Failure>)
    ensures r.Ok? <==> IsName(linkName)
    ensures r.Err? ==> r.error == Message("Symlink rename must not change directories: " + Quote(linkName))
    ensures r.Ok? ==> |r.value| == 1 + |access| && r.value[0] == A.Symlink(Join(dir, linkName), target)
    ensures r.Ok? ==> forall i :: 0 <= i < |access| ==> r.value[1 + i] == A.Access(target, access[i].op)
  {
    SingleComponentIff(linkName);
    if !SingleComponent(linkName) then
      Err(Message("Symlink rename must not change directories: " + Quote(linkName)))
    else
      Ok([A.Symlink(Join(dir, linkName), target)] + AccessActions(target, access))
  }

  /** `ActionBuilder::build`, dispatched on the builder. */
  function Build(b: Builder, dir: string, walk: Walker): Result<seq<A.Action>, Failure>
  {
    match b
    case Directory(access) => BuildDirectory(access, dir)
    case SourceFile(path, rename, access, symlink) => BuildSourceFile(path, rename, access, symlink, dir)
    case SourceFiles(path, pattern, followLinks, allowEmpty, access) =>
      SourceFilesSpec(path, pattern, followLinks, allowEmpty, access, dir, walk)
    case Symlink(target, linkName, access) => BuildSymlink(target, linkName, access, dir)
  }

  /** The error for a walk that found nothing. */
  function NoFiles(path: string, pattern: seq<string>): Failure
  {
    Message("No files found under " + Quote(path) + " with patterns " + QuoteList(pattern))
  }

  /** `SourceFiles::build`: the walk loop pushing onto a growing action list. */
  method BuildSourceFiles(path: string, pattern: seq<string>, followLinks: bool, allowEmpty: bool,
                          access: seq<Access>, dir: string, walk: Walker)
    returns (r: Result<seq<A.Action>, Failure>)
    ensures r == SourceFilesSpec(path, pattern, followLinks, allowEmpty, access, dir, walk)
  {
    var actions: seq<A.Action> := [];
    if !IsAbsolute(path) {
      return Err(Message("SourceFiles path must be absolute: " + Quote(path)));
    }
    var walked := walk(path, pattern, followLinks);
    if walked.Err? {
      return Err(walked.error);
    }
    var entries := walked.value;
    ghost var all := WalkActions(entries, path, dir, access);
    var i := 0;
    assert entries[i..] == entries;
    assert all.Ok? ==> [] + all.value == all.value;
    while i < |entries|
      invariant 0 <= i <= |entries|
      invariant all == Prepend(actions, WalkActions(entries[i..], path, dir, access))
    {
      assert entries[i..][1..] == entries[i + 1..];
      var entry := entries[i];
      if entry.Err? {
        return Err(entry.error);
      }
      var file := entry.value;
      if file.isDir {
        i := i + 1;
        continue;
      }
      var rel := StripPrefix(file.path, path);
      if rel.None? {
        return Err(Message("prefix not found"));
      }
      ghost var before := actions;
      var copy := [A.CopyFile(Join(dir, rel.value), file.path)];
      PrependPrepend(actions, copy + AccessActions(dir, access),
                     WalkActions(entries[i + 1..], path, dir, access));
      actions := actions + copy;
      actions := actions + AccessActions(dir, access);
      assert actions == before + (copy + AccessActions(dir, access));
      i := i + 1;
    }
    assert entries[i..] == [];
    assert actions + [] == actions;
    if actions == [] && !allowEmpty {
      return Err(NoFiles(path, pattern));
    }
    return Ok(actions);
  }

  /** `ActionBuilder::build` as the source dispatches it: only `SourceFiles` loops. */
  method BuildMethod(b: Builder, dir: string, walk: Walker) returns (r: Result<seq<A.Action>, Failure>)
    ensures r == Build(b, dir, walk)
  {
    match b {
      case SourceFiles(path, pattern, followLinks, allowEmpty, access) =>
        r := BuildSourceFiles(path, pattern, followLinks, allowEmpty, access, dir, walk);
      case _ =>
        r := Build(b, dir, walk);
    }
  }

  // ----- Staging: target -> builders, a `BTreeMap` keyed by `PathBuf` -----

  /**
   * The map's entries in iteration order.  `PathBuf` keys compare by their
   * components (`Paths.Key`), so `a/b` and `a//b` are the same key.
   */
  datatype StagingMap = StagingMap(targets: seq<(string, seq<Builder>)>)

  /** Keys strictly increase, so no two entries share a key. */
  predicate Sorted(m: seq<(string, seq<Builder>)>)
  {
    forall i, j :: 0 <= i < j < |m| ==> PathLess(m[i].0, m[j].0)
  }

  /** A `Staging` iterates its targets in strictly increasing `PathBuf` order, as a `BTreeMap` does. */
  type Staging = s: StagingMap | Sorted(s.targets) witness StagingMap([])

  /** `BTreeMap::get`. */
  function Lookup(m: seq<(string, seq<Builder>)>, k: string): Option<seq<Builder>>
  {
    if m == [] then None
    else if Key(m[0].0) == Key(k) then Some(m[0].1)
    else Lookup(m[1..], k)
  }

  /** `BTreeMap::insert`: an equal key keeps its place and its original spelling, and gets the new value. */
  function Insert(m: seq<(string, seq<Builder>)>, k: string, v: seq<Builder>): seq<(string, seq<Builder>)>
  {
    if m == [] then [(k, v)]
    else if Key(m[0].0) == Key(k) then [(m[0].0, v)] + m[1..]
    else if PathLess(k, m[0].0) then [(k, v)] + m
    else [m[0]] + Insert(m[1..], k, v)
  }

  /** `Staging::from_iter`: insert the pairs one after another. */
  function FromIter(items: seq<(string, seq<Builder>)>): (r: Staging)
    ensures r.targets == InsertAll(items)
    ensures |r.targets| <= |items| && (r.targets == [] <==> items == [])
  {
    FromIterSorted(items);
    InsertAllSize(items);
    StagingMap(InsertAll(items))
  }

  function InsertAll(items: seq<(string, seq<Builder>)>): seq<(string, seq<Builder>)>
  {
    if items == [] then []
    else Insert(InsertAll(items[..|items| - 1]), items[|items| - 1].0, items[|items| - 1].1)
  }

  /** The value given last for a key equal to `k` (the reference for from_iter's lookup). */
  function LastFor(items: seq<(string, seq<Builder>)>, k: string): Option<seq<Builder>>
  {
    if items == [] then None
    else if Key(items[|items| - 1].0) == Key(k) then Some(items[|items| - 1].1)
    else LastFor(items[..|items| - 1], k)
  }

  /** `ActionBuilder::build` for one target: all sources are built, all their errors kept. */
  function BuildTarget(target: string, sources: seq<Builder>, root: string, walk: Walker)
    : Result<seq<seq<A.Action>>, Failure>
  {
    if IsAbsolute(target) then Err(Message("target must be relative to the stage root: " + Quote(target)))
    else
      var rs := BuildEach(sources, Join(root, target), walk);
      Gate(Failed(rs), Successes(rs))
  }

  /** Every source built into the same directory, in order. */
  function BuildEach(sources: seq<Builder>, dir: string, walk: Walker): (rs: seq<Result<seq<A.Action>, Failure>>)
    ensures |rs| == |sources|
    ensures forall i :: 0 <= i < |rs| ==> rs[i] == Build(sources[i], dir, walk)
  {
    seq(|sources|, i requires 0 <= i < |sources| => Build(sources[i], dir, walk))
  }

  /** `collect` into `Result<Vec<_>, _>`: every target's lists, or the first failing target's error. */
  function BuildTargets(targets: seq<(string, seq<Builder>)>, root: string, walk: Walker)
    : Result<seq<seq<seq<A.Action>>>, Failure>
    decreases |targets|
  {
    if targets == [] then Ok([])
    else
      match BuildTarget(targets[0].0, targets[0].1, root, walk)
      case Err(e) => Err(e)
      case Ok(lists) => Prepend([lists], BuildTargets(targets[1..], root, walk))
  }

  /** The nested `flat_map`: targets in order, each target's sources in order. */
  function Flatten(targets: seq<seq<seq<A.Action>>>): seq<A.Action>
  {
    if targets == [] then [] else Concat(targets[0]) + Flatten(targets[1..])
  }

  function Concat(lists: seq<seq<A.Action>>): seq<A.Action>
  {
    if lists == [] then [] else lists[0] + Concat(lists[1..])
  }

  /** `Staging::build`, on values. */
  function BuildStaging(s: Staging, root: string, walk: Walker): Result<seq<A.Action>, Failure>
  {
    match BuildTargets(s.targets, root, walk)
    case Err(e) => Err(e)
    case Ok(lists) => Ok(Flatten(lists))
  }

  /** The `map(|s| s.build(&target))` over one target's sources. */
  method BuildEachMethod(sources: seq<Builder>, dir: string, walk: Walker)
    returns (results: seq<Result<seq<A.Action>, Failure>>)
    ensures results == BuildEach(sources, dir, walk)
  {
    results := [];
    var j := 0;
    while j < |sources|
      invariant 0 <= j <= |sources|
      invariant |results| == j
      invariant forall k :: 0 <= k < j ==> results[k] == Build(sources[k], dir, walk)
    {
      var built := BuildMethod(sources[j], dir, walk);
      results := results + [built];
      j := j + 1;
    }
  }

  /**
   * The closure of `Staging::build` for one target: a fresh `Errors` fed
   * through an `ErrorPartition` over the sources' builds, then `ok`.
   */
  method BuildTargetMethod(target: string, sources: seq<Builder>, root: string, walk: Walker)
    returns (t: Result<seq<seq<A.Action>>, Failure>)
    ensures t == BuildTarget(target, sources, root, walk)
  {
    if IsAbsolute(target) {
      return Err(Message("target must be relative to the stage root: " + Quote(target)));
    }
    var dir := Join(root, target);
    var errors := new Errors.New();
    var results := BuildEachMethod(sources, dir, walk);
    var partition := new ErrorPartition(results, errors);
    var values := partition.Collect();
    assert [] + Failed(results) == Failed(results);
    t := errors.Ok(values);
  }

  /** One step of `BuildTargets`: the first target's outcome, then the rest's. */
  lemma BuildTargetsStep(targets: seq<(string, seq<Builder>)>, root: string, walk: Walker,
                         t: Result<seq<seq<A.Action>>, Failure>)
    requires targets != [] && t == BuildTarget(targets[0].0, targets[0].1, root, walk)
    ensures t.Err? ==> BuildTargets(targets, root, walk) == Err(t.error)
    ensures t.Ok? ==> BuildTargets(targets, root, walk) == Prepend([t.value], BuildTargets(targets[1..], root, walk))
  {
  }

  /** `Staging::build`: the targets in key order, the first failing target ends the build. */
  method BuildStagingMethod(s: Staging, root: string, walk: Walker) returns (r: Result<seq<A.Action>, Failure>)
    ensures r == BuildStaging(s, root, walk)
  {
    var staged: seq<seq<seq<A.Action>>> := [];
    ghost var all := BuildTargets(s.targets, root, walk);
    var i := 0;
    assert s.targets[i..] == s.targets;
    assert all.Ok? ==> [] + all.value == all.value;
    while i < |s.targets|
      invariant 0 <= i <= |s.targets|
      invariant all == Prepend(staged, BuildTargets(s.targets[i..], root, walk))
    {
      assert s.targets[i..][1..] == s.targets[i + 1..];
      var t := BuildTargetMethod(s.targets[i].0, s.targets[i].1, root, walk);
      BuildTargetsStep(s.targets[i..], root, walk, t);
      if t.Err? {
        return Err(t.error);
      }
      PrependPrepend(staged, [t.value], BuildTargets(s.targets[i + 1..], root, walk));
      staged := staged + [t.value];
      i := i + 1;
    }
    assert s.targets[i..] == [];
    assert staged + [] == staged;
    return Ok(Flatten(staged));
  }

  // ----- Properties of the builders -----

  /** The copy lands directly in the target directory, under its single-component name. */
  lemma SourceFileCopyInDir(path: string, rename: Option<string>, access: seq<Access>,
                            symlink: seq<string>, dir: string)
    requires BuildSourceFile(path, rename, access, symlink, dir).Ok?
    ensures var copy := BuildSourceFile(path, rename, access, symlink, dir).value[0];
      Components(copy.staged) == Components(dir) + [CopyName(path, rename)]
      && IsAbsolute(copy.staged) == IsAbsolute(dir)
      && FileName(copy.staged) == Some(CopyName(path, rename))
  {
    var name := CopyName(path, rename);
    ComponentsOfName(name);
    JoinRelative(dir, name);
    var cs := Components(dir) + [name];
    assert cs[|cs| - 1] == name;
  }

  /**
   * Aliases are not validated: a relative alias is joined under the target
   * directory, but an absolute one replaces it, so the link is made
   * outside the staged tree.
   */
  lemma SourceFileAliasPlacement(path: string, rename: Option<string>, access: seq<Access>,
                                 symlink: seq<string>, dir: string, i: int)
    requires BuildSourceFile(path, rename, access, symlink, dir).Ok?
    requires 0 <= i < |symlink|
    ensures var link := BuildSourceFile(path, rename, access, symlink, dir).value[1 + |access| + i];
      link.Symlink?
      && (IsAbsolute(symlink[i]) ==> link.staged == symlink[i])
      && (!IsAbsolute(symlink[i]) ==> Components(link.staged) == Components(dir) + Components(symlink[i]))
  {
    if !IsAbsolute(symlink[i]) {
      JoinRelative(dir, symlink[i]);
    }
  }

  /** How many walk entries are files that get copied. */
  function FileCount(entries: seq<Result<WalkEntry, Failure>>): nat
  {
    if entries == [] then 0
    else (if entries[0].Ok? && !entries[0].value.isDir then 1 else 0) + FileCount(entries[1..])
  }

  /** An entry the loop gets past: a directory, or a file under the root. */
  predicate Passes(entry: Result<WalkEntry, Failure>, root: string)
  {
    entry.Ok? && (entry.value.isDir || StripPrefix(entry.value.path, root).Some?)
  }

  /** Each file contributes one copy and one action per access entry. */
  lemma {:induction false} WalkActionsCount(entries: seq<Result<WalkEntry, Failure>>, root: string,
                                            dir: string, access: seq<Access>)
    requires WalkActions(entries, root, dir, access).Ok?
    ensures |WalkActions(entries, root, dir, access).value| == FileCount(entries) * (1 + |access|)
    decreases |entries|
  {
    if entries != [] {
      var rest := WalkActions(entries[1..], root, dir, access);
      assert rest.Ok?;
      WalkActionsCount(entries[1..], root, dir, access);
      var n, c := 1 + |access|, FileCount(entries[1..]);
      if entries[0].Ok? && !entries[0].value.isDir {
        WalkFileStep(entries, root, dir, access, rest.value);
        assert FileCount(entries) == c + 1;
        MulStep(c, n);
      } else {
        assert FileCount(entries) == c;
      }
    }
  }

  lemma MulStep(c: int, n: int)
    ensures (c + 1) * n == c * n + n
  {
  }

  /** The walk fails exactly when some entry does not pass, and then with the first such entry's error. */
  lemma {:induction false} WalkFirstFailure(entries: seq<Result<WalkEntry, Failure>>, root: string,
                                            dir: string, access: seq<Access>, k: int)
    requires 0 <= k < |entries| && !Passes(entries[k], root)
    requires forall i :: 0 <= i < k ==> Passes(entries[i], root)
    ensures WalkActions(entries, root, dir, access) ==
      if entries[k].Err? then Err(entries[k].error) else Err(Message("prefix not found"))
    decreases k
  {
    if k > 0 {
      assert Passes(entries[0], root);
      WalkFirstFailure(entries[1..], root, dir, access, k - 1);
    }
  }

  /** When every entry passes, the walk succeeds. */
  lemma {:induction false} WalkAllPass(entries: seq<Result<WalkEntry, Failure>>, root: string,
                                       dir: string, access: seq<Access>)
    requires forall i :: 0 <= i < |entries| ==> Passes(entries[i], root)
    ensures WalkActions(entries, root, dir, access).Ok?
    decreases |entries|
  {
    if entries != [] {
      assert Passes(entries[0], root);
      WalkAllPass(entries[1..], root, dir, access);
    }
  }

  /** The copy a walk makes of one file: found as a file, staged at its path relative to the root. */
  predicate CopyOfEntry(act: A.Action, entries: seq<Result<WalkEntry, Failure>>, root: string, dir: string)
  {
    act.CopyFile?
    && Ok(WalkEntry(act.source, false)) in entries
    && StripPrefix(act.source, root).Some?
    && act.staged == Join(dir, StripPrefix(act.source, root).value)
  }

  /** A file staged at its path relative to the root, joined to a directory, lies below that directory. */
  lemma CopyBelowDir(source: string, root: string, dir: string)
    requires StripPrefix(source, root).Some?
    ensures Components(dir) <= Components(Join(dir, StripPrefix(source, root).value))
  {
    var rel := StripPrefix(source, root).value;
    var cp := Components(source);
    var tail := cp[|Components(root)|..];
    assert rel == JoinSep(tail);
    forall i | 0 <= i < |tail| ensures Kept(tail[i]) && '/' !in tail[i] {
      assert tail[i] == cp[|Components(root)| + i];
      assert cp[|Components(root)| + i] in Split(source);
    }
    ComponentsOfJoinSep(tail);
    JoinRelative(dir, rel);
  }

  /**
   * Every action of a walk is a copy of a file the walk found, staged at
   * its path relative to the root joined to the target directory, or an
   * access action on the target directory.
   */
  lemma {:induction false} WalkActionsShape(entries: seq<Result<WalkEntry, Failure>>, root: string,
                                            dir: string, access: seq<Access>)
    requires WalkActions(entries, root, dir, access).Ok?
    ensures var acts := WalkActions(entries, root, dir, access).value;
      forall k :: 0 <= k < |acts| ==>
        CopyOfEntry(acts[k], entries, root, dir) || (acts[k].Access? && acts[k].path == dir)
    decreases |entries|
  {
    if entries != [] && entries[0].Ok? {
      WalkActionsShape(entries[1..], root, dir, access);
      var rest := WalkActions(entries[1..], root, dir, access).value;
      RestShape(entries, root, dir, rest);
      if !entries[0].value.isDir {
        WalkFileStep(entries, root, dir, access, rest);
        FileShape(entries, root, dir, access, rest);
      }
    }
  }

  /** One step of a walk whose first entry is a file below the root. */
  lemma WalkFileStep(entries: seq<Result<WalkEntry, Failure>>, root: string, dir: string,
                     access: seq<Access>, rest: seq<A.Action>)
    requires entries != [] && entries[0].Ok? && !entries[0].value.isDir
    requires WalkActions(entries, root, dir, access).Ok?
    requires WalkActions(entries[1..], root, dir, access) == Ok(rest)
    ensures StripPrefix(entries[0].value.path, root).Some?
    ensures var path := entries[0].value.path;
      WalkActions(entries, root, dir, access).value ==
        [A.CopyFile(Join(dir, StripPrefix(path, root).value), path)] + AccessActions(dir, access) + rest
  {
  }

  /** A walk whose first entry is a file: its copy and access actions, then the rest's. */
  lemma FileShape(entries: seq<Result<WalkEntry, Failure>>, root: string, dir: string,
                  access: seq<Access>, rest: seq<A.Action>)
    requires entries != [] && entries[0].Ok? && !entries[0].value.isDir
    requires StripPrefix(entries[0].value.path, root).Some?
    requires forall k :: 0 <= k < |rest| ==>
      CopyOfEntry(rest[k], entries, root, dir) || (rest[k].Access? && rest[k].path == dir)
    ensures var path := entries[0].value.path;
      var acts := [A.CopyFile(Join(dir, StripPrefix(path, root).value), path)] + AccessActions(dir, access) + rest;
      forall k :: 0 <= k < |acts| ==>
        CopyOfEntry(acts[k], entries, root, dir) || (acts[k].Access? && acts[k].path == dir)
  {
    var path := entries[0].value.path;
    var copy := A.CopyFile(Join(dir, StripPrefix(path, root).value), path);
    var accesses := AccessActions(dir, access);
    var walked := (act: A.Action) => CopyOfEntry(act, entries, root, dir) || (act.Access? && act.path == dir);
    assert entries[0] == Ok(WalkEntry(path, false));
    assert walked([copy][0]);
    AllConcat([copy], accesses, walked);
    AllConcat([copy] + accesses, rest, walked);
  }

  /** A property of every element of two sequences holds of every element of their concatenation. */
  lemma AllConcat<T>(a: seq<T>, b: seq<T>, p: T -> bool)
    requires forall k :: 0 <= k < |a| ==> p(a[k])
    requires forall k :: 0 <= k < |b| ==> p(b[k])
    ensures forall k :: 0 <= k < |a + b| ==> p((a + b)[k])
  {
    forall k | 0 <= k < |a + b| ensures p((a + b)[k]) {
      if k >= |a| {
        assert (a + b)[k] == b[k - |a|];
      }
    }
  }

  /** What the rest of a walk copies, the whole walk has found. */
  lemma RestShape(entries: seq<Result<WalkEntry, Failure>>, root: string, dir: string, rest: seq<A.Action>)
    requires entries != []
    requires forall k :: 0 <= k < |rest| ==>
      CopyOfEntry(rest[k], entries[1..], root, dir) || (rest[k].Access? && rest[k].path == dir)
    ensures forall k :: 0 <= k < |rest| ==>
      CopyOfEntry(rest[k], entries, root, dir) || (rest[k].Access? && rest[k].path == dir)
  {
    assert forall e :: e in entries[1..] ==> e in entries;
  }

  /** Every copy a walk makes lies below the target directory. */
  lemma WalkActionsBelow(entries: seq<Result<WalkEntry, Failure>>, root: string, dir: string, access: seq<Access>)
    requires WalkActions(entries, root, dir, access).Ok?
    ensures var acts := WalkActions(entries, root, dir, access).value;
      forall k :: 0 <= k < |acts| && acts[k].CopyFile? ==> Components(dir) <= Components(acts[k].staged)
  {
    WalkActionsShape(entries, root, dir, access);
    var acts := WalkActions(entries, root, dir, access).value;
    forall k | 0 <= k < |acts| && acts[k].CopyFile? ensures Components(dir) <= Components(acts[k].staged) {
      CopyBelowDir(acts[k].source, root, dir);
    }
  }

  /** A walk of directories only produces nothing. */
  lemma {:induction false} WalkDirectoriesOnly(entries: seq<Result<WalkEntry, Failure>>, root: string,
                                               dir: string, access: seq<Access>)
    requires forall i :: 0 <= i < |entries| ==> entries[i].Ok? && entries[i].value.isDir
    ensures WalkActions(entries, root, dir, access) == Ok([])
    decreases |entries|
  {
    if entries != [] {
      WalkDirectoriesOnly(entries[1..], root, dir, access);
    }
  }

  /** Nothing found is an error, unless `allow_empty`, when it is the empty list. */
  lemma SourceFilesEmpty(path: string, pattern: seq<string>, followLinks: bool, allowEmpty: bool,
                         access: seq<Access>, dir: string, walk: Walker)
    requires IsAbsolute(path) && walk(path, pattern, followLinks).Ok?
    requires FileCount(walk(path, pattern, followLinks).value) == 0
    requires WalkActions(walk(path, pattern, followLinks).value, path, dir, access).Ok?
    ensures SourceFilesSpec(path, pattern, followLinks, allowEmpty, access, dir, walk) ==
      if allowEmpty then Ok([]) else Err(NoFiles(path, pattern))
  {
    WalkActionsCount(walk(path, pattern, followLinks).value, path, dir, access);
  }

  // ----- Properties of `Staging::build` -----

  /**
   * A target succeeds exactly when every one of its sources builds; then it
   * holds one list per source, in source order; otherwise it reports the
   * errors of all failing sources, in order, not just the first.
   */
  lemma BuildTargetIff(target: string, sources: seq<Builder>, root: string, walk: Walker)
    requires !IsAbsolute(target)
    ensures var rs := BuildEach(sources, Join(root, target), walk);
      var t := BuildTarget(target, sources, root, walk);
      (t.Ok? <==> forall i :: 0 <= i < |sources| ==> rs[i].Ok?)
      && (t.Ok? ==> |t.value| == |sources| && forall i :: 0 <= i < |sources| ==> t.value[i] == rs[i].value)
      && (t.Err? ==> t.error == Aggregate(Failed(rs))
                     && forall i :: 0 <= i < |sources| && rs[i].Err? ==> rs[i].error in Failed(rs))
  {
    var rs := BuildEach(sources, Join(root, target), walk);
    NoFailures(rs);
    FailedHasEvery(rs);
  }

  /** The targets are processed in order and the first failing one decides the error. */
  lemma {:induction false} BuildTargetsFirstFailure(targets: seq<(string, seq<Builder>)>, root: string,
                                                    walk: Walker, k: int)
    requires 0 <= k < |targets|
    requires BuildTarget(targets[k].0, targets[k].1, root, walk).Err?
    requires forall i {:trigger BuildTarget(targets[i].0, targets[i].1, root, walk)} ::
      0 <= i < k ==> BuildTarget(targets[i].0, targets[i].1, root, walk).Ok?
    ensures BuildTargets(targets, root, walk) == Err(BuildTarget(targets[k].0, targets[k].1, root, walk).error)
    decreases k
  {
    var t := BuildTarget(targets[0].0, targets[0].1, root, walk);
    BuildTargetsStep(targets, root, walk, t);
    if k > 0 {
      assert t.Ok?;
      var tail := targets[1..];
      assert tail[k - 1] == targets[k];
      BuildTargetsFirstFailure(tail, root, walk, k - 1);
    }
  }

  /** Each target's lists, in key order (a target that fails contributes nothing here). */
  function TargetLists(targets: seq<(string, seq<Builder>)>, root: string, walk: Walker)
    : (r: seq<seq<seq<A.Action>>>)
    ensures |r| == |targets|
    decreases |targets|
  {
    if targets == [] then []
    else
      var first := match BuildTarget(targets[0].0, targets[0].1, root, walk)
        case Ok(lists) => lists
        case Err(_) => [];
      [first] + TargetLists(targets[1..], root, walk)
  }

  /** The `i`-th entry of the lists is what the `i`-th target builds, when it builds. */
  lemma {:induction false} TargetListsAt(targets: seq<(string, seq<Builder>)>, root: string, walk: Walker, i: int)
    requires 0 <= i < |targets|
    requires BuildTarget(targets[i].0, targets[i].1, root, walk).Ok?
    ensures TargetLists(targets, root, walk)[i] == BuildTarget(targets[i].0, targets[i].1, root, walk).value
    decreases |targets|
  {
    if i > 0 {
      var tail := targets[1..];
      assert tail[i - 1] == targets[i];
      TargetListsAt(tail, root, walk, i - 1);
    }
  }

  /** When every target succeeds, the build holds each target's lists in key order. */
  lemma {:induction false} BuildTargetsAllOk(targets: seq<(string, seq<Builder>)>, root: string, walk: Walker)
    requires forall i {:trigger BuildTarget(targets[i].0, targets[i].1, root, walk)} ::
      0 <= i < |targets| ==> BuildTarget(targets[i].0, targets[i].1, root, walk).Ok?
    ensures BuildTargets(targets, root, walk) == Ok(TargetLists(targets, root, walk))
    decreases |targets|
  {
    if targets != [] {
      assert BuildTarget(targets[0].0, targets[0].1, root, walk).Ok?;
      BuildTargetsAllOk(targets[1..], root, walk);
    }
  }

  /**
   * `Staging::build` stops at the first failing target, which is in
   * particular the first target given as an absolute path when every
   * target before it builds.
   */
  lemma StagingFirstFailure(s: Staging, root: string, walk: Walker, k: int)
    requires 0 <= k < |s.targets|
    requires BuildTarget(s.targets[k].0, s.targets[k].1, root, walk).Err?
    requires forall i :: 0 <= i < k ==> BuildTarget(s.targets[i].0, s.targets[i].1, root, walk).Ok?
    ensures BuildStaging(s, root, walk) == Err(BuildTarget(s.targets[k].0, s.targets[k].1, root, walk).error)
    ensures IsAbsolute(s.targets[k].0) ==>
      BuildStaging(s, root, walk) == Err(Message("target must be relative to the stage root: " + Quote(s.targets[k].0)))
  {
    BuildTargetsFirstFailure(s.targets, root, walk, k);
  }

  /**
   * On success `Staging::build` is the concatenation over targets in key
   * order, and within a target over its sources in list order.
   */
  lemma StagingConcatenates(s: Staging, root: string, walk: Walker)
    requires forall i {:trigger BuildTarget(s.targets[i].0, s.targets[i].1, root, walk)} ::
      0 <= i < |s.targets| ==> BuildTarget(s.targets[i].0, s.targets[i].1, root, walk).Ok?
    ensures BuildStaging(s, root, walk) == Ok(Flatten(TargetLists(s.targets, root, walk)))
  {
    BuildTargetsAllOk(s.targets, root, walk);
  }

  // ----- Properties of `Staging::from_iter` -----

  /** After an insert, the key looks up the new value and every other key is unaffected. */
  lemma {:induction false} InsertLookup(m: seq<(string, seq<Builder>)>, k: string, v: seq<Builder>, q: string)
    ensures Lookup(Insert(m, k, v), q) == if Key(q) == Key(k) then Some(v) else Lookup(m, q)
    decreases |m|
  {
    if m != [] && Key(m[0].0) != Key(k) && !PathLess(k, m[0].0) {
      InsertLookup(m[1..], k, v, q);
    } else if m != [] && Key(m[0].0) == Key(k) {
      assert ([(m[0].0, v)] + m[1..])[1..] == m[1..];
    } else if m != [] {
      assert ([(k, v)] + m)[1..] == m;
    }
  }

  /** Every key of an insert's result is above any bound that the new key and the old keys are above. */
  lemma InsertAbove(m: seq<(string, seq<Builder>)>, k: string, v: seq<Builder>, lo: string)
    requires PathLess(lo, k)
    requires forall i :: 0 <= i < |m| ==> PathLess(lo, m[i].0)
    ensures forall i :: 0 <= i < |Insert(m, k, v)| ==> PathLess(lo, Insert(m, k, v)[i].0)
  {
    InsertKeeps(m, k, v, key => PathLess(lo, key));
  }

  /** Inserting keeps the keys strictly increasing. */
  lemma {:induction false} InsertSorted(m: seq<(string, seq<Builder>)>, k: string, v: seq<Builder>)
    requires Sorted(m)
    ensures Sorted(Insert(m, k, v))
    decreases |m|
  {
    if m == [] {
    } else if Key(m[0].0) == Key(k) {
      var r := Insert(m, k, v);
      assert forall i :: 0 <= i < |r| ==> r[i].0 == m[i].0;
    } else if PathLess(k, m[0].0) {
      InsertFront(m, k, v);
    } else {
      KeyLessTotal(Key(k), Key(m[0].0));
      InsertSorted(m[1..], k, v);
      InsertAbove(m[1..], k, v, m[0].0);
      ConsSorted(m[0], Insert(m[1..], k, v));
    }
  }

  /** A key below every key goes in front. */
  lemma InsertFront(m: seq<(string, seq<Builder>)>, k: string, v: seq<Builder>)
    requires Sorted(m) && m != [] && PathLess(k, m[0].0)
    ensures Sorted([(k, v)] + m)
  {
    var r := [(k, v)] + m;
    forall i, j | 0 <= i < j < |r| ensures PathLess(r[i].0, r[j].0) {
      if i == 0 {
        if j > 1 {
          KeyLessTransitive(Key(k), Key(m[0].0), Key(m[j - 1].0));
        }
      } else {
        assert r[i] == m[i - 1] && r[j] == m[j - 1];
      }
    }
  }

  /** An entry below every key of a sorted list can be put in front. */
  lemma ConsSorted(e: (string, seq<Builder>), tail: seq<(string, seq<Builder>)>)
    requires Sorted(tail)
    requires forall i :: 0 <= i < |tail| ==> PathLess(e.0, tail[i].0)
    ensures Sorted([e] + tail)
  {
    var r := [e] + tail;
    forall i, j | 0 <= i < j < |r| ensures PathLess(r[i].0, r[j].0) {
      assert r[j] == tail[j - 1];
      if i > 0 {
        assert r[i] == tail[i - 1];
      }
    }
  }

  /** Inserting adds at most one entry and never empties the map. */
  lemma {:induction false} InsertSize(m: seq<(string, seq<Builder>)>, k: string, v: seq<Builder>)
    ensures |m| <= |Insert(m, k, v)| <= |m| + 1
    decreases |m|
  {
    if m != [] && Key(m[0].0) != Key(k) && !PathLess(k, m[0].0) {
      InsertSize(m[1..], k, v);
    }
  }

  /** `from_iter` keeps at most one entry per pair, and at least one when given any. */
  lemma {:induction false} InsertAllSize(items: seq<(string, seq<Builder>)>)
    ensures |InsertAll(items)| <= |items|
    ensures InsertAll(items) == [] <==> items == []
    decreases |items|
  {
    if items != [] {
      InsertAllSize(items[..|items| - 1]);
      InsertSize(InsertAll(items[..|items| - 1]), items[|items| - 1].0, items[|items| - 1].1);
    }
  }

  /** The map `from_iter` builds iterates in strictly increasing key order. */
  lemma {:induction false} FromIterSorted(items: seq<(string, seq<Builder>)>)
    ensures Sorted(InsertAll(items))
    decreases |items|
  {
    if items != [] {
      var front := items[..|items| - 1];
      FromIterSorted(front);
      InsertSorted(InsertAll(front), items[|items| - 1].0, items[|items| - 1].1);
    }
  }

  /** For duplicate keys the value given last wins. */
  lemma {:induction false} FromIterLastWins(items: seq<(string, seq<Builder>)>, q: string)
    ensures Lookup(FromIter(items).targets, q) == LastFor(items, q)
    decreases |items|
  {
    if items != [] {
      var front := items[..|items| - 1];
      FromIterLastWins(front, q);
      InsertLookup(InsertAll(front), items[|items| - 1].0, items[|items| - 1].1, q);
    }
  }

  /** Every key `from_iter` keeps was given as a key: relative keys give a map of relative targets. */
  lemma {:induction false} FromIterRelative(items: seq<(string, seq<Builder>)>)
    requires forall i :: 0 <= i < |items| ==> !IsAbsolute(items[i].0)
    ensures forall i :: 0 <= i < |FromIter(items).targets| ==> !IsAbsolute(FromIter(items).targets[i].0)
    decreases |items|
  {
    if items != [] {
      var front := items[..|items| - 1];
      FromIterRelative(front);
      assert FromIter(front).targets == InsertAll(front);
      InsertRelative(InsertAll(front), items[|items| - 1].0, items[|items| - 1].1);
    }
  }

  lemma InsertRelative(m: seq<(string, seq<Builder>)>, k: string, v: seq<Builder>)
    requires !IsAbsolute(k)
    requires forall i :: 0 <= i < |m| ==> !IsAbsolute(m[i].0)
    ensures forall i :: 0 <= i < |Insert(m, k, v)| ==> !IsAbsolute(Insert(m, k, v)[i].0)
  {
    InsertKeeps(m, k, v, key => !IsAbsolute(key));
  }

  /** Every key of an insert's result was the new key or an old key, so a property of all of those holds of it. */
  lemma {:induction false} InsertKeeps(m: seq<(string, seq<Builder>)>, k: string, v: seq<Builder>, p: string -> bool)
    requires p(k)
    requires forall i :: 0 <= i < |m| ==> p(m[i].0)
    ensures forall i :: 0 <= i < |Insert(m, k, v)| ==> p(Insert(m, k, v)[i].0)
    decreases |m|
  {
    if m != [] && Key(m[0].0) != Key(k) && !PathLess(k, m[0].0) {
      InsertKeeps(m[1..], k, v, p);
      InsertPassesKeeps(m, k, v, p);
    } else if m != [] && Key(m[0].0) == Key(k) {
      InsertReplaceKeeps(m, k, v, p);
    } else if m != [] {
      InsertFrontKeeps(m, k, v, p);
    }
  }

  /** Inserting past the first entry keeps it, then the insert into the rest. */
  lemma InsertPassesKeeps(m: seq<(string, seq<Builder>)>, k: string, v: seq<Builder>, p: string -> bool)
    requires m != [] && Key(m[0].0) != Key(k) && !PathLess(k, m[0].0)
    requires p(m[0].0)
    requires forall i :: 0 <= i < |Insert(m[1..], k, v)| ==> p(Insert(m[1..], k, v)[i].0)
    ensures forall i :: 0 <= i < |Insert(m, k, v)| ==> p(Insert(m, k, v)[i].0)
  {
    var r := Insert(m, k, v);
    var s := Insert(m[1..], k, v);
    assert r == [m[0]] + s;
    forall i | 0 <= i < |r| ensures p(r[i].0) {
      if i > 0 {
        assert r[i] == s[i - 1];
      }
    }
  }

  /** Inserting at the first entry's key replaces its value and keeps its key. */
  lemma InsertReplaceKeeps(m: seq<(string, seq<Builder>)>, k: string, v: seq<Builder>, p: string -> bool)
    requires m != [] && Key(m[0].0) == Key(k)
    requires forall i :: 0 <= i < |m| ==> p(m[i].0)
    ensures forall i :: 0 <= i < |Insert(m, k, v)| ==> p(Insert(m, k, v)[i].0)
  {
    var r := Insert(m, k, v);
    assert r == [(m[0].0, v)] + m[1..];
    forall i | 0 <= i < |r| ensures p(r[i].0) {
      assert r[i].0 == m[i].0;
    }
  }

  /** Inserting below the first entry's key puts the new entry in front. */
  lemma InsertFrontKeeps(m: seq<(string, seq<Builder>)>, k: string, v: seq<Builder>, p: string -> bool)
    requires m != [] && Key(m[0].0) != Key(k) && PathLess(k, m[0].0)
    requires p(k)
    requires forall i :: 0 <= i < |m| ==> p(m[i].0)
    ensures forall i :: 0 <= i < |Insert(m, k, v)| ==> p(Insert(m, k, v)[i].0)
  {
    var r := Insert(m, k, v);
    assert r == [(k, v)] + m;
    forall i | 0 <= i < |r| ensures p(r[i].0) {
      if i > 0 {
        assert r[i] == m[i - 1];
      }
    }
  }
}
