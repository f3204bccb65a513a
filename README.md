# stager: the staging pipeline, modelled in Dafny

stager turns a declarative, templated description of a staging tree into an ordered list of filesystem actions. The pipeline runs in five steps.

- **Rendering.** Each target of a `MapStage` is a template; the targets are kept in strictly increasing template order, as a `BTreeMap` holds them. Each is rendered, then made relative to the stage root by the path sandbox `abs_to_rel`.
- **Formatting.** Each source (`SourceFile`, `SourceFiles`, `Symlink`) is rendered into a builder record. Errors are collected at two levels: sources within a target, then across targets.
- **Assembly.** The targets and their builders form a `Staging` map. Its type keeps the targets in strictly increasing path order, and for a duplicate path the last target wins.
- **Building.** `Staging::build` turns each builder into actions under the target directory. All sources of a target are built. The first failing target ends the build.
- **Running.** The driver loop previews each action and, unless this is a dry run, performs it with `perform` as written. It stops at the first failure.

The model follows the code, one module per source file:

| module | file | what it holds |
|---|---|---|
| `Wrappers` | — | `Option` and `Result` |
| `Order` | — | lexicographic order on strings, the derived `Ord` of `String` |
| `Paths` | — | the part of `std::path` the code relies on: the components after the root, `join` with std's rule that an absolute right-hand side replaces the left, `file_name`, `parent`, `strip_prefix`, and `PathBuf`'s order by components; paths are raw strings, and `parent` and `strip_prefix` rebuild their result from components |
| `Failures` | src/error.rs | `ErrorKind`, `StagingError`, the `Errors` class over a `seq` field, the `ErrorPartition` class with its draining `Next` loop, and the `Display` texts |
| `Templates` | src/template.rs | `Template`, `OneOrMany`, and the engine as an oracle `render: string -> Result<string, Failure>` |
| `Actions` | src/action.rs | the action values and their previews; `perform` is an ordered list of primitive calls run against a failure oracle |
| `Sandbox` | src/de.rs:268-343 | `abs_to_rel` as a loop over a component stack; its specification as a fold; the unit tests |
| `Builders` | src/builder.rs | the builders, the `SourceFiles` walk loop, and the `Staging` map with `from_iter` and `build` |
| `De` | src/de.rs:60-266 | the declarative sources, their formatting, and `CustomMapStage::format` with its two `ErrorPartition`s |
| `Driver` | src/bin/staging/main.rs:160-167 | the dry-run and fail-fast loop over the actions |

The code passes `failure::Error` values around. The model uses one error type, `Failure`, with three cases:

- `Staging(e)`: a converted `StagingError`;
- `Aggregate(es)`: an `Errors` list used as an error;
- `Message(text)`: what `bail!` and foreign errors produce.

Each loop listed below is a `method` with loop invariants. Each method is proved equal to a specification function, and the properties are proved about those functions:

- `abs_to_rel`;
- `ErrorPartition::next`, and draining it with `collect`;
- the `SourceFiles` walk;
- `Staging::build`;
- both levels of `CustomMapStage::format`;
- the driver loop.

Two pure loops are recursive functions instead: the `writeln!` loop of `Display for Errors` (`Failures.Lines`) and the `map(..).collect()` of `OneOrMany::format` (`Templates.FormatAll`).

The model follows these details of the code:

- The declarative `Source` has no `Directory` variant. Only builder.rs defines `Directory`.
- `SourceFile::build` does not check its aliases: the check at src/builder.rs:128-131 is commented out. An absolute alias therefore places its link outside the target directory (`Builders.SourceFileAliasPlacement`).
- The rename checks and the "no files found" failure are `bail!` messages without an `ErrorKind`. They are modelled as `Message`.
- The walk aborts at its first bad entry, and `Staging::build` stops at its first failing target. Neither level collects all of its errors.
- The formatted builders carry no `access` entries. The declarative sources have no such field.
- A path rendered by two targets keeps only the last target's sources, because `BTreeMap` insertion replaces the value.

Where the code does not type-check, the model takes the data flow it plainly intends. `CustomMapStage::format` returns `builder::Stage`; the model uses `Staging`. de.rs calls builder constructors that builder.rs lacks, and both are filled directly from the rendered fields. A `Symlink` without a rename gets its target's file name, as the doc comments at src/de.rs:237-238 and src/builder.rs:216-217 say.

## Model

| member | source | states |
|---|---|---|
| `Failures.KindText` | src/error.rs:187-195 | definition: each kind displays as its fixed sentence |
| `Failures.NewError` | src/error.rs:206-212 | a new error has the given kind, no context and no cause |
| `Failures.StagingError.Kind` | src/error.rs:233-235 | definition: the kind the error was created with |
| `Failures.StagingError.SetContext` | src/error.rs:214-221 | the context becomes the text; kind and cause are unchanged |
| `Failures.StagingError.SetCause` | src/error.rs:223-230 | the cause is set; kind and context are unchanged |
| `Failures.StagingErrorTextHeadline` | src/error.rs:251-262 | a staging error's display begins with `Staging failed: <kind>` and a newline |
| `Failures.StagingErrorText` | src/error.rs:251-262 | definition: the headline `Staging failed: <kind>`, then the optional context line, then the optional `Cause:` line; every line ends in a newline, and with neither context nor cause the text is the headline alone |
| `Failures.FailureText` | src/error.rs:108-115 | a staging error displays as `StagingErrorText`, a message as its text, and an aggregate as at least one character per error, empty exactly when the list is |
| `Failures.Lines` | src/error.rs:108-115 | the `writeln!` loop writes at least one character per line |
| `Failures.ErrorsText` | src/error.rs:108-115 | the display is empty exactly when the list is, has at least one character per error, and ends with the last error's display and a newline |
| `Failures.ErrorsTextSingleton` | src/error.rs:108-115 | a one-error list displays as that error's text and one newline |
| `Failures.ErrorsTextAppend` | src/error.rs:108-115 | displaying concatenated error lists concatenates their displays, in order |
| `Failures.LinesAppend` | src/error.rs:108-115 | the line-per-error rendering distributes over concatenation |
| `Failures.AggregateText` | src/error.rs:108-115 | an `Errors` used as an error displays exactly as its list |
| `Failures.Gate` | src/error.rs:82-88 | definition: `Ok(value)` exactly when there are no errors, otherwise the whole list as the error |
| `Failures.Errors.New` | src/error.rs:65-67 | a new aggregate is empty |
| `Failures.Errors.WithError` | src/error.rs:69-72 | `with_error(e)` holds exactly `[e]` |
| `Failures.Errors.FromStagingError` | src/error.rs:102-106 | conversion from a `StagingError` holds exactly that error |
| `Failures.Errors.FromIter` | src/error.rs:117-125 | `from_iter` holds the items in order |
| `Failures.Errors.Push` | src/error.rs:74-76 | appends at the end and changes nothing else |
| `Failures.Errors.Extend` | src/error.rs:127-134 | appends the whole sequence in order |
| `Failures.Errors.IsEmpty` | src/error.rs:78-80 | true exactly when no error was pushed |
| `Failures.Errors.Ok` | src/error.rs:82-88 | the result is `Gate` of the collected errors: `Ok(value)` iff empty, else the unchanged list |
| `Failures.ErrorPartition.constructor` | src/error.rs:19-21 | the adapter wraps the items and borrows the given `Errors` |
| `Failures.ErrorPartition.Next` | src/error.rs:30-39 | consumes items up to and including the first `Ok`, pushes every `Err` passed on the way, and returns `None` only once the items are exhausted |
| `Failures.ErrorPartition.Collect` | src/error.rs:24-39 | draining yields exactly the `Ok` payloads in order and appends exactly the `Err` payloads in order after the errors already there |
| `Failures.SuccessesAppend` | src/error.rs:30-39 | the successes and the failures of a concatenation are the concatenations |
| `Failures.PartitionSizes` | src/error.rs:30-39 | every item lands on exactly one side |
| `Failures.NoFailures` | src/error.rs:82-88 | no failures iff every item is `Ok`, and then the successes are all the payloads |
| `Failures.FailedHasEvery` | src/error.rs:34 | every failing item's error is among the collected failures |
| `Order.StringLessIrreflexive` | src/template.rs:59-60 | `String` order is irreflexive |
| `Order.StringLessTransitive` | src/template.rs:59-60 | `String` order is transitive |
| `Order.StringLessTotal` | src/template.rs:59-60 | `String` order is total |
| `Templates.Format` | src/template.rs:72-78 | definition: renders exactly the wrapped string through the engine |
| `Templates.TemplateOrder` | src/template.rs:59-60 | `Template` is totally and strictly ordered by its string, as a `BTreeMap` key must be |
| `Templates.FormatAll` | src/template.rs:102-105 | the list renders iff every element renders; then it has the same length, with element i the rendering of template i; otherwise the error is the first failing element's |
| `Templates.FormatOneOrMany` | src/template.rs:96-107 | definition: `One` renders to a singleton or its error; `Many` renders as the list |
| `Templates.OneIsSingletonMany` | src/template.rs:96-107 | `One(t)` renders exactly as `Many([t])` |
| `Actions.Preview` | src/action.rs:36-122 | definition: `mkdir <staged>`, `cp <source> <staged>` and `ln -s <target> <staged>`, with paths quoted |
| `Actions.PreviewsTellKindsApart` | src/action.rs:36-122 | actions of different kinds never share a preview |
| `Actions.RunCalls` | src/action.rs:82-91 | the calls made are a prefix of the plan, and a failure has kind `StagingFailed` |
| `Actions.RunCallsSucceeds` | src/action.rs:82-91 | a run succeeds iff every planned call succeeds, and then it made all of them |
| `Actions.RunCallsStopsAtFailure` | src/action.rs:82-91 | a failed run stops at the failing call and carries that call's cause |
| `Actions.PerformAsWritten` | src/action.rs:42-136 | runs the calls `perform` makes (`PlannedCalls`) against the failure oracle: the calls made are a prefix of them, it succeeds iff every one succeeds and then made them all, and a failure has kind `StagingFailed` |
| `Actions.CreateDirectoryPerform` | src/action.rs:42-49 | one `create_dir_all(staged)`; it succeeds iff that call does |
| `Actions.CopyFilePerform` | src/action.rs:81-92 | the parent is created first, then the copy; if the parent fails, no copy is attempted; every failure has kind `StagingFailed` |
| `Actions.SymlinkAsWrittenLinksTarget` | src/action.rs:124-136 | as written, the only link is made at `target`, pointing at `staged`, and never at `staged` |
| `Actions.SymlinkPerformLinksStaged` | src/action.rs:101-115 | the corrected `perform` makes the parent, then exactly one link, at `staged`, pointing at `target` |
| `Actions.PerformDiffersOnlyForSymlink` | src/action.rs:42-92 | without the correction, the other actions perform the same calls |
| `Actions.AccessIsInert` | src/builder.rs:75-79 | performed as written, the `Access` placeholder makes no call and succeeds |
| `Paths.Split` | src/de.rs:277 | `split('/')` yields at least one piece, and no piece holds a separator |
| `Paths.Filter` | src/de.rs:277 | the filter keeps only non-empty, non-`.` pieces, drawn from the input |
| `Paths.JoinSplit` | src/de.rs:277 | joining the pieces of a split gives the string back |
| `Paths.SplitJoin` | src/de.rs:277 | splitting the join of separator-free pieces gives the pieces back |
| `Paths.ComponentsOfJoinSep` | src/de.rs:276-288 | the `PathBuf` built by pushing clean components has exactly those components and is relative |
| `Paths.JoinRelative` | src/builder.rs:117 | joining a relative path appends its components and is absolute exactly when the base is |
| `Paths.JoinAbsolute` | src/builder.rs:132 | joining an absolute path yields that path |
| `Paths.SingleComponentIff` | src/builder.rs:111 | `file_name() == Some(s)` holds iff `s` is non-empty, separator-free, and neither `.` nor `..` |
| `Paths.ComponentsOfName` | src/builder.rs:110-117 | a valid file name is a relative path with itself as its only component |
| `Paths.KeyLessIrreflexive` | src/builder.rs:24 | `PathBuf` order is irreflexive |
| `Paths.KeyLessTransitive` | src/builder.rs:24 | `PathBuf` order is transitive |
| `Paths.KeyLessTotal` | src/builder.rs:24 | `PathBuf` order is total on component lists |
| `Sandbox.TrimLeftSlashes` | src/de.rs:275 | only leading separators are removed, all of them |
| `Sandbox.AbsToRel` | src/de.rs:268-289 | the push/pop loop with early returns computes `AbsToRelSpec` |
| `Sandbox.RejectsRelative` | src/de.rs:269-273 | input not starting with `/` fails with `InvalidConfiguration` |
| `Sandbox.NormalizeFailsIff` | src/de.rs:277-287 | the fold fails iff some prefix of the pieces has more `..` than the stack and the names before it can absorb |
| `Sandbox.EscapeIff` | src/de.rs:277-283 | a rooted path fails iff some `..` finds nothing left to pop, and then with the outside-root error |
| `Sandbox.NormalizeClean` | src/de.rs:277-287 | the fold keeps only clean names |
| `Sandbox.ResultClean` | src/de.rs:277-287 | a successful result has no empty, `.` or `..` component and no separator |
| `Sandbox.NormalizeCleanPieces` | src/de.rs:277-287 | clean names are pushed unchanged |
| `Sandbox.RerootClean` | src/de.rs:268-289 | re-rooting clean components and normalising gives them back |
| `Sandbox.Idempotent` | src/de.rs:268-289 | normalising the re-rooted result again yields the same result |
| `Sandbox.ExtraLeadingSlash` | src/de.rs:275 | one more leading `/` changes neither success nor the result |
| `Sandbox.RootIsEmpty` | src/de.rs:275-288 | `/` and `///` give the empty path |
| `Sandbox.PiecesOfRooted` | src/de.rs:275-277 | a rooted path spelled from parts iterates over exactly those parts |
| `Sandbox.Vector` | src/de.rs:268-289 | a rooted path spelled from parts gives what the fold of its parts gives |
| `Sandbox.TestErrorsOnRel` | src/de.rs:296-299 | `./hello/world` and `hello/world` are rejected |
| `Sandbox.TestReformats` | src/de.rs:302-307 | `/hello/world` gives `hello/world` |
| `Sandbox.SkipsBetween` | src/de.rs:277 | an empty or `.` piece between two names is skipped |
| `Sandbox.CleansNop` | src/de.rs:310-319 | `/a//b` and `/a/./b` give `a/b` for any names `a`, `b` |
| `Sandbox.TestCleansNop` | src/de.rs:310-319 | `/hello//world` and `/hello/./world` give `hello/world` |
| `Sandbox.FoldPopsRoot` | src/de.rs:322-327 | the fold of `a, .., b, c` is `b, c` |
| `Sandbox.CleansUpRoot` | src/de.rs:322-327 | `/a/../b/c` gives `b/c` for any names |
| `Sandbox.TestCleansUpRoot` | src/de.rs:322-327 | `/hello/../goodbye/world` gives `goodbye/world` |
| `Sandbox.FoldPopsRepeatedly` | src/de.rs:330-335 | the fold of `a, b, .., .., c, d` is `c, d` |
| `Sandbox.CleansRepeatedUps` | src/de.rs:330-335 | `/a/b/../../c/d` gives `c/d` for any names |
| `Sandbox.TestCleansRepeatedUps` | src/de.rs:330-335 | `/hello/world/../../foo/bar` gives `foo/bar` |
| `Sandbox.FoldPopsLeaf` | src/de.rs:338-343 | the fold of `a, b, c, d, .., ..` is `a, b` |
| `Sandbox.CleansUpLeaf` | src/de.rs:338-343 | `/a/b/c/d/../..` gives `a/b` for any names |
| `Sandbox.TestCleansUpLeaf` | src/de.rs:338-343 | `/hello/world/foo/bar/../..` gives `hello/world` |
| `Sandbox.EscapeVector` | src/de.rs:278-283 | a rooted path whose parts' fold fails gives the outside-root error |
| `Sandbox.TestEscapesAtRoot` | src/de.rs:278-283 | `/..` is outside the root |
| `Sandbox.Escapes` | src/de.rs:278-283 | `/a/../..` is outside the root for any name |
| `Sandbox.TestEscapes` | src/de.rs:278-283 | `/a/../..` is outside the root |
| `Builders.AccessActions` | src/builder.rs:121-125 | definition: one `Access(path, op)` per access entry, in order |
| `Builders.AliasActions` | src/builder.rs:126-135 | definition: one link per alias, at `dir.join(alias)`, pointing at the copy |
| `Builders.BuildDirectory` | src/builder.rs:70-83 | definition: never fails: `CreateDirectory(dir)`, then one `Access(dir, op)` per entry |
| `Builders.BuildSourceFile` | src/builder.rs:99-140 | a relative path and a multi-component name are the two errors; otherwise, in order: the copy to `dir/name`, the access actions, one link per alias; length `1 + access + aliases` |
| `Builders.SourceFileCopyInDir` | src/builder.rs:106-118 | the copy lands directly in the target directory under its name, whether renamed or the path's file name |
| `Builders.SourceFileAliasPlacement` | src/builder.rs:126-135 | a relative alias is joined under the directory; an absolute alias replaces it |
| `Builders.SourceFilesSpec` | src/builder.rs:164-209 | a relative root and a failed walk start are errors; otherwise the walk's outcome is the result, except that an empty list without `allow_empty` is the `NoFiles` error |
| `Builders.BuildSourceFiles` | src/builder.rs:164-209 | the walk loop with `continue` and a growing action list computes `SourceFilesSpec` |
| `Builders.WalkActionsCount` | src/builder.rs:174-190 | each file contributes a copy plus one action per access entry |
| `Builders.WalkFirstFailure` | src/builder.rs:174-179 | the first entry that is unreadable or not under the root decides the error |
| `Builders.WalkAllPass` | src/builder.rs:171-190 | when every entry is readable and under the root, the walk succeeds |
| `Builders.WalkActionsShape` | src/builder.rs:179-189 | every action is a copy of a file the walk found, staged at `dir.join(file minus root)`, or an access action on the target directory |
| `Builders.CopyBelowDir` | src/builder.rs:179-180 | a file staged at its path relative to the root, joined to a directory, has that directory's components as a prefix |
| `Builders.WalkActionsBelow` | src/builder.rs:179-183 | every copy a walk makes lies below the target directory |
| `Builders.WalkDirectoriesOnly` | src/builder.rs:176-178 | directories contribute nothing |
| `Builders.SourceFilesEmpty` | src/builder.rs:192-207 | no files gives the empty list with `allow_empty`, otherwise the no-files error |
| `Builders.BuildSymlink` | src/builder.rs:222-241 | fails iff the link name is not a single component; otherwise the link at `dir/name` to the target, then access actions on the target |
| `Builders.BuildMethod` | src/builder.rs:14-17 | the dispatch computes `Build` |
| `Builders.BuildEach` | src/builder.rs:37 | definition: each source is built into the same directory, in order |
| `Builders.BuildEachMethod` | src/builder.rs:37-39 | the loop computes `BuildEach` |
| `Builders.BuildTargetMethod` | src/builder.rs:30-43 | a fresh `Errors`, an `ErrorPartition` over the builds and `ok` compute `BuildTarget` |
| `Builders.BuildStagingMethod` | src/builder.rs:26-52 | the loop over the targets computes `BuildStaging` |
| `Builders.BuildTargetIff` | src/builder.rs:35-42 | a relative target succeeds iff all its sources build, giving one list per source in order; otherwise the error lists every failing source |
| `Builders.BuildTargetsFirstFailure` | src/builder.rs:28-45 | the first failing target decides the error |
| `Builders.TargetLists` | src/builder.rs:28-45 | definition: one entry per target, in key order |
| `Builders.TargetListsAt` | src/builder.rs:28-45 | when the `i`-th target builds, the `i`-th entry is its lists |
| `Builders.BuildTargetsAllOk` | src/builder.rs:28-45 | when every target builds, the result is their lists in key order |
| `Builders.StagingFirstFailure` | src/builder.rs:28-45 | the build is the first failing target's error; an absolute target there gives the relative-target message |
| `Builders.StagingConcatenates` | src/builder.rs:46-50 | on success, all actions are concatenated: targets in key order, then sources in list order |
| `Builders.InsertLookup` | src/builder.rs:54-61 | after an insert, an equal key finds the new value and other keys are unaffected |
| `Builders.InsertAbove` | src/builder.rs:54-61 | inserting keeps every key above a common lower bound |
| `Builders.InsertSorted` | src/builder.rs:54-61 | inserting keeps the keys strictly increasing |
| `Builders.FromIterSorted` | src/builder.rs:54-61 | the inserted entries are in strictly increasing path order, which `FromIter` needs to produce a `Staging` |
| `Builders.FromIter` | src/builder.rs:54-61 | definition: inserts the pairs in order, keeping the first spelling of an equal key and the last value; the map has at most one entry per pair and is empty exactly when no pair is given |
| `Builders.InsertSize` | src/builder.rs:54-61 | an insert adds at most one entry |
| `Builders.InsertAllSize` | src/builder.rs:54-61 | inserting the pairs yields at most one entry per pair, and none exactly when there are no pairs |
| `Builders.FromIterLastWins` | src/builder.rs:54-61 | a lookup finds the value given last for an equal key |
| `Builders.FromIterRelative` | src/builder.rs:54-61 | relative keys give a map of relative targets |
| `Builders.InsertRelative` | src/builder.rs:54-61 | inserting a relative key keeps all keys relative |
| `Builders.InsertKeeps` | src/builder.rs:54-61 | every key after an insert is the new key or an old one: a property of all of those holds of every key |
| `De.KeysDistinct` | src/de.rs:60 | a `MapStage` is ordered by its template keys, so each template is the key of at most one entry |
| `De.FormatOptional` | src/de.rs:162-165 | definition: an absent field stays absent; a present one renders or fails with its error |
| `De.FormatAliases` | src/de.rs:156-160 | definition: an absent `symlink` is the empty alias list; a present one renders as `OneOrMany` |
| `De.FormatSource` | src/de.rs:121-134 | each variant formats into the builder of the same kind, with no access entries, and never into a `Directory` |
| `De.FormatSourceFile` | src/de.rs:153-168 | succeeds iff path, aliases and rename all render; otherwise the first failing one's error, in that order, fails the source; an absent rename stays absent; the fields are the rendered ones |
| `De.FormatSourceFiles` | src/de.rs:207-216 | the flags are copied unchanged and the patterns are rendered in order; the path's error, else the patterns' error, fails the source |
| `De.FormatSymlink` | src/de.rs:245-253 | the target and rename are rendered, and the first failing one's error fails the source; an absent rename defaults to the target's file name |
| `De.FormatEach` | src/de.rs:69 | definition: every source is formatted, in order |
| `De.FormatTargets` | src/de.rs:64-75 | definition: every target is formatted, in map order |
| `De.FormatEachMethod` | src/de.rs:68-73 | the loop computes `FormatEach` |
| `De.FormatTargetMethod` | src/de.rs:64-75 | render, `abs_to_rel`, an `ErrorPartition` and `ok` compute `FormatTarget` |
| `De.FormatTargetsMethod` | src/de.rs:76-80 | the loop computes `FormatTargets` |
| `De.FormatStageMethod` | src/de.rs:63-84 | the outer `Errors` and `ErrorPartition` compute `FormatStage` |
| `De.TargetRenderFails` | src/de.rs:65 | a target whose template does not render fails with that error |
| `De.TargetOutsideRootFails` | src/de.rs:65 | a target the sandbox rejects fails with an `InvalidConfiguration` staging error |
| `De.FormatTargetIff` | src/de.rs:66-74 | a target succeeds iff all its sources do, keeping their number and order; otherwise every failing source's error is reported |
| `De.FormatTargetKey` | src/de.rs:65 | a formatted target's key is the relative path of the sandbox's clean components |
| `De.FormatStageIff` | src/de.rs:76-83 | the stage succeeds iff every target does; otherwise every failing target's error is reported, in map order |
| `De.FormatStageMap` | src/de.rs:77-83 | the resulting `Staging` is sorted by path, the last target for a path wins, no target is lost, and every key is relative |
| `Driver.Previews` | src/bin/staging/main.rs:161 | definition: one preview per action, in order |
| `Driver.RunMethod` | src/bin/staging/main.rs:160-167 | the loop computes `RunActions` |
| `Driver.DryRunIsInert` | src/bin/staging/main.rs:160-167 | a dry run makes no call, succeeds and logs every preview in order |
| `Driver.SuccessLogsPreviews` | src/bin/staging/main.rs:160-167 | a successful run logs exactly what the dry run shows |
| `Driver.FailFast` | src/bin/staging/main.rs:162-165 | a failing run stops at the failing action, having logged the previews up to it, with that action's preview as the error; its log, calls and outcome are those of the run of the actions up to and including the failing one |
| `Driver.FailedRunIsPrefix` | src/bin/staging/main.rs:162-165 | a failed run is the run of its prefix up to the action it logged last |
| `Driver.RunStep` | src/bin/staging/main.rs:160-167 | an action that succeeds contributes its preview and calls, and the loop goes on after those calls |
| `Driver.RunFails` | src/bin/staging/main.rs:162-165 | an action that fails ends the run with its preview, its calls and its preview as the error context |

## Left out

- Real filesystem effects. `perform` is a list of primitive calls, and an oracle over the earlier calls decides which call fails. Files, permissions and links are not modelled.
- Liquid parsing and rendering, and `TemplateEngine::new`. Rendering is an oracle with fixed globals. Being a value, the oracle cannot change the engine.
- Glob and gitignore pattern semantics, `follow_links`, loop detection and `is_dir`. The walk is an oracle that returns entries in walk order, each with its directory flag, or an error.
- Quote: the `{:?}` escaping of paths and strings is not modelled, only the surrounding double quotes.
- Access: action.rs does not define it. It is an inert action that carries `(path, op)`; its preview text is the model's own.
- Paths.Components: a leading `.` component, which `Path::components` keeps, is dropped like any other `.`.
- Paths.Parent, Paths.StripPrefix: the result is rebuilt from the components, so repeated or trailing separators are normalised (`/a//b/c` has parent `/a/b`), whereas std returns a slice of the original spelling (`/a//b`). So the directory a copy or link creates first, and the destination a `SourceFiles` copy is joined from, can be spelled differently from std's result; they have the same components.
- The `cause` chain of a `StagingError` is opaque: only its display text is kept.
- Driver.StagingFailure: `with_context` keeps the underlying error as the cause; the model keeps only the context message.
- `info!` and `debug!` logging, except the driver's per-action log. The `allow_empty` note is not modelled.
- Serde derives, `untagged` deserialisation of `OneOrMany`, `Debug` impls, `size_hint` and `count`, and the `failure` conversions.
- `Staging` as a builder nested in another `Staging`. The model builds only a top-level `Staging`; its builders are the four variants.
- `ErrorsIter`: `Failures.Errors.IntoIter` returns the list in order. Iterating a list needs no separate model.
- The rest of src/bin/staging/main.rs (argument parsing, loading files, exit codes) and src/lib.rs are not part of this model.

## Findings

| source | as written | input that shows it | evidently intended | confidence | as-written member | corrected member |
|---|---|---|---|---|---|---|
| src/action.rs:131 | `fs::soft_link(&self.staged, &self.target)`: std's `soft_link(original, link)` creates the link at `target`, pointing at `staged` | `Symlink::new("/stage/bin/tool", "/opt/tool")`: the link is made at `/opt/tool`, and nothing is made at `/stage/bin/tool` | a link at `staged` pointing at `target`, as the doc comments at src/action.rs:104-105 say | not executed | `Actions.SymlinkAsWrittenLinksTarget` | `Actions.SymlinkPerformLinksStaged` |

The driver runs `Actions.PerformAsWritten`, as src/bin/staging/main.rs:163-165 calls `perform` as written. `Actions.Perform` is the corrected reading.
