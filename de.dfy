/**
 * The declarative staging format (src/de.rs): templated descriptions of
 * sources, rendered through the engine into builders, and the map of
 * templated targets assembled into a `Staging` with errors collected at
 * two levels, sources within a target and then across targets.
 */
module De {
  import opened Wrappers
  import opened Paths
  import opened Failures
  import opened Templates
  import opened Sandbox
  import B = Builders

  /** Content to stage, before rendering. */
  datatype Source =
    | SourceFile(path: Template, rename: Option<Template>, symlink: Option<OneOrMany>)
    | SourceFiles(path: Template, pattern: OneOrMany, followLinks: bool, allowEmpty: bool)
    | Symlink(target: Template, rename: Option<Template>)

  /** Templated targets (absolute paths within the stage) with their sources, as a list of entries. */
  datatype TemplateMap = TemplateMap(entries: seq<(Template, seq<Source>)>)

  /** A `BTreeMap<Template, _>` iterates with strictly increasing keys. */
  predicate Ordered(m: TemplateMap)
  {
    forall i, j :: 0 <= i < j < |m.entries| ==> TemplateLess(m.entries[i].0, m.entries[j].0)
  }

  /** The map from templated target to its sources, in the `BTreeMap`'s iteration order. */
  type MapStage = m: TemplateMap | Ordered(m) witness TemplateMap([])

  /** Each template is the key of at most one entry. */
  lemma KeysDistinct(m: MapStage)
    ensures forall i, j :: 0 <= i < |m.entries| && 0 <= j < |m.entries| && i != j ==>
              m.entries[i].0 != m.entries[j].0
  {
    forall i, j | 0 <= i < |m.entries| && 0 <= j < |m.entries| && i != j
      ensures m.entries[i].0 != m.entries[j].0
    {
      var a := m.entries[i].0;
      TemplateOrder(a, a, a);
    }
  }

  /** `opt.map(format).map_or(Ok(None), |r| r.map(Some))`: render an optional field. */
  function FormatOptional(t: Option<Template>, engine: TemplateEngine): (r: Result<Option<string>, Failure>)
    ensures t.None? ==> r == Ok(None)
    ensures t.Some? && Format(t.value, engine).Ok? ==> r == Ok(Some(Format(t.value, engine).value))
    ensures t.Some? && Format(t.value, engine).Err? ==> r == Err(Format(t.value, engine).error)
  {
    match t
    case None => Ok(None)
    case Some(tt) =>
      (match Format(tt, engine)
       case Ok(s) => Ok(Some(s))
       case Err(e) => Err(e))
  }

  /** The symlink field: an absent list is the empty list. */
  function FormatAliases(symlink: Option<OneOrMany>, engine: TemplateEngine): (r: Result<seq<string>, Failure>)
    ensures symlink.None? ==> r == Ok([])
    ensures symlink.Some? ==> r == FormatOneOrMany(symlink.value, engine)
  {
    match symlink
    case None => Ok([])
    case Some(v) => FormatOneOrMany(v, engine)
  }

  /**
   * `SourceFile::format`: path, then the aliases, then the rename; the
   * first render error fails the source.  No access entries are set.
   */
  function FormatSourceFile(path: Template, rename: Option<Template>, symlink: Option<OneOrMany>,
                            engine: TemplateEngine): (r: Result<B.Builder, Failure>)
    ensures r.Ok? <==> Format(path, engine).Ok? && FormatAliases(symlink, engine).Ok?
                       && FormatOptional(rename, engine).Ok?
    ensures Format(path, engine).Err? ==> r == Err(Format(path, engine).error)
    ensures Format(path, engine).Ok? && FormatAliases(symlink, engine).Err? ==>
      r == Err(FormatAliases(symlink, engine).error)
    ensures Format(path, engine).Ok? && FormatAliases(symlink, engine).Ok? && FormatOptional(rename, engine).Err? ==>
      r == Err(FormatOptional(rename, engine).error)
    ensures r.Ok? ==> r.value.SourceFile? && r.value.path == Format(path, engine).value && r.value.access == []
    ensures r.Ok? && rename.None? ==> r.value.rename.None?
    ensures r.Ok? && rename.Some? ==> r.value.rename == Some(Format(rename.value, engine).value)
    ensures r.Ok? && symlink.None? ==> r.value.symlink == []
    ensures r.Ok? ==> r.value.symlink == FormatAliases(symlink, engine).value
  {
    match Format(path, engine)
    case Err(e) => Err(e)
    case Ok(p) =>
      (match FormatAliases(symlink, engine)
       case Err(e) => Err(e)
       case Ok(aliases) =>
         (match FormatOptional(rename, engine)
          case Err(e) => Err(e)
          case Ok(name) => Ok(B.SourceFile(p, name, [], aliases))))
  }

  /** `SourceFiles::format`: the flags are copied unchanged and the patterns rendered in order. */
  function FormatSourceFiles(path: Template, pattern: OneOrMany, followLinks: bool, allowEmpty: bool,
                             engine: TemplateEngine): (r: Result<B.Builder, Failure>)
    ensures r.Ok? <==> Format(path, engine).Ok? && FormatOneOrMany(pattern, engine).Ok?
    ensures Format(path, engine).Err? ==> r == Err(Format(path, engine).error)
    ensures Format(path, engine).Ok? && FormatOneOrMany(pattern, engine).Err? ==>
      r == Err(FormatOneOrMany(pattern, engine).error)
    ensures r.Ok? ==> r.value.SourceFiles? && r.value.path == Format(path, engine).value
    ensures r.Ok? ==> r.value.pattern == FormatOneOrMany(pattern, engine).value
    ensures r.Ok? ==> r.value.followLinks == followLinks && r.value.allowEmpty == allowEmpty
    ensures r.Ok? ==> r.value.access == []
  {
    match Format(path, engine)
    case Err(e) => Err(e)
    case Ok(p) =>
      (match FormatOneOrMany(pattern, engine)
       case Err(e) => Err(e)
       case Ok(ps) => Ok(B.SourceFiles(p, ps, followLinks, allowEmpty, [])))
  }

  /** The link name used when none is given: the target's file name, else empty. */
  function DefaultLinkName(target: string): string
  {
    FileName(target).GetOr("")
  }

  /** `Symlink::format`: the target, then the rename, defaulting to the target's file name. */
  function FormatSymlink(target: Template, rename: Option<Template>, engine: TemplateEngine)
    : (r: Result<B.Builder, Failure>)
    ensures r.Ok? <==> Format(target, engine).Ok? && FormatOptional(rename, engine).Ok?
    ensures Format(target, engine).Err? ==> r == Err(Format(target, engine).error)
    ensures Format(target, engine).Ok? && FormatOptional(rename, engine).Err? ==>
      r == Err(FormatOptional(rename, engine).error)
    ensures r.Ok? ==> r.value.Symlink? && r.value.target == Format(target, engine).value && r.value.access == []
    ensures r.Ok? && rename.Some? ==> r.value.linkName == Format(rename.value, engine).value
    ensures r.Ok? && rename.None? ==> r.value.linkName == DefaultLinkName(r.value.target)
  {
    match Format(target, engine)
    case Err(e) => Err(e)
    case Ok(t) =>
      (match FormatOptional(rename, engine)
       case Err(e) => Err(e)
       case Ok(name) => Ok(B.Symlink(t, name.GetOr(DefaultLinkName(t)), [])))
  }

  /** `Source::format`: dispatch on the variant. */
  function FormatSource(s: Source, engine: TemplateEngine): (r: Result<B.Builder, Failure>)
    ensures r.Ok? && s.SourceFile? ==> r.value.SourceFile? && r.value.access == []
    ensures r.Ok? && s.SourceFiles? ==> r.value.SourceFiles? && r.value.access == []
    ensures r.Ok? && s.Symlink? ==> r.value.Symlink? && r.value.access == []
    ensures r.Ok? ==> !r.value.Directory?
  {
    match s
    case SourceFile(path, rename, symlink) => FormatSourceFile(path, rename, symlink, engine)
    case SourceFiles(path, pattern, followLinks, allowEmpty) =>
      FormatSourceFiles(path, pattern, followLinks, allowEmpty, engine)
    case Symlink(target, rename) => FormatSymlink(target, rename, engine)
  }

  /** Every source of a target formatted, in order. */
  function FormatEach(sources: seq<Source>, engine: TemplateEngine): (rs: seq<Result<B.Builder, Failure>>)
    ensures |rs| == |sources|
    ensures forall i :: 0 <= i < |rs| ==> rs[i] == FormatSource(sources[i], engine)
  {
    seq(|sources|, i requires 0 <= i < |sources| => FormatSource(sources[i], engine))
  }

  /**
   * One target of `CustomMapStage::format`: the rendered target made
   * relative to the stage root, and all its sources, whose errors are all
   * collected.
   */
  function FormatTarget(target: Template, sources: seq<Source>, engine: TemplateEngine)
    : Result<(string, seq<B.Builder>), Failure>
  {
    match Format(target, engine)
    case Err(e) => Err(e)
    case Ok(abs) =>
      (match AbsToRelSpec(abs)
       case Err(e) => Err(Staging(e))
       case Ok(cs) =>
         var rs := FormatEach(sources, engine);
         Gate(Failed(rs), (JoinSep(cs), Successes(rs))))
  }

  /** Every target formatted, in map order. */
  function FormatTargets(m: MapStage, engine: TemplateEngine): (rs: seq<Result<(string, seq<B.Builder>), Failure>>)
    ensures |rs| == |m.entries|
    ensures forall i :: 0 <= i < |rs| ==> rs[i] == FormatTarget(m.entries[i].0, m.entries[i].1, engine)
  {
    seq(|m.entries|, i requires 0 <= i < |m.entries| => FormatTarget(m.entries[i].0, m.entries[i].1, engine))
  }

  /** `CustomMapStage::format`, on values: all targets' errors, or the staging map they build. */
  function FormatStage(m: MapStage, engine: TemplateEngine): Result<B.Staging, Failure>
  {
    var rs := FormatTargets(m, engine);
    Gate(Failed(rs), B.FromIter(Successes(rs)))
  }

  /** The lazy `map(|s| s.format(engine))` over a target's sources, forced in order. */
  method FormatEachMethod(sources: seq<Source>, engine: TemplateEngine)
    returns (results: seq<Result<B.Builder, Failure>>)
    ensures results == FormatEach(sources, engine)
  {
    results := [];
    var j := 0;
    while j < |sources|
      invariant 0 <= j <= |sources|
      invariant |results| == j
      invariant forall k :: 0 <= k < j ==> results[k] == FormatSource(sources[k], engine)
    {
      results := results + [FormatSource(sources[j], engine)];
      j := j + 1;
    }
  }

  /** The lazy `map` over the targets, forced in map order. */
  method FormatTargetsMethod(m: MapStage, engine: TemplateEngine)
    returns (results: seq<Result<(string, seq<B.Builder>), Failure>>)
    ensures results == FormatTargets(m, engine)
  {
    results := [];
    var i := 0;
    while i < |m.entries|
      invariant 0 <= i <= |m.entries|
      invariant |results| == i
      invariant forall k :: 0 <= k < i ==> results[k] == FormatTarget(m.entries[k].0, m.entries[k].1, engine)
    {
      var t := FormatTargetMethod(m.entries[i].0, m.entries[i].1, engine);
      results := results + [t];
      i := i + 1;
    }
  }

  /** The formatting of one target: render, `abs_to_rel`, then sources through an `ErrorPartition`. */
  method FormatTargetMethod(target: Template, sources: seq<Source>, engine: TemplateEngine)
    returns (r: Result<(string, seq<B.Builder>), Failure>)
    ensures r == FormatTarget(target, sources, engine)
  {
    var rendered := Format(target, engine);
    if rendered.Err? {
      return Err(rendered.error);
    }
    var rel := AbsToRel(rendered.value);
    if rel.Err? {
      return Err(Staging(rel.error));
    }
    var errors := new Errors.New();
    var results := FormatEachMethod(sources, engine);
    var partition := new ErrorPartition(results, errors);
    var values := partition.Collect();
    assert [] + Failed(results) == Failed(results);
    r := errors.Ok((JoinSep(rel.value), values));
  }

  /** `CustomMapStage::format`: every target is formatted; the outer `Errors` gathers the failures. */
  method FormatStageMethod(m: MapStage, engine: TemplateEngine) returns (r: Result<B.Staging, Failure>)
    ensures r == FormatStage(m, engine)
  {
    var results := FormatTargetsMethod(m, engine);
    var errors := new Errors.New();
    var partition := new ErrorPartition(results, errors);
    var values := partition.Collect();
    assert [] + Failed(results) == Failed(results);
    r := errors.Ok(B.FromIter(values));
  }

  // ----- Properties -----

  /** A target whose template does not render fails with the render error. */
  lemma TargetRenderFails(target: Template, sources: seq<Source>, engine: TemplateEngine)
    requires Format(target, engine).Err?
    ensures FormatTarget(target, sources, engine) == Err(Format(target, engine).error)
  {
  }

  /** A rendered target outside the stage root fails with the sandbox's configuration error. */
  lemma TargetOutsideRootFails(target: Template, sources: seq<Source>, engine: TemplateEngine)
    requires Format(target, engine).Ok? && AbsToRelSpec(Format(target, engine).value).Err?
    ensures FormatTarget(target, sources, engine).Err?
    ensures var e := FormatTarget(target, sources, engine).error;
      e.Staging? && e.error.Kind() == InvalidConfiguration
  {
    var abs := Format(target, engine).value;
    if |abs| > 0 && abs[0] == '/' {
      EscapeIff(abs);
    }
  }

  /**
   * Within a target every source is formatted: the target succeeds
   * exactly when all its sources do, keeping their number and order, and
   * otherwise reports every failing source's error, in order.
   */
  lemma FormatTargetIff(target: Template, sources: seq<Source>, engine: TemplateEngine)
    requires Format(target, engine).Ok? && AbsToRelSpec(Format(target, engine).value).Ok?
    ensures var t := FormatTarget(target, sources, engine);
      var rs := FormatEach(sources, engine);
      (t.Ok? <==> forall i :: 0 <= i < |sources| ==> rs[i].Ok?)
      && (t.Ok? ==> t.value.0 == JoinSep(AbsToRelSpec(Format(target, engine).value).value)
                    && |t.value.1| == |sources|
                    && forall i :: 0 <= i < |sources| ==> t.value.1[i] == rs[i].value)
      && (t.Err? ==> t.error == Aggregate(Failed(rs))
                     && forall i :: 0 <= i < |sources| && rs[i].Err? ==> rs[i].error in Failed(rs))
  {
    var rs := FormatEach(sources, engine);
    NoFailures(rs);
    FailedHasEvery(rs);
  }

  /**
   * Across targets every target is formatted too: the stage succeeds
   * exactly when all targets do, and otherwise reports every failing
   * target's error, in map (template) order.
   */
  lemma FormatStageIff(m: MapStage, engine: TemplateEngine)
    ensures var r := FormatStage(m, engine);
      var rs := FormatTargets(m, engine);
      (r.Ok? <==> forall i :: 0 <= i < |m.entries| ==> rs[i].Ok?)
      && (r.Err? ==> r.error == Aggregate(Failed(rs))
                     && forall i :: 0 <= i < |m.entries| && rs[i].Err? ==> rs[i].error in Failed(rs))
  {
    var rs := FormatTargets(m, engine);
    NoFailures(rs);
    FailedHasEvery(rs);
  }

  /**
   * A formatted stage is the `Staging` map built from the targets in
   * template order: its keys increase, a path rendered by several targets
   * keeps the sources of the last of them, and every key is relative.
   */
  lemma FormatStageMap(m: MapStage, engine: TemplateEngine, q: string)
    requires FormatStage(m, engine).Ok?
    ensures var s := FormatStage(m, engine).value;
      var rs := FormatTargets(m, engine);
      B.Sorted(s.targets)
      && B.Lookup(s.targets, q) == B.LastFor(Successes(rs), q)
      && |Successes(rs)| == |m.entries|
      && forall i :: 0 <= i < |s.targets| ==> !IsAbsolute(s.targets[i].0)
  {
    var rs := FormatTargets(m, engine);
    var items := Successes(rs);
    NoFailures(rs);
    B.FromIterSorted(items);
    B.FromIterLastWins(items, q);
    forall i | 0 <= i < |items| ensures !IsAbsolute(items[i].0) {
      var t := m.entries[i];
      FormatTargetKey(t.0, t.1, engine);
    }
    B.FromIterRelative(items);
  }

  /** A formatted target's key is the relative path of clean components. */
  lemma FormatTargetKey(target: Template, sources: seq<Source>, engine: TemplateEngine)
    requires FormatTarget(target, sources, engine).Ok?
    ensures var abs := Format(target, engine).value;
      AbsToRelSpec(abs).Ok? && FormatTarget(target, sources, engine).value.0 == JoinSep(AbsToRelSpec(abs).value)
      && Components(FormatTarget(target, sources, engine).value.0) == AbsToRelSpec(abs).value
      && !IsAbsolute(FormatTarget(target, sources, engine).value.0)
  {
    var abs := Format(target, engine).value;
    ResultClean(abs);
    ComponentsOfJoinSep(AbsToRelSpec(abs).value);
  }
}
