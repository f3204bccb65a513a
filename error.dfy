/**
 * Staging errors (src/error.rs): the error kinds, a single `StagingError`,
 * the `Errors` aggregate and the `ErrorPartition` iterator adapter.
 *
 * The pipeline carries one error type, `Failure`, standing for the
 * `failure::Error` values the code passes around: a converted
 * `StagingError`, an `Errors` aggregate used as an error, or a plain
 * message (what `bail!` and foreign errors produce).
 */
module Failures {
  import opened Wrappers

  /** For programmatically processing failures. */
  datatype ErrorKind = InvalidConfiguration | HarvestingFailed | StagingFailed

  /** The fixed `Display` text of each kind. */
  function KindText(k: ErrorKind): (r: string)
    ensures k == InvalidConfiguration ==> r == "Error in the configuration."
    ensures k == HarvestingFailed ==> r == "Preparing to stage failed."
    ensures k == StagingFailed ==> r == "Staging failed."
  {
    match k
    case InvalidConfiguration => "Error in the configuration."
    case HarvestingFailed => "Preparing to stage failed."
    case StagingFailed => "Staging failed."
  }

  /** The boxed cause, kept opaque: only its display text is observable. */
  datatype Cause = Cause(text: string)

  /** Single staging failure. */
  datatype StagingError = StagingError(kind: ErrorKind, context: Option<string>, cause: Option<Cause>)
  {
    /** `StagingError::kind`: the kind the error was created with. */
    function Kind(): (k: ErrorKind)
      ensures k == kind
    {
      kind
    }

    /** `set_context`: replaces the context and nothing else. */
    function SetContext(text: string): (r: StagingError)
      ensures r.context == Some(text)
      ensures r.Kind() == Kind() && r.cause == cause
    {
      this.(context := Some(text))
    }

    /** `set_cause`: replaces the cause and nothing else. */
    function SetCause(c: Cause): (r: StagingError)
      ensures r.cause == Some(c)
      ensures r.Kind() == Kind() && r.context == context
    {
      this.(cause := Some(c))
    }
  }

  /** `StagingError::new` (also `ErrorKind::error`): the kind, no context, no cause. */
  function NewError(kind: ErrorKind): (r: StagingError)
    ensures r.Kind() == kind && r.context.None? && r.cause.None?
  {
    StagingError(kind, None, None)
  }

  /** `Display for StagingError`: a headline, then the optional context and cause lines. */
  function StagingErrorText(e: StagingError): (r: string)
    ensures var head := "Staging failed: " + KindText(e.kind) + "\n";
      |head| <= |r| && r[..|head|] == head
      && (e.context.None? && e.cause.None? ==> r == head)
    ensures e.cause.Some? ==> var tail := "Cause: " + e.cause.value.text + "\n";
      |tail| <= |r| && r[|r| - |tail|..] == tail
    ensures r[|r| - 1] == '\n'
  {
    "Staging failed: " + KindText(e.kind) + "\n"
      + (match e.context case Some(c) => c + "\n" case None => "")
      + (match e.cause case Some(c) => "Cause: " + c.text + "\n" case None => "")
  }

  /** The one error type of the pipeline. */
  datatype Failure =
    | Staging(error: StagingError)
    | Aggregate(errors: seq<Failure>)
    | Message(text: string)

  /** `Display` of a failure; an aggregate displays as `Errors` does. */
  function FailureText(f: Failure): (r: string)
    ensures f.Staging? ==> r == StagingErrorText(f.error)
    ensures f.Message? ==> r == f.text
    ensures f.Aggregate? ==> (r == "" <==> f.errors == []) && |f.errors| <= |r|
    decreases f
  {
    match f
    case Staging(e) => StagingErrorText(e)
    case Aggregate(es) => Lines(seq(|es|, i requires 0 <= i < |es| => FailureText(es[i])))
    case Message(t) => t
  }

  /** Each text followed by a newline, in order. */
  function Lines(ts: seq<string>): (r: string)
    ensures |ts| <= |r|
  {
    if ts == [] then "" else Lines(ts[..|ts| - 1]) + ts[|ts| - 1] + "\n"
  }

  /** The display texts of a list of errors. */
  function Texts(es: seq<Failure>): (r: seq<string>)
    ensures |r| == |es| && forall i :: 0 <= i < |es| ==> r[i] == FailureText(es[i])
  {
    seq(|es|, i requires 0 <= i < |es| => FailureText(es[i]))
  }

  /** `Display for Errors`: each error's display followed by a newline, in order. */
  function ErrorsText(es: seq<Failure>): (r: string)
    ensures r == "" <==> es == []
    ensures |es| <= |r|
    ensures es != [] ==> var last := FailureText(es[|es| - 1]) + "\n";
      |last| <= |r| && r[|r| - |last|..] == last
  {
    Lines(Texts(es))
  }

  lemma {:induction false} LinesAppend(a: seq<string>, b: seq<string>)
    ensures Lines(a + b) == Lines(a) + Lines(b)
    decreases |b|
  {
    if b == [] {
      assert a + b == a;
    } else {
      var b', x := b[..|b| - 1], b[|b| - 1];
      var ab := a + b;
      assert ab[..|ab| - 1] == a + b' && ab[|ab| - 1] == x;
      assert Lines(ab) == Lines(a + b') + x + "\n";
      assert Lines(b) == Lines(b') + x + "\n";
      LinesAppend(a, b');
    }
  }

  /** Displaying a concatenation of error lists is concatenating their displays. */
  lemma ErrorsTextAppend(a: seq<Failure>, b: seq<Failure>)
    ensures ErrorsText(a + b) == ErrorsText(a) + ErrorsText(b)
  {
    assert Texts(a + b) == Texts(a) + Texts(b);
    LinesAppend(Texts(a), Texts(b));
  }

  /** A single error displays as its own text and one newline. */
  lemma ErrorsTextSingleton(e: Failure)
    ensures ErrorsText([e]) == FailureText(e) + "\n"
  {
    var ts := Texts([e]);
    assert ts[..0] == [] && ts[0] == FailureText(e);
    assert Lines(ts) == Lines([]) + ts[0] + "\n";
  }

  /** An aggregate used as an error displays exactly as its `Errors` list. */
  lemma AggregateText(es: seq<Failure>)
    ensures FailureText(Aggregate(es)) == ErrorsText(es)
  {
  }

  /** A staging error's display always starts with the fixed headline. */
  lemma StagingErrorTextHeadline(e: StagingError)
    ensures var h := "Staging failed: " + KindText(e.kind) + "\n";
      |h| <= |StagingErrorText(e)| && StagingErrorText(e)[..|h|] == h
  {
  }

  // ----- Partitioning a sequence of results -----

  /** The `Ok` payloads of `rs`, in order. */
  function Successes<T>(rs: seq<Result<T, Failure>>): (r: seq<T>)
    ensures |r| <= |rs|
  {
    if rs == [] then []
    else (if rs[0].Ok? then [rs[0].value] else []) + Successes(rs[1..])
  }

  /** The `Err` payloads of `rs`, in order. */
  function Failed<T>(rs: seq<Result<T, Failure>>): (r: seq<Failure>)
    ensures |r| <= |rs|
  {
    if rs == [] then []
    else (if rs[0].Err? then [rs[0].error] else []) + Failed(rs[1..])
  }

  lemma {:induction false} SuccessesAppend<T>(a: seq<Result<T, Failure>>, b: seq<Result<T, Failure>>)
    ensures Successes(a + b) == Successes(a) + Successes(b)
    ensures Failed(a + b) == Failed(a) + Failed(b)
    decreases |a|
  {
    if a == [] {
      assert a + b == b;
    } else {
      assert (a + b)[0] == a[0] && (a + b)[1..] == a[1..] + b;
      SuccessesAppend(a[1..], b);
    }
  }

  /** Every item lands on exactly one side. */
  lemma {:induction false} PartitionSizes<T>(rs: seq<Result<T, Failure>>)
    ensures |Successes(rs)| + |Failed(rs)| == |rs|
    decreases |rs|
  {
    if rs != [] {
      PartitionSizes(rs[1..]);
    }
  }

  /** All items succeed exactly when none fails, and then the successes are all the payloads. */
  lemma {:induction false} NoFailures<T>(rs: seq<Result<T, Failure>>)
    ensures Failed(rs) == [] <==> forall i :: 0 <= i < |rs| ==> rs[i].Ok?
    ensures Failed(rs) == [] ==> Successes(rs) == seq(|rs|, i requires 0 <= i < |rs| => rs[i].value)
    decreases |rs|
  {
    if rs != [] {
      NoFailures(rs[1..]);
      assert forall i :: 1 <= i < |rs| ==> rs[i] == rs[1..][i - 1];
    }
  }

  /** Every failing item's error is among the failures. */
  lemma {:induction false} FailedHasEvery<T>(rs: seq<Result<T, Failure>>)
    ensures forall i :: 0 <= i < |rs| && rs[i].Err? ==> rs[i].error in Failed(rs)
    decreases |rs|
  {
    if rs != [] {
      FailedHasEvery(rs[1..]);
      assert forall i :: 1 <= i < |rs| ==> rs[i] == rs[1..][i - 1];
    }
  }

  /** `Errors::ok`, on values: the value when no error was collected, the whole list otherwise. */
  function Gate<T>(errors: seq<Failure>, value: T): (r: Result<T, Failure>)
    ensures r.Ok? <==> errors == []
    ensures r.Ok? ==> r.value == value
    ensures r.Err? ==> r.error == Aggregate(errors)
  {
    if errors == [] then Ok(value) else Err(Aggregate(errors))
  }

  /** Aggregation of errors from a staging operation. */
  class Errors {
    var errors: seq<Failure>

    /** `Errors::new`: no errors. */
    constructor New()
      ensures errors == []
    {
      errors := [];
    }

    /** `Errors::with_error`: exactly `[e]`. */
    constructor WithError(e: Failure)
      ensures errors == [e]
    {
      errors := [e];
    }

    /** `From<StagingError> for Errors`: the singleton of the converted error. */
    constructor FromStagingError(e: StagingError)
      ensures errors == [Staging(e)]
    {
      errors := [Staging(e)];
    }

    /** `FromIterator<StagingError> for Errors`: the items, in order. */
    constructor FromIter(es: seq<Failure>)
      ensures errors == es
    {
      errors := es;
    }

    /** `push`: append at the end, nothing else changes. */
    method Push(e: Failure)
      modifies this
      ensures errors == old(errors) + [e]
    {
      errors := errors + [e];
    }

    /** `Extend`: append the whole sequence, in order. */
    method Extend(es: seq<Failure>)
      modifies this
      ensures errors == old(errors) + es
    {
      errors := errors + es;
    }

    /** `is_empty`. */
    method IsEmpty() returns (r: bool)
      ensures r <==> errors == []
    {
      r := errors == [];
    }

    /** `ok`: `Ok(value)` iff nothing was pushed, else the collected list unchanged. */
    method Ok<T>(value: T) returns (r: Result<T, Failure>)
      ensures r == Gate(errors, value)
    {
      var empty := IsEmpty();
      if empty {
        r := Result.Ok(value);
      } else {
        r := Err(Aggregate(errors));
      }
    }

    /** `into_iter`: the errors in the order they were collected. */
    function IntoIter(): seq<Failure>
      reads this
    {
      errors
    }
  }

  /**
   * The adapter that yields the `Ok` values of `iter` and pushes every
   * `Err` into a borrowed `Errors`.  `iter` is what remains of the
   * underlying iterator.
   */
  class ErrorPartition<T> {
    var iter: seq<Result<T, Failure>>
    const errors: Errors

    constructor (items: seq<Result<T, Failure>>, sink: Errors)
      ensures iter == items && errors == sink
    {
      iter := items;
      errors := sink;
    }

    /**
     * `next`: consume items up to and including the first `Ok`, pushing
     * every `Err` on the way; `None` only once the items are exhausted.
     */
    method Next() returns (r: Option<T>)
      modifies this, errors
      ensures Successes(old(iter)) == (if r.Some? then [r.value] else []) + Successes(iter)
      ensures errors.errors + Failed(iter) == old(errors.errors) + Failed(old(iter))
      ensures r.None? ==> iter == []
      ensures r.None? ==> errors.errors == old(errors.errors) + Failed(old(iter))
      ensures r.Some? ==> |iter| < |old(iter)| && iter == old(iter)[|old(iter)| - |iter|..]
      ensures r.Some? ==> old(iter)[|old(iter)| - |iter| - 1] == Result.Ok(r.value)
    {
      ghost var start := iter;
      r := None;
      while iter != []
        invariant |iter| <= |start| && iter == start[|start| - |iter|..]
        invariant Successes(start) == Successes(iter)
        invariant errors.errors + Failed(iter) == old(errors.errors) + Failed(start)
        decreases |iter|
      {
        var item := iter[0];
        var rest := iter[1..];
        assert iter == [item] + rest;
        SuccessesAppend([item], rest);
        iter := rest;
        match item {
          case Ok(v) =>
            r := Some(v);
            return;
          case Err(e) =>
            errors.Push(e);
        }
      }
    }

    /** Drain the adapter (`collect`): all `Ok` payloads in order, all `Err`s appended in order. */
    method Collect() returns (values: seq<T>)
      modifies this, errors
      ensures iter == []
      ensures values == Successes(old(iter))
      ensures errors.errors == old(errors.errors) + Failed(old(iter))
    {
      values := [];
      while true
        invariant values + Successes(iter) == Successes(old(iter))
        invariant errors.errors + Failed(iter) == old(errors.errors) + Failed(old(iter))
        decreases |iter|
      {
        var next := Next();
        match next {
          case None =>
            return;
          case Some(v) =>
            values := values + [v];
        }
      }
    }
  }
}
