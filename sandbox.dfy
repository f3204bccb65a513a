/**
 * The path sandbox `abs_to_rel` (src/de.rs): lexical normalisation of a
 * rendered target path into components relative to the staging root.
 * No filesystem lookup and no symlink resolution is involved.
 */
module Sandbox {
  import opened Wrappers
  import opened Paths
  import opened Failures

  /** `str::trim_left_matches('/')`: drop every leading separator. */
  function TrimLeftSlashes(s: string): (r: string)
    ensures |r| <= |s| && r == s[|s| - |r|..]
    ensures r == [] || r[0] != '/'
    ensures forall i :: 0 <= i < |s| - |r| ==> s[i] == '/'
  {
    if s != [] && s[0] == '/' then TrimLeftSlashes(s[1..]) else s
  }

  /** The error for a path that does not start with the root separator. */
  function NotAbsolute(abs: string): StagingError
  {
    NewError(InvalidConfiguration).SetContext("Path is not absolute (within the state): " + abs)
  }

  /** The error for a `..` that would climb above the staging root. */
  function OutsideRoot(abs: string): StagingError
  {
    NewError(InvalidConfiguration).SetContext("Path is outside of staging root: " + Quote(abs))
  }

  /**
   * The push/pop fold over the split pieces: empty and `.` pieces are
   * skipped, `..` pops (and fails on an empty stack), anything else is
   * pushed.
   */
  function Normalize(pieces: seq<string>, stack: seq<string>): Option<seq<string>>
    decreases |pieces|
  {
    if pieces == [] then Some(stack)
    else
      var part := pieces[0];
      if part == "" || part == "." then Normalize(pieces[1..], stack)
      else if part == ".." then
        if stack == [] then None else Normalize(pieces[1..], stack[..|stack| - 1])
      else Normalize(pieces[1..], stack + [part])
  }

  /** The pieces `abs_to_rel` iterates over. */
  function Pieces(abs: string): seq<string>
  {
    Split(TrimLeftSlashes(abs))
  }

  /** `abs_to_rel` as a function of its input. */
  function AbsToRelSpec(abs: string): Result<seq<string>, StagingError>
  {
    if !(|abs| > 0 && abs[0] == '/') then Err(NotAbsolute(abs))
    else
      match Normalize(Pieces(abs), [])
      case None => Err(OutsideRoot(abs))
      case Some(cs) => Ok(cs)
  }

  /** `abs_to_rel`: the loop over the pieces with a mutable component stack and early returns. */
  method AbsToRel(abs: string) returns (r: Result<seq<string>, StagingError>)
    ensures r == AbsToRelSpec(abs)
  {
    if !(|abs| > 0 && abs[0] == '/') {
      return Err(NotAbsolute(abs));
    }
    var rel := TrimLeftSlashes(abs);
    var pieces := Split(rel);
    var path: seq<string> := [];
    var i := 0;
    while i < |pieces|
      invariant 0 <= i <= |pieces|
      invariant Normalize(pieces, []) == Normalize(pieces[i..], path)
    {
      assert pieces[i..][1..] == pieces[i + 1..];
      var part := pieces[i];
      if part == "" || part == "." {
      } else if part == ".." {
        if path == [] {
          return Err(OutsideRoot(abs));
        }
        path := path[..|path| - 1];
      } else {
        path := path + [part];
      }
      i := i + 1;
    }
    return Ok(path);
  }

  // ----- Properties -----

  /** Anything not starting with `/` is a configuration error. */
  lemma RejectsRelative(abs: string)
    requires abs == [] || abs[0] != '/'
    ensures AbsToRelSpec(abs).Err? && AbsToRelSpec(abs).error.Kind() == InvalidConfiguration
  {
  }

  /** The change in stack height a piece causes. */
  function Weight(part: string): int
  {
    if part == "" || part == "." then 0 else if part == ".." then -1 else 1
  }

  /** The stack height a run of pieces adds, ignoring underflow. */
  function Balance(pieces: seq<string>): int
  {
    if pieces == [] then 0 else Weight(pieces[0]) + Balance(pieces[1..])
  }

  /**
   * The fold fails exactly when some prefix of the pieces holds more `..`
   * than the stack and the names before it can absorb.
   */
  lemma {:induction false} NormalizeFailsIff(pieces: seq<string>, stack: seq<string>)
    ensures Normalize(pieces, stack).None? <==>
            exists k :: 0 <= k <= |pieces| && |stack| + Balance(pieces[..k]) < 0
    decreases |pieces|
  {
    if pieces != [] {
      var part, rest := pieces[0], pieces[1..];
      var stack' := if part == "" || part == "." then stack
                    else if part == ".." then (if stack == [] then [] else stack[..|stack| - 1])
                    else stack + [part];
      forall k | 1 <= k <= |pieces|
        ensures Balance(pieces[..k]) == Weight(part) + Balance(rest[..k - 1])
      {
        assert pieces[..k][0] == part && pieces[..k][1..] == rest[..k - 1];
      }
      assert Balance(pieces[..0]) == 0 by { assert pieces[..0] == []; }
      if part == ".." && stack == [] {
        assert |stack| + Balance(pieces[..1]) < 0;
      } else {
        NormalizeFailsIff(rest, stack');
        assert |stack'| == |stack| + Weight(part);
        if Normalize(pieces, stack).None? {
          var k :| 0 <= k <= |rest| && |stack'| + Balance(rest[..k]) < 0;
          assert |stack| + Balance(pieces[..k + 1]) < 0;
        } else {
          forall k | 0 <= k <= |pieces| ensures |stack| + Balance(pieces[..k]) >= 0 {
            if k > 0 {
              assert |stack'| + Balance(rest[..k - 1]) >= 0;
            }
          }
        }
      }
    } else {
      assert forall k :: 0 <= k <= 0 ==> pieces[..k] == [];
    }
  }

  /** `abs_to_rel` fails on an absolute path exactly when some `..` finds nothing left to pop. */
  lemma EscapeIff(abs: string)
    requires |abs| > 0 && abs[0] == '/'
    ensures AbsToRelSpec(abs).Err? <==>
            exists k :: 0 <= k <= |Pieces(abs)| && Balance(Pieces(abs)[..k]) < 0
    ensures AbsToRelSpec(abs).Err? ==> AbsToRelSpec(abs).error == OutsideRoot(abs)
  {
    NormalizeFailsIff(Pieces(abs), []);
  }

  /** The fold keeps only clean names. */
  lemma {:induction false} NormalizeClean(pieces: seq<string>, stack: seq<string>)
    requires Clean(stack)
    requires forall i :: 0 <= i < |pieces| ==> '/' !in pieces[i]
    ensures Normalize(pieces, stack).Some? ==> Clean(Normalize(pieces, stack).value)
    decreases |pieces|
  {
    if pieces != [] {
      var part := pieces[0];
      if part == "" || part == "." {
        NormalizeClean(pieces[1..], stack);
      } else if part == ".." {
        if stack != [] {
          NormalizeClean(pieces[1..], stack[..|stack| - 1]);
        }
      } else {
        NormalizeClean(pieces[1..], stack + [part]);
      }
    }
  }

  /** On success the components contain no empty, `.` or `..` entry and no separator. */
  lemma ResultClean(abs: string)
    requires AbsToRelSpec(abs).Ok?
    ensures Clean(AbsToRelSpec(abs).value)
  {
    NormalizeClean(Pieces(abs), []);
  }

  /** Clean names are pushed unchanged. */
  lemma {:induction false} NormalizeCleanPieces(pieces: seq<string>, stack: seq<string>)
    requires Clean(pieces)
    ensures Normalize(pieces, stack) == Some(stack + pieces)
    decreases |pieces|
  {
    if pieces == [] {
      assert stack + pieces == stack;
    } else {
      NormalizeCleanPieces(pieces[1..], stack + [pieces[0]]);
      assert stack + [pieces[0]] + pieces[1..] == stack + pieces;
    }
  }

  /** Re-rooting clean components and normalising again yields the same components. */
  lemma RerootClean(cs: seq<string>)
    requires Clean(cs)
    ensures AbsToRelSpec("/" + JoinSep(cs)) == Ok(cs)
  {
    var abs := "/" + JoinSep(cs);
    if cs == [] {
      assert abs == "/";
      RootIsEmpty();
    } else {
      JoinSepHead(cs);
      assert abs[1..] == JoinSep(cs);
      assert TrimLeftSlashes(abs) == TrimLeftSlashes(JoinSep(cs));
      SplitJoin(cs);
      NormalizeCleanPieces(cs, []);
      assert [] + cs == cs;
    }
  }

  /** Normalisation is idempotent. */
  lemma Idempotent(abs: string)
    requires AbsToRelSpec(abs).Ok?
    ensures AbsToRelSpec("/" + JoinSep(AbsToRelSpec(abs).value)) == AbsToRelSpec(abs)
  {
    ResultClean(abs);
    RerootClean(AbsToRelSpec(abs).value);
  }

  /** Any number of leading separators is stripped: one more changes nothing but the error text. */
  lemma ExtraLeadingSlash(abs: string)
    requires |abs| > 0 && abs[0] == '/'
    ensures AbsToRelSpec("/" + abs).Ok? <==> AbsToRelSpec(abs).Ok?
    ensures AbsToRelSpec("/" + abs).Ok? ==> AbsToRelSpec("/" + abs) == AbsToRelSpec(abs)
  {
    assert ("/" + abs)[1..] == abs;
  }

  /** The root alone is the empty relative path. */
  lemma RootIsEmpty()
    ensures AbsToRelSpec("/") == Ok([])
    ensures AbsToRelSpec("///") == Ok([])
  {
    assert Pieces("/") == [""];
    assert Pieces("///") == [""];
    assert [""][1..] == [];
  }

  /** The pieces of a rooted path written as separator-free parts joined by `/`. */
  lemma PiecesOfRooted(parts: seq<string>)
    requires |parts| >= 1 && parts[0] != ""
    requires forall i :: 0 <= i < |parts| ==> '/' !in parts[i]
    ensures Pieces("/" + JoinSep(parts)) == parts
  {
    var rel := JoinSep(parts);
    JoinSepHead(parts);
    assert ("/" + rel)[1..] == rel;
    SplitJoin(parts);
  }

  // ----- The unit tests of src/de.rs -----

  /** A rooted path spelled out from separator-free parts normalises as its parts fold. */
  lemma Vector(parts: seq<string>, abs: string, expected: seq<string>)
    requires |parts| >= 1 && parts[0] != ""
    requires forall i :: 0 <= i < |parts| ==> '/' !in parts[i]
    requires abs == "/" + JoinSep(parts)
    requires Normalize(parts, []) == Some(expected)
    ensures AbsToRelSpec(abs) == Ok(expected)
  {
    PiecesOfRooted(parts);
  }

  lemma TestErrorsOnRel()
    ensures AbsToRelSpec("./hello/world").Err?
    ensures AbsToRelSpec("hello/world").Err?
  {
  }

  lemma TestReformats()
    ensures AbsToRelSpec("/hello/world") == Ok(["hello", "world"])
  {
    var parts := ["hello", "world"];
    NormalizeCleanPieces(parts, []);
    assert [] + parts == parts;
    Vector(parts, "/hello/world", parts);
  }

  /** One step of the fold, for spelling out the test vectors. */
  lemma Step(part: string, rest: seq<string>, stack: seq<string>)
    ensures Normalize([part] + rest, stack) ==
      if part == "" || part == "." then Normalize(rest, stack)
      else if part == ".." then (if stack == [] then None else Normalize(rest, stack[..|stack| - 1]))
      else Normalize(rest, stack + [part])
  {
    assert ([part] + rest)[0] == part && ([part] + rest)[1..] == rest;
  }

  /** Joining one more part in front. */
  lemma JoinCons(x: string, rest: seq<string>)
    requires rest != []
    ensures JoinSep([x] + rest) == x + "/" + JoinSep(rest)
  {
    assert ([x] + rest)[0] == x && ([x] + rest)[1..] == rest;
  }

  /*
   * The remaining vectors are first proved for arbitrary clean names, with
   * the path passed in spelled out from them, and then instantiated with
   * the literal paths of the unit tests.
   */

  /** An empty or `.` piece between two names is skipped. */
  lemma SkipsBetween(abs: string, a: string, skip: string, b: string)
    requires IsName(a) && IsName(b) && (skip == "" || skip == ".")
    requires abs == "/" + a + "/" + skip + "/" + b
    ensures AbsToRelSpec(abs) == Ok([a, b])
  {
    var parts := [a, skip, b];
    assert parts == [a] + ([skip] + ([b] + []));
    Step(a, parts[1..], []);
    Step(skip, parts[2..], [a]);
    Step(b, [], [a]);
    assert [] + [a] == [a] && [a] + [b] == [a, b];
    JoinCons(a, parts[1..]);
    JoinCons(skip, parts[2..]);
    assert abs == "/" + JoinSep(parts);
    Vector(parts, abs, [a, b]);
  }

  lemma CleansNop(abs1: string, abs2: string, a: string, b: string)
    requires IsName(a) && IsName(b)
    requires abs1 == "/" + a + "//" + b && abs2 == "/" + a + "/./" + b
    ensures AbsToRelSpec(abs1) == Ok([a, b])
    ensures AbsToRelSpec(abs2) == Ok([a, b])
  {
    assert abs1 == "/" + a + "/" + "" + "/" + b;
    assert abs2 == "/" + a + "/" + "." + "/" + b;
    SkipsBetween(abs1, a, "", b);
    SkipsBetween(abs2, a, ".", b);
  }

  lemma TestCleansNop()
    ensures AbsToRelSpec("/hello//world") == Ok(["hello", "world"])
    ensures AbsToRelSpec("/hello/./world") == Ok(["hello", "world"])
  {
    assert "/" + "hello" + "//" + "world" == "/hello//world";
    assert "/" + "hello" + "/./" + "world" == "/hello/./world";
    CleansNop("/hello//world", "/hello/./world", "hello", "world");
  }

  lemma FoldPopsRoot(a: string, b: string, c: string)
    requires IsName(a) && IsName(b) && IsName(c)
    ensures Normalize([a, "..", b, c], []) == Some([b, c])
  {
    var parts := [a, "..", b, c];
    assert parts == [a] + ([".."] + ([b] + ([c] + [])));
    Step(a, parts[1..], []);
    Step("..", parts[2..], [a]);
    Step(b, parts[3..], []);
    Step(c, [], [b]);
    assert [] + [a] == [a] && [a][..0] == [];
    assert [] + [b] == [b] && [b] + [c] == [b, c];
  }

  lemma CleansUpRoot(abs: string, a: string, b: string, c: string)
    requires IsName(a) && IsName(b) && IsName(c)
    requires abs == "/" + a + "/../" + b + "/" + c
    ensures AbsToRelSpec(abs) == Ok([b, c])
  {
    var parts := [a, "..", b, c];
    FoldPopsRoot(a, b, c);
    JoinCons(a, parts[1..]);
    JoinCons("..", parts[2..]);
    JoinCons(b, parts[3..]);
    assert abs == "/" + JoinSep(parts);
    Vector(parts, abs, [b, c]);
  }

  lemma TestCleansUpRoot()
    ensures AbsToRelSpec("/hello/../goodbye/world") == Ok(["goodbye", "world"])
  {
    assert "/" + "hello" + "/../" + "goodbye" + "/" + "world" == "/hello/../goodbye/world";
    CleansUpRoot("/hello/../goodbye/world", "hello", "goodbye", "world");
  }

  lemma FoldPopsRepeatedly(a: string, b: string, c: string, d: string)
    requires IsName(a) && IsName(b) && IsName(c) && IsName(d)
    ensures Normalize([a, b, "..", "..", c, d], []) == Some([c, d])
  {
    var parts := [a, b, "..", "..", c, d];
    assert parts == [a] + ([b] + ([".."] + ([".."] + ([c] + ([d] + [])))));
    Step(a, parts[1..], []);
    Step(b, parts[2..], [a]);
    Step("..", parts[3..], [a, b]);
    Step("..", parts[4..], [a]);
    Step(c, parts[5..], []);
    Step(d, [], [c]);
    assert [] + [a] == [a] && [a] + [b] == [a, b];
    assert [a, b][..1] == [a] && [a][..0] == [];
    assert [] + [c] == [c] && [c] + [d] == [c, d];
  }

  lemma CleansRepeatedUps(abs: string, a: string, b: string, c: string, d: string)
    requires IsName(a) && IsName(b) && IsName(c) && IsName(d)
    requires abs == "/" + a + "/" + b + "/../../" + c + "/" + d
    ensures AbsToRelSpec(abs) == Ok([c, d])
  {
    var parts := [a, b, "..", "..", c, d];
    FoldPopsRepeatedly(a, b, c, d);
    JoinCons(a, parts[1..]);
    JoinCons(b, parts[2..]);
    JoinCons("..", parts[3..]);
    JoinCons("..", parts[4..]);
    JoinCons(c, parts[5..]);
    assert abs == "/" + JoinSep(parts);
    Vector(parts, abs, [c, d]);
  }

  lemma TestCleansRepeatedUps()
    ensures AbsToRelSpec("/hello/world/../../foo/bar") == Ok(["foo", "bar"])
  {
    assert "/" + "hello" + "/" + "world" + "/../../" + "foo" + "/" + "bar" == "/hello/world/../../foo/bar";
    CleansRepeatedUps("/hello/world/../../foo/bar", "hello", "world", "foo", "bar");
  }

  lemma FoldPopsLeaf(a: string, b: string, c: string, d: string)
    requires IsName(a) && IsName(b) && IsName(c) && IsName(d)
    ensures Normalize([a, b, c, d, "..", ".."], []) == Some([a, b])
  {
    var parts := [a, b, c, d, "..", ".."];
    assert parts == [a] + ([b] + ([c] + ([d] + ([".."] + ([".."] + [])))));
    Step(a, parts[1..], []);
    Step(b, parts[2..], [a]);
    Step(c, parts[3..], [a, b]);
    Step(d, parts[4..], [a, b, c]);
    Step("..", parts[5..], [a, b, c, d]);
    Step("..", [], [a, b, c]);
    assert [] + [a] == [a] && [a] + [b] == [a, b];
    assert [a, b] + [c] == [a, b, c] && [a, b, c] + [d] == [a, b, c, d];
    assert [a, b, c, d][..3] == [a, b, c] && [a, b, c][..2] == [a, b];
  }

  lemma CleansUpLeaf(abs: string, a: string, b: string, c: string, d: string)
    requires IsName(a) && IsName(b) && IsName(c) && IsName(d)
    requires abs == "/" + a + "/" + b + "/" + c + "/" + d + "/../.."
    ensures AbsToRelSpec(abs) == Ok([a, b])
  {
    var parts := [a, b, c, d, "..", ".."];
    FoldPopsLeaf(a, b, c, d);
    JoinCons(a, parts[1..]);
    JoinCons(b, parts[2..]);
    JoinCons(c, parts[3..]);
    JoinCons(d, parts[4..]);
    JoinCons("..", parts[5..]);
    assert abs == "/" + JoinSep(parts);
    Vector(parts, abs, [a, b]);
  }

  lemma TestCleansUpLeaf()
    ensures AbsToRelSpec("/hello/world/foo/bar/../..") == Ok(["hello", "world"])
  {
    assert "/" + "hello" + "/" + "world" + "/" + "foo" + "/" + "bar" + "/../.." == "/hello/world/foo/bar/../..";
    CleansUpLeaf("/hello/world/foo/bar/../..", "hello", "world", "foo", "bar");
  }

  /** A rooted path spelled out from separator-free parts escapes when its parts' fold does. */
  lemma EscapeVector(parts: seq<string>, abs: string)
    requires |parts| >= 1 && parts[0] != ""
    requires forall i :: 0 <= i < |parts| ==> '/' !in parts[i]
    requires abs == "/" + JoinSep(parts)
    requires Normalize(parts, []) == None
    ensures AbsToRelSpec(abs) == Err(OutsideRoot(abs))
  {
    PiecesOfRooted(parts);
  }

  /** `..` with nothing left to pop escapes the root and is refused. */
  lemma TestEscapesAtRoot()
    ensures AbsToRelSpec("/..") == Err(OutsideRoot("/.."))
  {
    Step("..", [], []);
    assert [".."] == [".."] + [];
    EscapeVector([".."], "/..");
  }

  /** One name cannot absorb two `..`. */
  lemma Escapes(abs: string, a: string)
    requires IsName(a)
    requires abs == "/" + a + "/../.."
    ensures AbsToRelSpec(abs) == Err(OutsideRoot(abs))
  {
    var parts := [a, "..", ".."];
    assert parts == [a] + ([".."] + ([".."] + []));
    Step(a, parts[1..], []);
    Step("..", parts[2..], [a]);
    assert [] + [a] == [a] && [a][..0] == [];
    JoinCons(a, parts[1..]);
    JoinCons("..", parts[2..]);
    assert abs == "/" + JoinSep(parts);
    EscapeVector(parts, abs);
  }

  lemma TestEscapes()
    ensures AbsToRelSpec("/a/../..") == Err(OutsideRoot("/a/../.."))
  {
    assert "/" + "a" + "/../.." == "/a/../..";
    Escapes("/a/../..", "a");
  }
}
