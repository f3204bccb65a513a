/**
 * The part of Rust's `std::path` that the staging pipeline relies on, over
 * the raw OS string of a `PathBuf` (Unix flavour, separator `/`).
 * A path is a string; its components are what `Path::components` yields
 * after the root: empty and `.` segments are dropped, `..` is kept.
 */
module Paths {
  import opened Wrappers
  import opened Order

  /** `str::split('/')`: the pieces between separators, always at least one. */
  function Split(s: string): (r: seq<string>)
    ensures |r| >= 1
    ensures forall i :: 0 <= i < |r| ==> '/' !in r[i]
    decreases |s|
  {
    if s == [] then [[]]
    else
      var rest := Split(s[1..]);
      if s[0] == '/' then [[]] + rest
      else [[s[0]] + rest[0]] + rest[1..]
  }

  /** Pieces joined with `/`: the string a `PathBuf` holds after pushing each piece. */
  function JoinSep(parts: seq<string>): string
  {
    if |parts| == 0 then ""
    else if |parts| == 1 then parts[0]
    else parts[0] + "/" + JoinSep(parts[1..])
  }

  /** A segment that survives into the component list. */
  predicate Kept(seg: string)
  {
    seg != "" && seg != "."
  }

  /** Drop empty and `.` segments, keeping order. */
  function Filter(segs: seq<string>): (r: seq<string>)
    ensures |r| <= |segs|
    ensures forall i :: 0 <= i < |r| ==> Kept(r[i])
    ensures forall i :: 0 <= i < |r| ==> r[i] in segs
  {
    if segs == [] then []
    else if Kept(segs[0]) then [segs[0]] + Filter(segs[1..])
    else Filter(segs[1..])
  }

  /** The components of `p` after its root (`Normal` and `ParentDir` only). */
  function Components(p: string): seq<string>
  {
    Filter(Split(p))
  }

  /** `Path::is_absolute` on Unix. */
  predicate IsAbsolute(p: string)
  {
    |p| > 0 && p[0] == '/'
  }

  /** `Path::join` / `PathBuf::push`: an absolute right-hand side replaces the left,
      otherwise a separator is added unless the left is empty or already ends in one. */
  function Join(base: string, p: string): string
  {
    if IsAbsolute(p) then p
    else if base == [] || base[|base| - 1] == '/' then base + p
    else base + "/" + p
  }

  /** `Path::file_name`: the last component, unless there is none or it is `..`. */
  function FileName(p: string): Option<string>
  {
    var cs := Components(p);
    if |cs| == 0 || cs[|cs| - 1] == ".." then None else Some(cs[|cs| - 1])
  }

  /** The source's single-component test: `Path::new(s).file_name() == Some(s)`. */
  predicate SingleComponent(s: string)
  {
    FileName(s) == Some(s)
  }

  /** A path rebuilt from a root flag and components. */
  function Rebuild(rooted: bool, cs: seq<string>): string
  {
    (if rooted then "/" else "") + JoinSep(cs)
  }

  /** `Path::parent`: `None` for the empty path and the root, else the path minus its last component, rebuilt from its components. */
  function Parent(p: string): Option<string>
  {
    var cs := Components(p);
    if |cs| == 0 then None else Some(Rebuild(IsAbsolute(p), cs[..|cs| - 1]))
  }

  /** `Path::strip_prefix`: `base`'s root and components must prefix `p`'s; the rest is rebuilt from its components. */
  function StripPrefix(p: string, base: string): Option<string>
  {
    var cp, cb := Components(p), Components(base);
    if IsAbsolute(p) == IsAbsolute(base) && |cb| <= |cp| && cp[..|cb|] == cb
    then Some(JoinSep(cp[|cb|..]))
    else None
  }

  /** The `{:?}` rendering of a path, abstractly: wrapped in double quotes, escaping not modelled. */
  function Quote(p: string): string
  {
    "\"" + p + "\""
  }

  /** `{:?}` of a list of strings. */
  function QuoteList(ps: seq<string>): string
  {
    "[" + QuoteItems(ps) + "]"
  }

  function QuoteItems(ps: seq<string>): string
  {
    if |ps| == 0 then ""
    else if |ps| == 1 then Quote(ps[0])
    else Quote(ps[0]) + ", " + QuoteItems(ps[1..])
  }

  // ----- Path identity and order (`PathBuf`'s `Eq` and `Ord` compare components) -----

  /** `std::path::Component`, in declaration order (the derived `Ord`). */
  datatype Component = RootDir | ParentDir | Normal(name: string)

  function Rank(c: Component): nat
  {
    match c
    case RootDir => 0
    case ParentDir => 1
    case Normal(_) => 2
  }

  predicate ComponentLess(a: Component, b: Component)
  {
    Rank(a) < Rank(b) || (a.Normal? && b.Normal? && StringLess(a.name, b.name))
  }

  function ToComponent(seg: string): Component
  {
    if seg == ".." then ParentDir else Normal(seg)
  }

  /** The full component list `Path::components` yields, root first. */
  function Key(p: string): seq<Component>
  {
    var cs := Components(p);
    (if IsAbsolute(p) then [RootDir] else [])
      + seq(|cs|, i requires 0 <= i < |cs| => ToComponent(cs[i]))
  }

  /** Lexicographic order on component lists. */
  predicate KeyLess(a: seq<Component>, b: seq<Component>)
    decreases |a|
  {
    if |a| == 0 then |b| > 0
    else if |b| == 0 then false
    else if a[0] != b[0] then ComponentLess(a[0], b[0])
    else KeyLess(a[1..], b[1..])
  }

  /** `a < b` for `PathBuf`s. */
  predicate PathLess(a: string, b: string)
  {
    KeyLess(Key(a), Key(b))
  }

  lemma ComponentLessTotal(a: Component, b: Component)
    ensures a == b || ComponentLess(a, b) || ComponentLess(b, a)
  {
    if a.Normal? && b.Normal? {
      StringLessTotal(a.name, b.name);
    }
  }

  lemma ComponentLessIrreflexive(a: Component)
    ensures !ComponentLess(a, a)
  {
    if a.Normal? {
      StringLessIrreflexive(a.name);
    }
  }

  lemma ComponentLessTransitive(a: Component, b: Component, c: Component)
    requires ComponentLess(a, b) && ComponentLess(b, c)
    ensures ComponentLess(a, c)
  {
    if a.Normal? && b.Normal? && c.Normal? {
      StringLessTransitive(a.name, b.name, c.name);
    }
  }

  lemma {:induction false} KeyLessIrreflexive(a: seq<Component>)
    ensures !KeyLess(a, a)
    decreases |a|
  {
    if |a| > 0 {
      KeyLessIrreflexive(a[1..]);
    }
  }

  lemma {:induction false} KeyLessTransitive(a: seq<Component>, b: seq<Component>, c: seq<Component>)
    requires KeyLess(a, b) && KeyLess(b, c)
    ensures KeyLess(a, c)
    decreases |a|
  {
    if |a| > 0 && |b| > 0 && |c| > 0 {
      if a[0] == b[0] && b[0] == c[0] {
        KeyLessTransitive(a[1..], b[1..], c[1..]);
      } else if a[0] != b[0] && b[0] != c[0] {
        ComponentLessTransitive(a[0], b[0], c[0]);
        ComponentLessIrreflexive(a[0]);
      }
    }
  }

  lemma {:induction false} KeyLessTotal(a: seq<Component>, b: seq<Component>)
    ensures a == b || KeyLess(a, b) || KeyLess(b, a)
    decreases |a|
  {
    if |a| > 0 && |b| > 0 {
      if a[0] == b[0] {
        KeyLessTotal(a[1..], b[1..]);
        if a[1..] == b[1..] {
          assert a == [a[0]] + a[1..] && b == [b[0]] + b[1..];
        }
      } else {
        ComponentLessTotal(a[0], b[0]);
      }
    }
  }

  // ----- Lemmas about splitting and joining -----

  /** A string without separators splits into itself. */
  lemma {:induction false} SplitNoSep(s: string)
    requires '/' !in s
    ensures Split(s) == [s]
    decreases |s|
  {
    if s != [] {
      assert '/' !in s[1..] by {
        forall i | 0 <= i < |s| - 1 ensures s[1..][i] != '/' {
          assert s[1..][i] == s[i + 1];
        }
      }
      SplitNoSep(s[1..]);
      assert s == [s[0]] + s[1..];
    }
  }

  /** Splitting distributes over a separator: the separator ends the left part's last piece. */
  lemma {:induction false} SplitAround(a: string, b: string)
    ensures Split(a + "/" + b) == Split(a) + Split(b)
    decreases |a|
  {
    if a == [] {
      SplitAtSep("/" + b);
      assert a + "/" + b == "/" + b;
    } else {
      var s := a + "/" + b;
      assert s[1..] == a[1..] + "/" + b;
      SplitAround(a[1..], b);
      SplitCons(s);
      SplitCons(a);
    }
  }

  /** One step of `Split` at a leading separator. */
  lemma SplitAtSep(s: string)
    requires |s| > 0 && s[0] == '/'
    ensures Split(s) == [[]] + Split(s[1..])
  {
  }

  /** One step of `Split` at any leading character. */
  lemma SplitCons(s: string)
    requires |s| > 0
    ensures s[0] == '/' ==> Split(s) == [[]] + Split(s[1..])
    ensures s[0] != '/' ==> Split(s) == [[s[0]] + Split(s[1..])[0]] + Split(s[1..])[1..]
  {
  }

  /** Round trip one way: joining the pieces of a split gives the string back. */
  lemma {:induction false} JoinSplit(s: string)
    ensures JoinSep(Split(s)) == s
    decreases |s|
  {
    if s != [] {
      JoinSplit(s[1..]);
      var rest := Split(s[1..]);
      if s[0] == '/' {
        assert Split(s) == [[]] + rest;
        assert ([[]] + rest)[1..] == rest;
        assert s == [] + "/" + s[1..];
      } else {
        var head := [s[0]] + rest[0];
        assert Split(s) == [head] + rest[1..];
        if |rest| == 1 {
          assert rest == [rest[0]];
          assert JoinSep(rest) == rest[0];
        } else {
          assert JoinSep(rest) == rest[0] + "/" + JoinSep(rest[1..]);
          assert ([head] + rest[1..])[1..] == rest[1..];
        }
        assert s == [s[0]] + s[1..];
      }
    }
  }

  /** Round trip the other way: separator-free pieces come back from splitting their join. */
  lemma {:induction false} SplitJoin(parts: seq<string>)
    requires |parts| >= 1
    requires forall i :: 0 <= i < |parts| ==> '/' !in parts[i]
    ensures Split(JoinSep(parts)) == parts
    decreases |parts|
  {
    SplitNoSep(parts[0]);
    if |parts| > 1 {
      SplitJoin(parts[1..]);
      SplitAround(parts[0], JoinSep(parts[1..]));
      assert parts == [parts[0]] + parts[1..];
    }
  }

  lemma {:induction false} FilterAppend(a: seq<string>, b: seq<string>)
    ensures Filter(a + b) == Filter(a) + Filter(b)
    decreases |a|
  {
    if a != [] {
      FilterAppend(a[1..], b);
      assert (a + b)[1..] == a[1..] + b;
      assert (a + b)[0] == a[0];
    } else {
      assert a + b == b;
    }
  }

  /** A component list is clean when every entry is a `Normal` name. */
  predicate Clean(cs: seq<string>)
  {
    forall i :: 0 <= i < |cs| ==> cs[i] != "" && cs[i] != "." && cs[i] != ".." && '/' !in cs[i]
  }

  lemma {:induction false} FilterKeepsKept(segs: seq<string>)
    requires forall i :: 0 <= i < |segs| ==> Kept(segs[i])
    ensures Filter(segs) == segs
    decreases |segs|
  {
    if segs != [] {
      FilterKeepsKept(segs[1..]);
      assert segs == [segs[0]] + segs[1..];
    }
  }

  /** The `PathBuf` built by pushing components (`Normal` or `..`) has exactly those components. */
  lemma ComponentsOfJoinSep(cs: seq<string>)
    requires forall i :: 0 <= i < |cs| ==> Kept(cs[i]) && '/' !in cs[i]
    ensures Components(JoinSep(cs)) == cs
    ensures !IsAbsolute(JoinSep(cs))
  {
    if |cs| == 0 {
      assert Split("") == [""];
    } else {
      SplitJoin(cs);
      FilterKeepsKept(cs);
      assert JoinSep(cs)[0] == cs[0][0] by { JoinSepHead(cs); }
    }
  }

  lemma {:induction false} JoinSepHead(cs: seq<string>)
    requires |cs| >= 1 && |cs[0]| >= 1
    ensures |JoinSep(cs)| >= 1 && JoinSep(cs)[0] == cs[0][0]
    decreases |cs|
  {
  }

  /** Joining a relative path appends its components and keeps the base's rootedness. */
  lemma JoinRelative(base: string, p: string)
    requires !IsAbsolute(p)
    ensures Components(Join(base, p)) == Components(base) + Components(p)
    ensures IsAbsolute(Join(base, p)) == IsAbsolute(base)
  {
    if base == [] {
      assert Components(base) == [] by { assert Split("") == [""]; }
      assert Join(base, p) == p;
    } else if base[|base| - 1] == '/' {
      var b' := base[..|base| - 1];
      assert base == b' + "/" + "";
      assert Join(base, p) == b' + "/" + p;
      SplitAround(b', p);
      SplitAround(b', "");
      assert Split("") == [""];
      FilterAppend(Split(b'), Split(p));
      FilterAppend(Split(b'), [""]);
      assert Filter([""]) == [];
    } else {
      SplitAround(base, p);
      FilterAppend(Split(base), Split(p));
    }
  }

  /** An absolute right-hand side replaces the left. */
  lemma JoinAbsolute(base: string, p: string)
    requires IsAbsolute(p)
    ensures Join(base, p) == p
  {
  }

  /** A single normal component: non-empty, separator-free, neither `.` nor `..`. */
  predicate IsName(s: string)
  {
    s != "" && s != "." && s != ".." && '/' !in s
  }

  /** `Path::file_name() == Some(s)` holds exactly for a single normal component. */
  lemma SingleComponentIff(s: string)
    ensures SingleComponent(s) <==> IsName(s)
  {
    if '/' !in s {
      SplitNoSep(s);
      if Kept(s) {
        assert Filter([s]) == [s] + Filter([]);
      } else {
        assert Filter([s]) == Filter([]);
      }
    } else {
      var cs := Components(s);
      if |cs| > 0 {
        var last := cs[|cs| - 1];
        assert last in Split(s);
        assert last != s by {
          assert '/' !in last;
        }
      }
    }
  }

  /** A name is a relative path with itself as its only component. */
  lemma ComponentsOfName(s: string)
    requires IsName(s)
    ensures Components(s) == [s] && !IsAbsolute(s)
  {
    SplitNoSep(s);
    assert Filter([s]) == [s] + Filter([]);
  }
}
