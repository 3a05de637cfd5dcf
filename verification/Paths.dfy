/**
Slash-separated paths as the platform handles them: Go's `path.Clean` and `path.Join`
on segments, containment by string prefix (pkg/bwrap/validate.go), and the gate in front
of the filesystem walk (pkg/safepath/safepath.go).
*/
module Paths {
  import opened Options

  // --------------------------------------------------------------- containment

  /** Whether `parent` is `child` or an ancestor of it, on the literal strings. */
  predicate Contains(parent: string, child: string) {
    parent == child || parent == "/" || parent + "/" <= child
  }

  predicate Overlaps(a: string, b: string) {
    Contains(a, b) || Contains(b, a)
  }

  /** How many slashes a path has: its depth, for a path other than the root. */
  function Count(s: string): nat {
    if s == "" then 0 else (if s[0] == '/' then 1 else 0) + Count(s[1..])
  }

  /** The order strings are compared in. */
  predicate Less(a: string, b: string) {
    if b == "" then false
    else if a == "" then true
    else a[0] < b[0] || (a[0] == b[0] && Less(a[1..], b[1..]))
  }

  lemma {:induction false} LessIsTotal(a: string, b: string)
    ensures a == b || Less(a, b) || Less(b, a)
    ensures !(Less(a, b) && Less(b, a)) && !(Less(a, b) && a == b)
  {
    if a != "" && b != "" {
      LessIsTotal(a[1..], b[1..]);
      assert a == [a[0]] + a[1..] && b == [b[0]] + b[1..];
    }
  }

  lemma {:induction false} LessIsTransitive(a: string, b: string, c: string)
    requires Less(a, b) && Less(b, c)
    ensures Less(a, c)
  {
    if a != "" && a[0] == b[0] == c[0] {
      LessIsTransitive(a[1..], b[1..], c[1..]);
    }
  }

  /** The ancestors of a path form a chain, however the strings came about. */
  lemma AncestorsAreComparable(a: string, b: string, q: string)
    requires Contains(a, q) && Contains(b, q)
    ensures Overlaps(a, b)
  {
    if a != q && b != q && a != "/" && b != "/" {
      if |a| < |b| {
        assert b[..|a| + 1] == q[..|a| + 1] == a + "/";
      } else if |b| < |a| {
        assert a[..|b| + 1] == q[..|b| + 1] == b + "/";
      } else {
        assert a == q[..|a|] == b;
      }
    }
  }

  lemma ContainsIsTransitive(a: string, b: string, c: string)
    requires Contains(a, b) && Contains(b, c) && b != "/"
    ensures Contains(a, c)
  {
  }

  lemma {:induction false} CountOfConcat(a: string, b: string)
    ensures Count(a + b) == Count(a) + Count(b)
  {
    if a == "" {
      assert a + b == b;
    } else {
      CountOfConcat(a[1..], b);
      assert a + b == [a[0]] + (a[1..] + b);
    }
  }

  /** A proper ancestor is strictly shallower and strictly shorter. */
  lemma AncestorIsShallower(a: string, b: string)
    requires Contains(a, b) && a != b && a != "/"
    ensures Count(a) < Count(b) && |a| < |b|
  {
    assert b == (a + "/") + b[|a| + 1..];
    CountOfConcat(a + "/", b[|a| + 1..]);
    CountOfConcat(a, "/");
  }

  // ------------------------------------------------------------------ segments

  function Split(s: string): (segs: seq<string>)
    ensures |segs| > 0
  {
    if s == "" then [""]
    else if s[0] == '/' then [""] + Split(s[1..])
    else
      var rest := Split(s[1..]);
      [[s[0]] + rest[0]] + rest[1..]
  }

  function JoinSegs(segs: seq<string>): string {
    if segs == [] then "" else if |segs| == 1 then segs[0] else segs[0] + "/" + JoinSegs(segs[1..])
  }

  predicate Slashless(s: string) {
    forall i :: 0 <= i < |s| ==> s[i] != '/'
  }

  /** A segment that names something: not empty, and neither "." nor "..". */
  predicate Proper(seg: string) {
    seg != "" && seg != "." && seg != ".." && Slashless(seg)
  }

  ghost predicate AllProper(segs: seq<string>) {
    forall i :: 0 <= i < |segs| ==> Proper(segs[i])
  }

  lemma {:induction false} SplitIsSlashless(s: string)
    ensures forall i :: 0 <= i < |Split(s)| ==> Slashless(Split(s)[i])
  {
    if s != "" {
      SplitIsSlashless(s[1..]);
    }
  }

  lemma {:induction false} SplitThenJoin(s: string)
    ensures JoinSegs(Split(s)) == s
  {
    if s != "" {
      SplitThenJoin(s[1..]);
      var rest := Split(s[1..]);
      assert s == [s[0]] + s[1..];
      if s[0] == '/' {
        assert ([""] + rest)[1..] == rest;
      } else if |rest| > 1 {
        assert ([[s[0]] + rest[0]] + rest[1..])[1..] == rest[1..];
        assert Split(s)[0] + "/" + JoinSegs(rest[1..]) == [s[0]] + (rest[0] + "/" + JoinSegs(rest[1..]));
      }
    }
  }

  lemma {:induction false} SplitOfSlashless(s: string)
    requires Slashless(s)
    ensures Split(s) == [s]
  {
    if s != "" {
      SplitOfSlashless(s[1..]);
      assert s == [s[0]] + s[1..];
    }
  }

  /** The segments with one more character in front. */
  function Lead(c: char, segs: seq<string>): seq<string>
    requires |segs| > 0
  {
    if c == '/' then [""] + segs else [[c] + segs[0]] + segs[1..]
  }

  lemma SplitOfCons(c: char, s: string)
    ensures Split([c] + s) == Lead(c, Split(s))
  {
  }

  lemma LeadOfConcat(c: char, x: seq<string>, y: seq<string>)
    requires |x| > 0
    ensures Lead(c, x + y) == Lead(c, x) + y
  {
  }

  lemma {:induction false} SplitOfConcat(a: string, b: string)
    ensures Split(a + "/" + b) == Split(a) + Split(b)
  {
    if a == "" {
      SplitOfCons('/', b);
      assert a + "/" + b == ['/'] + b;
    } else {
      hide Split, Lead;
      var c, rest := a[0], a[1..];
      SplitOfConcat(rest, b);
      SplitOfCons(c, rest);
      SplitOfCons(c, rest + "/" + b);
      assert a == [c] + rest && a + "/" + b == [c] + (rest + "/" + b);
      LeadOfConcat(c, Split(rest), Split(b));
    }
  }

  lemma {:induction false} SplitOfJoin(segs: seq<string>)
    requires segs != [] && forall i :: 0 <= i < |segs| ==> Slashless(segs[i])
    ensures Split(JoinSegs(segs)) == segs
  {
    SplitOfSlashless(segs[0]);
    if |segs| > 1 {
      SplitOfJoin(segs[1..]);
      SplitOfConcat(segs[0], JoinSegs(segs[1..]));
    }
  }

  // --------------------------------------------------------------------- Clean

  /** What one segment does to the path walked so far. */
  function Push(rooted: bool, done: seq<string>, seg: string): seq<string> {
    if seg == "" || seg == "." then done
    else if seg == ".." then
      if done != [] && done[|done| - 1] != ".." then done[..|done| - 1]
      else if rooted then done
      else done + [".."]
    else done + [seg]
  }

  function Walk(rooted: bool, done: seq<string>, segs: seq<string>): seq<string>
    decreases |segs|
  {
    if segs == [] then done else Walk(rooted, Push(rooted, done, segs[0]), segs[1..])
  }

  predicate Rooted(p: string) {
    p != "" && p[0] == '/'
  }

  function Abs(segs: seq<string>): string {
    "/" + JoinSegs(segs)
  }

  function Clean(p: string): string {
    var done := Walk(Rooted(p), [], Split(p));
    if Rooted(p) then Abs(done) else if done == [] then "." else JoinSegs(done)
  }

  /** path.Join of two elements. */
  function Join(a: string, b: string): string {
    if a == "" && b == "" then "" else if a == "" then Clean(b) else Clean(a + "/" + b)
  }

  lemma {:induction false} WalkOfConcat(rooted: bool, done: seq<string>, a: seq<string>, b: seq<string>)
    ensures Walk(rooted, done, a + b) == Walk(rooted, Walk(rooted, done, a), b)
    decreases |a|
  {
    if a == [] {
      assert a + b == b;
    } else {
      assert (a + b)[0] == a[0] && (a + b)[1..] == a[1..] + b;
      WalkOfConcat(rooted, Push(rooted, done, a[0]), a[1..], b);
    }
  }

  lemma {:induction false} WalkOfProper(rooted: bool, done: seq<string>, segs: seq<string>)
    requires AllProper(segs)
    ensures Walk(rooted, done, segs) == done + segs
    decreases |segs|
  {
    if segs != [] {
      WalkOfProper(rooted, done + [segs[0]], segs[1..]);
      assert done + [segs[0]] + segs[1..] == done + segs;
    }
  }

  /** Without "..", walking only ever goes down, through named segments. */
  lemma {:induction false} WalkGoesDown(rooted: bool, done: seq<string>, segs: seq<string>)
    requires forall i :: 0 <= i < |segs| ==> segs[i] != ".." && Slashless(segs[i])
    ensures done <= Walk(rooted, done, segs)
    ensures AllProper(Walk(rooted, done, segs)[|done|..])
    decreases |segs|
  {
    if segs != [] {
      var next := Push(rooted, done, segs[0]);
      WalkGoesDown(rooted, next, segs[1..]);
      var w := Walk(rooted, done, segs);
      assert w[|done|..] == (if next == done then [] else [segs[0]]) + w[|next|..];
    }
  }

  /** From the root, walking leaves only named segments. */
  lemma {:induction false} RootedWalkIsProper(done: seq<string>, segs: seq<string>)
    requires AllProper(done) && forall i :: 0 <= i < |segs| ==> Slashless(segs[i])
    ensures AllProper(Walk(true, done, segs))
    decreases |segs|
  {
    if segs != [] {
      RootedWalkIsProper(Push(true, done, segs[0]), segs[1..]);
    }
  }

  lemma SplitOfAbs(segs: seq<string>)
    requires AllProper(segs)
    ensures Split(Abs(segs)) == if segs == [] then ["", ""] else [""] + segs
  {
    if segs == [] {
      assert Abs(segs) == "/" && "/"[1..] == "";
    } else {
      SplitOfJoin(segs);
      assert Abs(segs)[1..] == JoinSegs(segs);
    }
  }

  /** The named segments of an absolute path once it is cleaned. */
  function Names(p: string): seq<string>
  {
    Walk(true, [], Split(p))
  }

  lemma NamesAreProper(p: string)
    ensures AllProper(Names(p))
  {
    SplitIsSlashless(p);
    RootedWalkIsProper([], Split(p));
  }

  lemma NamesOfAbs(segs: seq<string>)
    requires AllProper(segs)
    ensures Names(Abs(segs)) == segs
  {
    SplitOfAbs(segs);
    if segs == [] {
      assert Walk(true, [], ["", ""]) == Walk(true, [], [""]);
    } else {
      WalkOfConcat(true, [], [""], segs);
      WalkOfProper(true, [], segs);
    }
  }

  /** Cleaning an absolute path is idempotent. */
  lemma CleanIsIdempotent(p: string)
    requires Rooted(p)
    ensures Clean(Clean(p)) == Clean(p) && Rooted(Clean(p))
  {
    NamesAreProper(p);
    NamesOfAbs(Names(p));
  }

  /** Appending a relative path walks on from where the cleaned base stands. */
  lemma JoinWalksOn(base: string, rel: string)
    requires Rooted(base)
    ensures Join(base, rel) == Abs(Walk(true, Names(base), Split(rel)))
  {
    SplitOfConcat(base, rel);
    WalkOfConcat(true, [], Split(base), Split(rel));
  }

  lemma {:induction false} JoinSegsOfConcat(a: seq<string>, b: seq<string>)
    requires a != [] && b != []
    ensures JoinSegs(a + b) == JoinSegs(a) + "/" + JoinSegs(b)
  {
    if |a| == 1 {
      assert (a + b)[1..] == b;
    } else {
      JoinSegsOfConcat(a[1..], b);
      assert (a + b)[1..] == a[1..] + b;
      assert JoinSegs(a + b) == a[0] + "/" + (JoinSegs(a[1..]) + "/" + JoinSegs(b));
    }
  }

  lemma DeeperIsContained(a: seq<string>, b: seq<string>)
    ensures Contains(Abs(a), Abs(a + b))
  {
    if b == [] {
      assert a + b == a;
    } else if a != [] {
      JoinSegsOfConcat(a, b);
      assert Abs(a + b) == (Abs(a) + "/") + JoinSegs(b);
    }
  }

  // ------------------------------------------- lexical gates (safepath, subPath)

  predicate HasNul(s: string) {
    exists i :: 0 <= i < |s| && s[i] == '\0'
  }

  /** checkRel: a clean, relative, traversal-free path; "" and "." are the root itself. */
  function CheckRel(rel: string): Option<string> {
    if rel == "" || rel == "." then Some(".")
    else if Rooted(rel) || HasNul(rel) || Clean(rel) != rel then None
    else if exists i :: 0 <= i < |Split(rel)| && (Split(rel)[i] == ".." || Split(rel)[i] == "") then None
    else Some(rel)
  }

  /** validateSubPath. */
  predicate SubPathOk(sub: string) {
    sub == "" ||
    (&& !Rooted(sub) && !HasNul(sub)
     && (forall i :: 0 <= i < |Split(sub)| ==> Split(sub)[i] != "..")
     && Clean(sub) == sub)
  }

  /** isAbsClean: an absolute path already in canonical form. */
  predicate IsAbsClean(p: string) {
    && Rooted(p) && !HasNul(p)
    && (forall i :: 0 <= i < |Split(p)| ==> Split(p)[i] != ".." && Split(p)[i] != ".")
    && Clean(p) == p
  }

  lemma SubPathIsRelative(sub: string)
    requires SubPathOk(sub)
    ensures CheckRel(sub).Some?
  {
    SplitIsSlashless(sub);
    if sub == "" {
      assert Split(sub) == [""];
    } else {
      var done := Walk(false, [], Split(sub));
      WalkGoesDown(false, [], Split(sub));
      assert done[0..] == done;
      if done != [] {
        SplitOfJoin(done);
      }
    }
  }

  lemma SubPathJoinsInside(volume: string, sub: string)
    requires Rooted(volume) && SubPathOk(sub)
    ensures Contains(Clean(volume), Join(volume, sub))
  {
    var at := Names(volume);
    assert forall i :: 0 <= i < |Split(sub)| ==> Split(sub)[i] != "..";
    SplitIsSlashless(sub);
    hide SubPathOk, Split, Walk, Contains;
    WalkGoesDown(true, at, Split(sub));
    var w := Walk(true, at, Split(sub));
    assert w == at + w[|at|..];
    DeeperIsContained(at, w[|at|..]);
    JoinWalksOn(volume, sub);
  }

  /**
  A subpath a spec may name passes the gate before the filesystem walk, and joins to a path
  inside the cleaned volume root.
  */
  lemma SubPathStaysInside(volume: string, sub: string)
    requires Rooted(volume) && SubPathOk(sub)
    ensures CheckRel(sub).Some?
    ensures Contains(Clean(volume), Join(volume, sub))
  {
    SubPathIsRelative(sub);
    SubPathJoinsInside(volume, sub);
  }
}
