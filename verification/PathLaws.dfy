/**
What the path functions mean, told without them: path.Clean by the laws that determine it, and
the canonical forms and the containment test of pkg/bwrap/validate.go by segments.
*/
module PathLaws {
  import opened Options
  import opened Paths
  import opened FileRoots

  // --------------------------------------------------------- absolute paths

  /** Segments after a slash are walked from where the path so far has led. */
  lemma NamesOfMore(p: string, rel: string)
    ensures Names(p + "/" + rel) == Walk(true, Names(p), Split(rel))
  {
    SplitOfConcat(p, rel);
    WalkOfConcat(true, [], Split(p), Split(rel));
  }

  lemma WalkOfOne(rooted: bool, done: seq<string>, seg: string)
    requires Slashless(seg)
    ensures Walk(rooted, done, Split(seg)) == Push(rooted, done, seg)
  {
    SplitOfSlashless(seg);
    hide Push;
    assert [seg][1..] == [];
    assert Walk(rooted, Push(rooted, done, seg), []) == Push(rooted, done, seg);
  }

  lemma CleanIsAbs(p: string)
    requires Rooted(p)
    ensures Clean(p) == Abs(Names(p)) && AllProper(Names(p))
  {
    NamesAreProper(p);
  }

  /** A named segment is appended. */
  lemma CleanOfChild(p: string, s: string)
    requires Rooted(p) && Proper(s)
    ensures Names(p + "/" + s) == Names(p) + [s]
    ensures Clean(p + "/" + s) == if Clean(p) == "/" then "/" + s else Clean(p) + "/" + s
  {
    NamesOfMore(p, s);
    WalkOfOne(true, Names(p), s);
    NamesAreProper(p);
    if Names(p) == [] {
      assert Abs([] + [s]) == "/" + s;
    } else {
      AbsIsLonger(Names(p));
      JoinSegsOfConcat(Names(p), [s]);
      assert Abs(Names(p) + [s]) == Abs(Names(p)) + "/" + s;
    }
  }

  lemma AbsIsLonger(n: seq<string>)
    requires AllProper(n) && n != []
    ensures Abs(n) != "/"
  {
    NameFollowsRoot(n);
  }

  /** ".." takes the last name off, and stops at the root. */
  lemma CleanOfParent(p: string)
    requires Rooted(p)
    ensures Names(p + "/..") == if Names(p) == [] then [] else Names(p)[..|Names(p)| - 1]
  {
    NamesAreProper(p);
    NamesOfMore(p, "..");
    WalkOfOne(true, Names(p), "..");
    assert p + "/" + ".." == p + "/..";
  }

  lemma CleanOfRootParent(p: string)
    requires Rooted(p) && Clean(p) == "/"
    ensures Clean(p + "/..") == "/"
  {
    NamesAreProper(p);
    if Names(p) != [] {
      AbsIsLonger(Names(p));
    }
    CleanOfParent(p);
  }

  /** So going down and up again leads back. */
  lemma CleanOfDetour(p: string, s: string)
    requires Rooted(p) && Proper(s)
    ensures Clean(p + "/" + s + "/..") == Clean(p)
  {
    CleanOfChild(p, s);
    CleanOfParent(p + "/" + s);
    assert (Names(p) + [s])[..|Names(p)|] == Names(p);
  }

  /** "." and empty segments are nothing. */
  lemma CleanOfDot(p: string)
    requires Rooted(p)
    ensures Clean(p + "/.") == Clean(p) && Clean(p + "/") == Clean(p)
  {
    NamesOfMore(p, ".");
    WalkOfOne(true, Names(p), ".");
    NamesOfMore(p, "");
    WalkOfOne(true, Names(p), "");
    assert p + "/" + "." == p + "/." && p + "/" + "" == p + "/";
  }

  lemma CleanOfRoot()
    ensures Clean("/") == "/" && Names("/") == [] && Clean("/..") == "/"
  {
    assert Split("/") == ["", ""] by {
      assert "/"[1..] == "" && Split("") == [""];
    }
    assert Walk(true, [], ["", ""]) == Walk(true, [], [""]) by {
      assert ["", ""][1..] == [""];
    }
    assert [""][1..] == [];
    assert Names("/") == [];
    NamesOfMore("", "..");
    assert "" + "/" + ".." == "/..";
    assert Split("") == [""];
    WalkOfOne(true, Names(""), "..");
    assert Names("") == [];
  }

  // --------------------------------------------------------- relative paths

  /** The segments a relative path is cleaned to. */
  function Steps(p: string): seq<string> {
    Walk(false, [], Split(p))
  }

  lemma CleanOfRelative(p: string)
    requires !Rooted(p)
    ensures Clean(p) == if Steps(p) == [] then "." else JoinSegs(Steps(p))
  {
  }

  /** A relative path keeps the ".." that lead above where it starts, and otherwise goes the same ways. */
  lemma StepsOfMore(p: string, s: string)
    requires Slashless(s)
    ensures Steps("") == []
    ensures Proper(s) ==> Steps(p + "/" + s) == Steps(p) + [s]
    ensures s == "" || s == "." ==> Steps(p + "/" + s) == Steps(p)
    ensures s == ".." ==> Steps(p + "/" + s)
                          == if Steps(p) == [] || Steps(p)[|Steps(p)| - 1] == ".." then Steps(p) + [".."]
                             else Steps(p)[..|Steps(p)| - 1]
  {
    SplitOfConcat(p, s);
    WalkOfConcat(false, [], Split(p), Split(s));
    WalkOfOne(false, Steps(p), s);
    WalkOfOne(false, [], "");
  }

  /** validateSubPath and checkRel accept the empty path, "." and names joined by single slashes. */
  lemma RelativeFormIff(sub: string)
    ensures SubPathOk(sub) <==> sub == "" || sub == "." || (AllProper(Split(sub)) && !HasNul(sub))
    ensures CheckRel(sub).Some? <==> SubPathOk(sub)
    ensures CheckRel(sub).Some? ==> CheckRel(sub).value == if sub == "" then "." else sub
  {
    SplitIsSlashless(sub);
    if AllProper(Split(sub)) && !HasNul(sub) {
      ProperIsAccepted(sub);
    }
    if sub == "." {
      SplitOfSlashless(".");
      WalkOfOne(false, [], ".");
    }
    if SubPathOk(sub) {
      SubPathIsRelative(sub);
      if sub != "" && sub != "." {
        CanonicalIsProper(sub);
      }
    }
    if CheckRel(sub).Some? && sub != "" && sub != "." {
      CanonicalIsProper(sub);
    }
  }

  lemma CanonicalIsProper(sub: string)
    requires sub != "" && sub != "." && !Rooted(sub) && Clean(sub) == sub
    requires forall i :: 0 <= i < |Split(sub)| ==> Split(sub)[i] != ".."
    ensures AllProper(Split(sub))
  {
    SplitIsSlashless(sub);
    WalkGoesDown(false, [], Split(sub));
    var n := Steps(sub);
    assert n[0..] == n;
    SplitOfJoin(n);
  }

  // ------------------------------------------------- canonical absolute paths

  /** A slash, and names joined by slashes; no NUL. */
  ghost predicate Canonical(p: string) {
    !HasNul(p) && exists n :: AllProper(n) && p == Abs(n)
  }

  lemma IsAbsCleanIff(p: string)
    ensures IsAbsClean(p) <==> Canonical(p)
    ensures Canonical(p) ==> p == Abs(Names(p)) && AllProper(Names(p))
  {
    if IsAbsClean(p) {
      NamesAreProper(p);
    }
    if Canonical(p) {
      var n :| AllProper(n) && p == Abs(n);
      NamesOfAbs(n);
      SplitOfAbs(n);
    }
  }

  lemma AbsContainsIff(m: seq<string>, n: seq<string>)
    requires AllProper(m) && AllProper(n)
    ensures Contains(Abs(m), Abs(n)) <==> m <= n
  {
    var a, b := Abs(m), Abs(n);
    if m <= n {
      DeeperIsContained(m, n[|m|..]);
      assert m + n[|m|..] == n;
    }
    NamesOfAbs(m);
    NamesOfAbs(n);
    if Contains(a, b) && m != n && m != [] {
      AbsIsLonger(m);
      var rel := b[|a| + 1..];
      assert b == a + "/" + rel;
      AbsSplits(m, n, rel);
    }
  }

  /** Containment of canonical paths is being a prefix, segment for segment. */
  lemma ContainsIff(a: string, b: string)
    requires Canonical(a) && Canonical(b)
    ensures Contains(a, b) <==> Names(a) <= Names(b)
  {
    IsAbsCleanIff(a);
    IsAbsCleanIff(b);
    AbsContainsIff(Names(a), Names(b));
  }

  // ------------------------------------------------------ the file API's choice

  lemma AbsOfMore(m: seq<string>, n: seq<string>)
    requires m <= n && m != [] && m != n
    ensures Abs(n) == Abs(m) + "/" + JoinSegs(n[|m|..])
  {
    JoinSegsOfConcat(m, n[|m|..]);
    assert m + n[|m|..] == n;
  }

  /** What a root leaves of a path: the names it does not have, if it has the first ones. */
  lemma RelativeBySegments(root: string, path: string)
    requires Rooted(root) && Rooted(path) && Names(root) != []
    ensures var m, n := Names(root), Names(path);
            Relative(Clean(root), Clean(path))
            == if m == n then Some(".") else if m <= n then Some(JoinSegs(n[|m|..])) else None
  {
    var m, n := Names(root), Names(path);
    CleanIsAbs(root);
    CleanIsAbs(path);
    NamesOfAbs(m);
    NamesOfAbs(n);
    AbsContainsIff(m, n);
    AbsIsLonger(m);
    if m <= n && m != n {
      AbsOfMore(m, n);
    }
  }

  lemma LongerHasMoreNames(m: seq<string>, k: seq<string>, n: seq<string>)
    requires m <= n && k <= n && |Abs(k)| <= |Abs(m)| && m != []
    ensures |k| <= |m|
  {
    if |m| < |k| {
      assert m <= k && m != k;
      AbsOfMore(m, k);
    }
  }

  /** A directory below the root directory. */
  ghost predicate Sits(root: string) {
    Rooted(root) && Names(root) != []
  }

  /**
  resolveRoot by segments: an absolute path goes to a root whose names it starts with, to one with
  the most names, with the rest of its names as the relative part; and to none exactly if it starts
  with no root's names. A relative path goes nowhere.
  */
  lemma ResolveBySegments(roots: seq<Root>, path: string)
    requires forall i :: 0 <= i < |roots| ==> Sits(roots[i].path)
    ensures Resolve(roots, path).None?
       <==> !Rooted(path) || forall i :: 0 <= i < |roots| ==> !(Names(roots[i].path) <= Names(path))
    ensures Resolve(roots, path).Some? ==>
              var (r, rel) := Resolve(roots, path).value;
              && r in roots && Names(r.path) <= Names(path)
              && rel == (if Names(r.path) == Names(path) then "." else JoinSegs(Names(path)[|Names(r.path)|..]))
              && forall i :: 0 <= i < |roots| && Names(roots[i].path) <= Names(path) ==>
                   |Names(roots[i].path)| <= |Names(r.path)|
  {
    if Rooted(path) {
      hide Walk, Names, Split, Relative, Best, JoinSegs;
      BestIsLongest(roots, Clean(path));
      forall i | 0 <= i < |roots|
        ensures Relative(Clean(roots[i].path), Clean(path)).Some? <==> Names(roots[i].path) <= Names(path)
      {
        RelativeBySegments(roots[i].path, path);
      }
      if Resolve(roots, path).Some? {
        var r := Resolve(roots, path).value.0;
        RelativeBySegments(r.path, path);
        forall i | 0 <= i < |roots| && Names(roots[i].path) <= Names(path)
          ensures |Names(roots[i].path)| <= |Names(r.path)|
        {
          CleanIsAbs(roots[i].path);
          CleanIsAbs(r.path);
          LongerHasMoreNames(Names(r.path), Names(roots[i].path), Names(path));
        }
      }
    }
  }

  /** Going down and up again on the way does not matter. */
  lemma ResolveIgnoresDetours(roots: seq<Root>, path: string, s: string)
    requires Rooted(path) && Proper(s)
    ensures Resolve(roots, path + "/" + s + "/..") == Resolve(roots, path)
  {
    CleanOfDetour(path, s);
  }

  // ------------------------------------------------------------- the mounting order

  /** Where two strings first differ. */
  ghost predicate FirstDifference(a: string, b: string, k: nat) {
    k < |a| && k < |b| && a[..k] == b[..k] && a[k] != b[k]
  }

  /** Strings are ordered by the first difference, as Go orders them. */
  lemma {:induction false} LessAtDifference(a: string, b: string, k: nat)
    requires FirstDifference(a, b, k)
    ensures Less(a, b) <==> a[k] < b[k]
  {
    if k > 0 {
      assert a[0] == a[..k][0] == b[..k][0] == b[0];
      assert a[1..][..k - 1] == a[..k][1..] && b[1..][..k - 1] == b[..k][1..];
      LessAtDifference(a[1..], b[1..], k - 1);
    }
  }

  /** And a string comes before what continues it. */
  lemma {:induction false} PrefixIsLess(a: string, b: string)
    requires a < b
    ensures Less(a, b) && !Less(b, a)
  {
    if a != "" {
      PrefixIsLess(a[1..], b[1..]);
    }
  }
}
