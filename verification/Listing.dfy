/** Walking the manifest tree of a commit lists exactly the roots of its estate, once each. */
module Listing {
  import opened Results
  import opened Ordering
  import opened Folds
  import opened Render
  import opened Paths
  import opened Snapshots

  predicate IsFile(path: string, entries: seq<Entry>, p: string)
    decreases entries
  {
    exists i :: 0 <= i < |entries| &&
      match entries[i]
      case File(name) => p == Join(path, name)
      case Folder(name, es) => IsFile(Join(path, name), es, p)
  }

  /** Git keeps no empty directories. */
  predicate NoneEmpty(entries: seq<Entry>) {
    forall i :: 0 <= i < |entries| && entries[i].Folder? ==> entries[i].entries != [] && NoneEmpty(entries[i].entries)
  }

  /** The entries are the files of the commit below a directory. */
  ghost predicate Mirrors(files: Files, path: string, entries: seq<Entry>) {
    && WellNamed(entries) && NoneEmpty(entries)
    && forall p :: Under(path, p) ==> (p in files <==> IsFile(path, entries, p))
  }

  /** The manifest directory as a walk finds it; absent when the commit has no file below it. */
  ghost predicate CheckedOut(files: Files, m: string, tree: Option<seq<Entry>>) {
    match tree
    case None => forall p :: p in files ==> !Under(m, p)
    case Some(entries) => Mirrors(files, m, entries)
  }

  // ---------------------------------------------------------------- one directory further down

  lemma {:induction false} NoneBetween(path: string, name: string, d: string)
    requires IsName(name) && Under(path, d)
    ensures !Under(d, Join(path, name))
  {
    var child := Join(path, name);
    if |d| < |child| {
      assert child[|d|] == name[|d| - |path| - 1] != '/';
      assert (d + "/")[|d|] == '/';
    }
  }

  /** What leads from a directory to something below one of its children passes that child. */
  lemma {:induction false} NextStep(path: string, name: string, d: string, p: string)
    requires IsName(name) && AtOrUnder(Join(path, name), p) && Under(path, d) && AtOrUnder(d, p)
    ensures AtOrUnder(Join(path, name), d)
  {
    Chain(Join(path, name), d, p);
    NoneBetween(path, name, d);
  }

  lemma {:induction false} FileFrom(path: string, entries: seq<Entry>, p: string) returns (i: nat)
    requires WellNamed(entries) && IsFile(path, entries, p)
    ensures i < |entries| && AtOrUnder(Join(path, entries[i].name), p)
    ensures match entries[i]
            case File(name) => p == Join(path, name)
            case Folder(name, es) => IsFile(Join(path, name), es, p) && Under(Join(path, name), p)
    decreases entries
  {
    i :| 0 <= i < |entries| &&
      match entries[i]
      case File(name) => p == Join(path, name)
      case Folder(name, es) => IsFile(Join(path, name), es, p);
    if entries[i].Folder? {
      var below := Join(path, entries[i].name);
      var j := FileFrom(below, entries[i].entries, p);
      AtOrUnderJoin(below, entries[i].entries[j].name, p);
    }
  }

  lemma {:induction false} FileInside(path: string, entries: seq<Entry>) returns (p: string)
    requires entries != [] && NoneEmpty(entries)
    ensures IsFile(path, entries, p) && Under(path, p)
    decreases entries
  {
    match entries[0]
    case File(name) => p := Join(path, name);
    case Folder(name, es) =>
      p := FileInside(Join(path, name), es);
      UnderJoin(path, name, p);
  }

  lemma {:induction false} SameChild(path: string, entries: seq<Entry>, i: nat, j: nat, p: string)
    requires WellNamed(entries) && i < |entries| && j < |entries|
    requires AtOrUnder(Join(path, entries[i].name), p) && AtOrUnder(Join(path, entries[j].name), p)
    ensures i == j
  {
    ChildOf(path, entries[i].name, p);
    ChildOf(path, entries[j].name, p);
  }

  lemma {:induction false} MirrorsChild(files: Files, path: string, entries: seq<Entry>, i: nat)
    requires Mirrors(files, path, entries) && i < |entries| && entries[i].Folder?
    ensures Mirrors(files, Join(path, entries[i].name), entries[i].entries)
  {
    var below, es := Join(path, entries[i].name), entries[i].entries;
    forall p | Under(below, p) ensures p in files <==> IsFile(below, es, p) {
      UnderJoin(path, entries[i].name, p);
      if IsFile(path, entries, p) {
        var j := FileFrom(path, entries, p);
        SameChild(path, entries, i, j, p);
      }
    }
  }

  // ---------------------------------------------------------------- what one directory holds

  lemma {:induction false} BuildHere(files: Files, path: string, entries: seq<Entry>)
    requires Mirrors(files, path, entries)
    ensures HasKustomization(entries) <==> HoldsBuild(files, path)
  {
    if i :| 0 <= i < |entries| && entries[i].name in KUSTOMIZATIONS {
      var p := Join(path, entries[i].name);
      if entries[i].Folder? {
        p := FileInside(p, entries[i].entries);
      }
      AtOrUnderJoin(path, entries[i].name, p);
      assert Exists(files, Join(path, entries[i].name));
    }
    if name, p :| name in KUSTOMIZATIONS && p in files && AtOrUnder(Join(path, name), p) {
      AtOrUnderJoin(path, name, p);
      var i := FileFrom(path, entries, p);
      ChildOf(path, name, p);
      ChildOf(path, entries[i].name, p);
    }
  }

  lemma {:induction false} SuffixOfJoin(path: string, name: string, suffix: string)
    requires '/' !in suffix
    ensures HasSuffix(Join(path, name), suffix) <==> HasSuffix(name, suffix)
  {
    var p := Join(path, name);
    if |name| >= |suffix| {
      assert p[|p| - |suffix|..] == name[|name| - |suffix|..];
    } else if |p| >= |suffix| {
      assert p[|p| - |suffix|..][|suffix| - |name| - 1] == '/';
    }
  }

  lemma {:induction false} YamlOfJoin(path: string, name: string)
    ensures IsYaml(Join(path, name)) <==> IsYaml(name)
  {
    SuffixOfJoin(path, name, ".yaml");
    SuffixOfJoin(path, name, ".yml");
  }

  lemma {:induction false} YamlHere(files: Files, path: string, entries: seq<Entry>)
    requires IsDirPath(path) && Mirrors(files, path, entries)
    ensures ContainsYaml(entries) <==> HoldsYaml(files, path)
  {
    if i :| 0 <= i < |entries| && entries[i].File? && IsYaml(entries[i].name) {
      var p := Join(path, entries[i].name);
      DirOfJoin(path, entries[i].name);
      YamlOfJoin(path, entries[i].name);
      assert p in files;
    }
    if p :| p in files && DirOf(p) == path && IsYaml(p) {
      DirOfUnder(path, p);
      var i := FileFrom(path, entries, p);
      YamlOfJoin(path, entries[i].name);
      if entries[i].Folder? {
        assert p[|Join(path, entries[i].name)|] == '/';
      }
    }
  }

  // ---------------------------------------------------------------- the walk

  lemma {:induction false} TopUncovered(files: Files, path: string)
    ensures Uncovered(files, path, path)
  {
    forall q | AtOrUnder(path, q) && Under(q, path) ensures false {
      UnderTransitive(path, q, path);
      NotUnderItself(path);
    }
  }

  /** A directory below a child is a root below the one exactly when it is below the other. */
  lemma {:induction false} RootInChild(files: Files, path: string, name: string, d: string)
    requires IsName(name) && AtOrUnder(Join(path, name), d) && !HoldsBuild(files, path)
    ensures IsRoot(files, path, d) <==> IsRoot(files, Join(path, name), d)
  {
    AtOrUnderJoin(path, name, d);
    forall q | AtOrUnder(Join(path, name), q) ensures AtOrUnder(path, q) {
      AtOrUnderJoin(path, name, q);
    }
    forall q | Under(path, q) && Under(q, d) ensures AtOrUnder(Join(path, name), q) {
      NextStep(path, name, q, d);
    }
  }

  /** A file that makes a directory a root. */
  lemma {:induction false} FileOfRoot(files: Files, m: string, d: string) returns (p: string)
    requires IsDirPath(m) && IsRoot(files, m, d)
    ensures p in files && Under(d, p) && Under(m, p)
  {
    if HoldsBuild(files, d) {
      var name :| name in KUSTOMIZATIONS && Exists(files, Join(d, name));
      p :| p in files && AtOrUnder(Join(d, name), p);
      AtOrUnderJoin(d, name, p);
      UnderTransitive(m, d, p);
    } else {
      p :| p in files && DirOf(p) == d && IsYaml(p);
      DirectUnder(m, p);
    }
  }

  /** A root below a directory is below one of its folders. */
  lemma {:induction false} RootThrough(files: Files, path: string, entries: seq<Entry>, d: string) returns (i: nat)
    requires IsDirPath(path) && Mirrors(files, path, entries) && IsRoot(files, path, d) && d != path
    ensures i < |entries| && entries[i].Folder? && AtOrUnder(Join(path, entries[i].name), d)
  {
    var p := FileOfRoot(files, path, d);
    i := FileFrom(path, entries, p);
    NextStep(path, entries[i].name, d, p);
    if entries[i].File? {
      UnderTransitive(p, d, p);
      NotUnderItself(p);
    }
  }

  lemma {:induction false} WalkIsRoots(files: Files, path: string, entries: seq<Entry>, d: string)
    requires IsDirPath(path) && Mirrors(files, path, entries)
    ensures Returned(Walk(path, entries), d) <==> IsRoot(files, path, d)
    decreases entries
  {
    BuildHere(files, path, entries);
    YamlHere(files, path, entries);
    TopUncovered(files, path);
    if d == path {
      WalkAtTop(path, entries);
    } else if HasKustomization(entries) {
      assert Walk(path, entries) == [Root(path, true)];
    } else if i :| 0 <= i < |entries| && entries[i].Folder? && AtOrUnder(Join(path, entries[i].name), d) {
      MirrorsChild(files, path, entries, i);
      JoinIsDirPath(path, entries[i].name);
      WalkIsRoots(files, Join(path, entries[i].name), entries[i].entries, d);
      ReturnedInChild(path, entries, i, d);
      RootInChild(files, path, entries[i].name, d);
    } else {
      if IsRoot(files, path, d) {
        var i := RootThrough(files, path, entries, d);
      }
      NowhereReturned(path, entries, d);
    }
  }

  lemma {:induction false} WalkAtTop(path: string, entries: seq<Entry>)
    requires WellNamed(entries)
    ensures Returned(Walk(path, entries), path) <==> HasKustomization(entries) || ContainsYaml(entries)
  {
    if HasKustomization(entries) || ContainsYaml(entries) {
      assert Walk(path, entries)[0].path == path;
    } else {
      assert [] + WalkAll(path, entries) == WalkAll(path, entries);
      if Returned(WalkAll(path, entries), path) {
        var i := ReturnedFrom(path, entries, path);
        AtOrUnderJoin(path, entries[i].name, path);
      }
    }
  }

  lemma {:induction false} NowhereReturned(path: string, entries: seq<Entry>, d: string)
    requires WellNamed(entries) && !HasKustomization(entries) && d != path
    requires forall i :: 0 <= i < |entries| && entries[i].Folder? ==> !AtOrUnder(Join(path, entries[i].name), d)
    ensures !Returned(Walk(path, entries), d)
  {
    var plain := if ContainsYaml(entries) then [Root(path, false)] else [];
    ReturnedConcat(plain, WalkAll(path, entries), d);
    if Returned(WalkAll(path, entries), d) {
      var i := ReturnedFrom(path, entries, d);
    }
  }

  // ---------------------------------------------------------------- once each

  ghost predicate DistinctPaths(roots: seq<Root>) {
    forall i, j :: 0 <= i < j < |roots| ==> roots[i].path != roots[j].path
  }

  lemma {:induction false} DistinctConcat(a: seq<Root>, b: seq<Root>)
    requires DistinctPaths(a) && DistinctPaths(b)
    requires forall p :: Returned(a, p) ==> !Returned(b, p)
    ensures DistinctPaths(a + b)
  {
    var all := a + b;
    forall i, j | 0 <= i < j < |all| ensures all[i].path != all[j].path {
      if i < |a| <= j {
        assert Returned(a, all[i].path);
        assert b[j - |a|] == all[j];
      } else if j < |a| {
        assert all[i] == a[i] && all[j] == a[j];
      } else {
        assert all[i] == b[i - |a|] && all[j] == b[j - |a|];
      }
    }
  }

  lemma {:induction false} WalkDistinct(path: string, entries: seq<Entry>)
    requires WellNamed(entries)
    ensures DistinctPaths(Walk(path, entries))
    decreases entries, 1
  {
    if !HasKustomization(entries) {
      WalkAllDistinct(path, entries);
      var plain := if ContainsYaml(entries) then [Root(path, false)] else [];
      forall p | Returned(plain, p) ensures !Returned(WalkAll(path, entries), p) {
        if Returned(WalkAll(path, entries), p) {
          var i := ReturnedFrom(path, entries, p);
          AtOrUnderJoin(path, entries[i].name, p);
        }
      }
      DistinctConcat(plain, WalkAll(path, entries));
    }
  }

  lemma {:induction false} WalkAllDistinct(path: string, entries: seq<Entry>)
    requires WellNamed(entries)
    ensures DistinctPaths(WalkAll(path, entries))
    decreases entries, 0
  {
    if entries != [] {
      var n := |entries| - 1;
      var front, last := entries[..n], entries[n];
      WellNamedFront(entries);
      WalkAllDistinct(path, front);
      match last
      case File(_) => assert WalkAll(path, front) + [] == WalkAll(path, front);
      case Folder(name, es) =>
        var below := Walk(Join(path, name), es);
        WalkDistinct(Join(path, name), es);
        forall p | Returned(WalkAll(path, front), p) ensures !Returned(below, p) {
          var i := ReturnedFrom(path, front, p);
          if Returned(below, p) {
            ReturnedBelow(Join(path, name), es, p);
            SameChild(path, entries, i, n, p);
          }
        }
        DistinctConcat(WalkAll(path, front), below);
    }
  }

  // ---------------------------------------------------------------- every root

  lemma {:induction false} PathsOfWalk(roots: seq<Root>)
    ensures DistinctPaths(roots) ==> Distinct(MapSeq(PathOf, roots))
    ensures forall d :: d in MapSeq(PathOf, roots) <==> Returned(roots, d)
  {
    var paths := MapSeq(PathOf, roots);
    forall d | Returned(roots, d) ensures d in paths {
      var i :| 0 <= i < |roots| && roots[i].path == d;
      assert paths[i] == d;
    }
  }

  /** What the enumeration returns is every root of the commit, once. */
  lemma {:induction false} AllRootsAreRoots(files: Files, m: string, tree: Option<seq<Entry>>, roots: seq<string>)
    requires IsDirPath(m) && CheckedOut(files, m, tree)
    requires multiset(roots) == if tree.None? then multiset{} else multiset(MapSeq(PathOf, Walk(m, tree.value)))
    ensures Distinct(roots) && forall d :: d in roots <==> IsRoot(files, m, d)
  {
    match tree
    case None =>
      assert |multiset(roots)| == 0;
      forall d ensures !IsRoot(files, m, d) {
        if IsRoot(files, m, d) {
          var p := FileOfRoot(files, m, d);
        }
      }
    case Some(entries) =>
      var found := Walk(m, entries);
      WalkDistinct(m, entries);
      PathsOfWalk(found);
      DistinctPermutes(MapSeq(PathOf, found), roots);
      forall d ensures d in roots <==> IsRoot(files, m, d) {
        WalkIsRoots(files, m, entries, d);
        assert d in multiset(roots) <==> d in multiset(MapSeq(PathOf, found));
      }
  }
}
