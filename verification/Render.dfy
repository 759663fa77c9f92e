/** Which directories are rendered.

  `Roots` finds the roots of the changed files by walking up from each; `AllRoots` finds every
  root of the manifest tree by walking down. Paths are strings, as in the source, so that the
  prefix test on them is the one the source makes.
 */
module Render {
  import opened Results
  import opened Ordering
  import opened Folds

  // ---------------------------------------------------------------- paths

  predicate IsName(s: string) {
    s != "" && '/' !in s
  }

  function Join(dir: string, name: string): string {
    dir + "/" + name
  }

  /** The index of the last slash, or -1. */
  function LastSlash(p: string): (i: int)
    ensures -1 <= i < |p|
    ensures i >= 0 ==> p[i] == '/'
    ensures forall j :: i < j < |p| ==> p[j] != '/'
  {
    if p == "" then -1
    else if p[|p| - 1] == '/' then |p| - 1
    else LastSlash(p[..|p| - 1])
  }

  /** The parent of a cleaned path. */
  function DirOf(p: string): string {
    var i := LastSlash(p);
    if i < 0 then "." else if i == 0 then "/" else p[..i]
  }

  /** A joined path without slashes at its end. */
  function Clean(p: string): string {
    if |p| > 1 && p[|p| - 1] == '/' then Clean(p[..|p| - 1]) else p
  }

  lemma {:induction false} DirOfJoin(dir: string, name: string)
    requires dir != "" && IsName(name)
    ensures DirOf(Join(dir, name)) == dir
  {
    var p := Join(dir, name);
    assert p[|dir|] == '/';
    assert forall j :: |dir| < j < |p| ==> p[j] == name[j - |dir| - 1];
    assert LastSlash(p) == |dir|;
  }

  // ---------------------------------------------------------------- the manifest tree

  datatype Entry = File(name: string) | Folder(name: string, entries: seq<Entry>)

  const KUSTOMIZATIONS: seq<string> := ["kustomization.yaml", "kustomization.yml", "Kustomization"]

  predicate HasSuffix(s: string, suffix: string) {
    |s| >= |suffix| && s[|s| - |suffix|..] == suffix
  }

  predicate IsYaml(name: string) {
    HasSuffix(name, ".yaml") || HasSuffix(name, ".yml")
  }

  /** The directory is a kustomize build root. */
  predicate HasKustomization(entries: seq<Entry>) {
    exists i :: 0 <= i < |entries| && entries[i].name in KUSTOMIZATIONS
  }

  predicate ContainsYaml(entries: seq<Entry>) {
    exists i :: 0 <= i < |entries| && entries[i].File? && IsYaml(entries[i].name)
  }

  /** Every entry has a proper name, and no two entries of a directory share one. */
  predicate WellNamed(entries: seq<Entry>) {
    && (forall i :: 0 <= i < |entries| ==> IsName(entries[i].name))
    && (forall i, j :: 0 <= i < j < |entries| ==> entries[i].name != entries[j].name)
    && (forall i :: 0 <= i < |entries| && entries[i].Folder? ==> WellNamed(entries[i].entries))
  }

  /** A returned root; a build root covers its whole subtree, a plain one its direct files. */
  datatype Root = Root(path: string, whole: bool)

  /** The roots at or below a directory. */
  function Walk(path: string, entries: seq<Entry>): seq<Root>
    decreases entries, 1
  {
    if HasKustomization(entries) then [Root(path, true)]
    else (if ContainsYaml(entries) then [Root(path, false)] else []) + WalkAll(path, entries)
  }

  function WalkAll(path: string, entries: seq<Entry>): seq<Root>
    decreases entries, 0
  {
    if entries == [] then []
    else
      WalkAll(path, entries[..|entries| - 1])
      + match entries[|entries| - 1]
        case File(_) => []
        case Folder(name, es) => Walk(Join(path, name), es)
  }

  function PathOf(r: Root): string {
    r.path
  }

  /** What a plain directory adds, and what its folders do. */
  lemma {:induction false} WalkJoins(path: string, entries: seq<Entry>, found: seq<Root>, plain: seq<Root>)
    requires !HasKustomization(entries) && plain == if ContainsYaml(entries) then [Root(path, false)] else []
    ensures (found + plain) + WalkAll(path, entries) == found + Walk(path, entries)
  {
    assert (found + plain) + WalkAll(path, entries) == found + (plain + WalkAll(path, entries));
  }

  /** Visits a directory, appending what it finds. */
  method Visit(path: string, entries: seq<Entry>, found: seq<Root>) returns (roots: seq<Root>)
    ensures roots == found + Walk(path, entries)
    decreases entries, 1
  {
    if HasKustomization(entries) {
      return found + [Root(path, true)];
    }
    ghost var plain := if ContainsYaml(entries) then [Root(path, false)] else [];
    roots := found;
    if ContainsYaml(entries) {
      roots := roots + [Root(path, false)];
    }
    assert roots == found + plain;
    roots := VisitAll(path, entries, roots);
    WalkJoins(path, entries, found, plain);
  }

  lemma {:induction false} OneMoreEntry(path: string, entries: seq<Entry>, i: nat, found: seq<Root>)
    requires i < |entries|
    ensures var before, next := WalkAll(path, entries[..i]), WalkAll(path, entries[..i + 1]);
            match entries[i]
            case File(_) => found + before == found + next
            case Folder(name, es) => (found + before) + Walk(Join(path, name), es) == found + next
  {
    var before := WalkAll(path, entries[..i]);
    assert entries[..i + 1][..i] == entries[..i];
    match entries[i] {
      case File(_) => assert before + [] == before;
      case Folder(name, es) =>
        assert (found + before) + Walk(Join(path, name), es) == found + (before + Walk(Join(path, name), es));
    }
  }

  method VisitAll(path: string, entries: seq<Entry>, found: seq<Root>) returns (roots: seq<Root>)
    ensures roots == found + WalkAll(path, entries)
    decreases entries, 0
  {
    roots := found;
    for i := 0 to |entries|
      invariant roots == found + WalkAll(path, entries[..i])
    {
      OneMoreEntry(path, entries, i, found);
      match entries[i] {
        case File(_) =>
        case Folder(name, es) => roots := Visit(Join(path, name), es, roots);
      }
    }
    assert entries[..|entries|] == entries;
  }

  method AllRoots(manifests: string, tree: Option<seq<Entry>>) returns (roots: seq<string>)
    ensures SortedBy(roots, StrLeq)
    ensures multiset(roots)
            == if tree.None? then multiset{} else multiset(MapSeq(PathOf, Walk(manifests, tree.value)))
  {
    if tree.None? {
      return [];
    }
    var found := Visit(manifests, tree.value, []);
    StrOrder();
    roots := Sort(MapSeq(PathOf, found), StrLeq);
    assert [] + Walk(manifests, tree.value) == Walk(manifests, tree.value);
  }

  // ---------------------------------------------------------------- every file has one owner

  predicate Under(path: string, p: string) {
    path + "/" <= p
  }

  predicate Owns(r: Root, file: string) {
    if r.whole then Under(r.path, file) else DirOf(file) == r.path
  }

  function Owners(roots: seq<Root>, file: string): nat {
    if roots == [] then 0
    else Owners(roots[..|roots| - 1], file) + if Owns(roots[|roots| - 1], file) then 1 else 0
  }

  lemma {:induction false} OwnersConcat(a: seq<Root>, b: seq<Root>, file: string)
    ensures Owners(a + b, file) == Owners(a, file) + Owners(b, file)
  {
    if b == [] {
      assert a + b == a;
    } else {
      assert (a + b)[..|a + b| - 1] == a + b[..|b| - 1];
      OwnersConcat(a, b[..|b| - 1], file);
    }
  }

  /** The YAML files at or below a directory, by path. */
  predicate IsYamlFile(path: string, entries: seq<Entry>, file: string)
    decreases entries
  {
    exists i :: 0 <= i < |entries| &&
      match entries[i]
      case File(name) => IsYaml(name) && file == Join(path, name)
      case Folder(name, es) => IsYamlFile(Join(path, name), es, file)
  }

  lemma {:induction false} FileOfFolder(path: string, entries: seq<Entry>, file: string) returns (i: nat)
    requires IsYamlFile(path, entries, file)
    ensures i < |entries|
    ensures match entries[i]
            case File(name) => IsYaml(name) && file == Join(path, name)
            case Folder(name, es) => IsYamlFile(Join(path, name), es, file)
  {
    i :| 0 <= i < |entries| &&
      match entries[i]
      case File(name) => IsYaml(name) && file == Join(path, name)
      case Folder(name, es) => IsYamlFile(Join(path, name), es, file);
  }

  /** Going down one directory keeps everything under the directory above. */
  lemma {:induction false} UnderJoin(path: string, name: string, p: string)
    requires Under(Join(path, name), p)
    ensures Under(path, p)
  {
    assert path + "/" <= Join(path, name) + "/";
  }

  /** The first component of a relative path. */
  function FirstPart(s: string): string {
    if s == "" || s[0] == '/' then "" else [s[0]] + FirstPart(s[1..])
  }

  lemma {:induction false} FirstPartOf(name: string, rest: string)
    requires '/' !in name && (rest == "" || rest[0] == '/')
    ensures FirstPart(name + rest) == name
  {
    if name != "" {
      assert (name + rest)[1..] == name[1..] + rest;
      FirstPartOf(name[1..], rest);
    } else {
      assert name + rest == rest;
    }
  }

  /** What is at or under a child of a directory has the child's name as its next component. */
  lemma {:induction false} ChildOf(path: string, name: string, p: string)
    requires IsName(name) && (Under(Join(path, name), p) || p == Join(path, name))
    ensures |p| > |path| && FirstPart(p[|path| + 1..]) == name
  {
    var n := |path| + 1;
    assert Join(path, name) <= p;
    assert p[n..] == name + p[n + |name|..];
    FirstPartOf(name, p[n + |name|..]);
  }

  lemma {:induction false} YamlFileUnder(path: string, entries: seq<Entry>, file: string)
    requires WellNamed(entries) && IsYamlFile(path, entries, file)
    ensures Under(path, file)
    decreases entries
  {
    var i := FileOfFolder(path, entries, file);
    match entries[i]
    case File(name) =>
    case Folder(name, es) =>
      YamlFileUnder(Join(path, name), es, file);
      UnderJoin(path, name, file);
  }

  /** A cleaned path of a directory other than the file system's root. */
  predicate IsDirPath(p: string) {
    p != "" && p[|p| - 1] != '/' && p != "."
  }

  lemma {:induction false} JoinIsDirPath(path: string, name: string)
    requires IsDirPath(path) && IsName(name)
    ensures IsDirPath(Join(path, name))
  {
    var p := Join(path, name);
    assert p[|p| - 1] == name[|name| - 1];
    assert |p| > 1;
  }

  /** A file in a directory is under it, and in no directory further up. */
  lemma {:induction false} DirOfUnder(path: string, file: string)
    requires IsDirPath(path) && DirOf(file) == path
    ensures Under(path, file) && LastSlash(file) == |path|
  {
  }

  lemma {:induction false} OwnersOutside(path: string, entries: seq<Entry>, file: string)
    requires IsDirPath(path) && WellNamed(entries) && !Under(path, file)
    ensures Owners(Walk(path, entries), file) == 0
    decreases entries, 1
  {
    if DirOf(file) == path {
      DirOfUnder(path, file);
    }
    assert Owners([], file) == 0;
    if HasKustomization(entries) {
      assert [Root(path, true)][..0] == [];
    } else {
      forall e | e in entries && e.Folder? ensures !Under(Join(path, e.name), file) {
        if Under(Join(path, e.name), file) {
          UnderJoin(path, e.name, file);
        }
      }
      OwnersOutsideAll(path, entries, file);
      var plain := if ContainsYaml(entries) then [Root(path, false)] else [];
      assert plain != [] ==> plain[..0] == [];
      OwnersConcat(plain, WalkAll(path, entries), file);
    }
  }

  lemma {:induction false} OwnersOutsideAll(path: string, entries: seq<Entry>, file: string)
    requires IsDirPath(path) && WellNamed(entries)
    requires forall e :: e in entries && e.Folder? ==> !Under(Join(path, e.name), file)
    ensures Owners(WalkAll(path, entries), file) == 0
    decreases entries, 0
  {
    if entries != [] {
      var front, last := entries[..|entries| - 1], entries[|entries| - 1];
      WellNamedFront(entries);
      OwnersOutsideAll(path, front, file);
      match last
      case File(_) => assert WalkAll(path, front) + [] == WalkAll(path, front);
      case Folder(name, es) =>
        assert last in entries;
        JoinIsDirPath(path, name);
        OwnersOutside(Join(path, name), es, file);
        OwnersConcat(WalkAll(path, front), Walk(Join(path, name), es), file);
    }
  }

  lemma {:induction false} WellNamedFront(entries: seq<Entry>)
    requires WellNamed(entries) && entries != []
    ensures WellNamed(entries[..|entries| - 1])
    ensures entries[|entries| - 1].Folder? ==> WellNamed(entries[|entries| - 1].entries)
    ensures IsName(entries[|entries| - 1].name)
  {
  }

  /** When only the folder at `i` leads to the file, its roots are the only owners below. */
  lemma {:induction false} OwnersThrough(path: string, entries: seq<Entry>, i: nat, file: string)
    requires IsDirPath(path) && WellNamed(entries) && i < |entries| && entries[i].Folder?
    requires Under(Join(path, entries[i].name), file)
    ensures Owners(WalkAll(path, entries), file) == Owners(Walk(Join(path, entries[i].name), entries[i].entries), file)
    decreases |entries|
  {
    var n := |entries| - 1;
    var front, last := entries[..n], entries[n];
    WellNamedFront(entries);
    ChildOf(path, entries[i].name, file);
    if i == n {
      forall e | e in front && e.Folder? ensures !Under(Join(path, e.name), file) {
        var j :| 0 <= j < n && entries[j] == e;
        if Under(Join(path, e.name), file) {
          ChildOf(path, e.name, file);
        }
      }
      OwnersOutsideAll(path, front, file);
      OwnersConcat(WalkAll(path, front), Walk(Join(path, last.name), last.entries), file);
    } else {
      OwnersThrough(path, front, i, file);
      match last
      case File(_) => assert WalkAll(path, front) + [] == WalkAll(path, front);
      case Folder(name, es) =>
        JoinIsDirPath(path, name);
        if Under(Join(path, name), file) {
          ChildOf(path, name, file);
        }
        OwnersOutside(Join(path, name), es, file);
        OwnersConcat(WalkAll(path, front), Walk(Join(path, name), es), file);
    }
  }

  lemma {:induction false} OwnersSingle(r: Root, file: string)
    ensures Owners([r], file) == if Owns(r, file) then 1 else 0
  {
    assert [r][..0] == [];
    assert Owners([], file) == 0;
  }

  lemma {:induction false} OneOwner(path: string, entries: seq<Entry>, file: string)
    requires IsDirPath(path) && WellNamed(entries) && IsYamlFile(path, entries, file)
    ensures Owners(Walk(path, entries), file) == 1
    decreases entries
  {
    YamlFileUnder(path, entries, file);
    OwnersSingle(Root(path, true), file);
    OwnersSingle(Root(path, false), file);
    if !HasKustomization(entries) {
      var plain := if ContainsYaml(entries) then [Root(path, false)] else [];
      OwnersConcat(plain, WalkAll(path, entries), file);
      var i := FileOfFolder(path, entries, file);
      match entries[i]
      case File(name) =>
        DirOfJoin(path, name);
        forall e | e in entries && e.Folder? ensures !Under(Join(path, e.name), file) {
          var j :| 0 <= j < |entries| && entries[j] == e;
          if Under(Join(path, e.name), file) {
            ChildOf(path, e.name, file);
            ChildOf(path, name, file);
          }
        }
        OwnersOutsideAll(path, entries, file);
      case Folder(name, es) =>
        JoinIsDirPath(path, name);
        YamlFileUnder(Join(path, name), es, file);
        assert DirOf(file) != path by {
          assert file[|Join(path, name)|] == '/';
          if DirOf(file) == path {
            DirOfUnder(path, file);
          }
        }
        OwnersThrough(path, entries, i, file);
        OneOwner(Join(path, name), es, file);
    }
  }

  /** Exactly one of the returned roots owns the file, so it is priced once and only once. */
  lemma {:induction false} OneOwnerIsUnique(roots: seq<Root>, file: string) returns (i: nat)
    requires Owners(roots, file) == 1
    ensures i < |roots| && Owns(roots[i], file)
    ensures forall j :: 0 <= j < |roots| && j != i ==> !Owns(roots[j], file)
  {
    var n := |roots| - 1;
    if Owns(roots[n], file) {
      i := n;
      NoOwner(roots[..n], file);
    } else {
      i := OneOwnerIsUnique(roots[..n], file);
    }
  }

  lemma {:induction false} NoOwner(roots: seq<Root>, file: string)
    requires Owners(roots, file) == 0
    ensures forall j :: 0 <= j < |roots| ==> !Owns(roots[j], file)
  {
    if roots != [] {
      NoOwner(roots[..|roots| - 1], file);
    }
  }

  /** Every YAML file under the manifests path is owned by exactly one root of `AllRoots`. */
  lemma {:induction false} RootsPartitionFiles(manifests: string, tree: seq<Entry>, file: string)
    requires IsDirPath(manifests) && WellNamed(tree) && IsYamlFile(manifests, tree, file)
    ensures var roots := Walk(manifests, tree);
            exists i :: 0 <= i < |roots| && Owns(roots[i], file)
                        && forall j :: 0 <= j < |roots| && j != i ==> !Owns(roots[j], file)
  {
    OneOwner(manifests, tree, file);
    var i := OneOwnerIsUnique(Walk(manifests, tree), file);
  }

  // ---------------------------------------------------------------- roots of changed files

  /** Whether a directory holds a kustomization, as the file system answers. */
  type Kustomized = string -> bool

  /** Walks up from `cur` within the paths that start with `manifests`. */
  function Climb(kust: Kustomized, manifests: string, dir: string, cur: string): string
    requires manifests != ""
    decreases |cur|
  {
    if !(manifests <= cur) then dir
    else if kust(cur) then cur
    else if cur == manifests then dir
    else Climb(kust, manifests, dir, DirOf(cur))
  }

  /** The root a file belongs to: the nearest kustomization above it, or its own directory. */
  function RootOf(kust: Kustomized, manifests: string, file: string): string
    requires manifests != ""
  {
    Climb(kust, manifests, DirOf(file), DirOf(file))
  }

  method FindRoot(kust: Kustomized, manifests: string, file: string) returns (root: string)
    requires manifests != ""
    ensures root == RootOf(kust, manifests, file)
  {
    var dir := DirOf(file);
    root := "";
    var cur := dir;
    while manifests <= cur
      invariant root == ""
      invariant Climb(kust, manifests, dir, cur) == RootOf(kust, manifests, file)
      decreases |cur|
    {
      if kust(cur) {
        return cur;
      }
      if cur == manifests {
        break;
      }
      cur := DirOf(cur);
    }
    if root == "" {
      root := dir;
    }
  }

  /** Among the roots are exactly those of the changed files. */
  ghost predicate AreRootsOf(
      kust: Kustomized, treeDir: string, changed: seq<string>, manifests: string, roots: seq<string>)
    requires manifests != ""
  {
    forall r :: r in roots <==>
      exists i :: 0 <= i < |changed| && r == RootOf(kust, manifests, Clean(Join(treeDir, changed[i])))
  }

  lemma {:induction false} OneMoreRoot(
      kust: Kustomized, treeDir: string, changed: seq<string>, manifests: string, roots: seq<string>, more: seq<string>)
    requires manifests != "" && changed != []
    requires AreRootsOf(kust, treeDir, changed[..|changed| - 1], manifests, roots)
    requires var root := RootOf(kust, manifests, Clean(Join(treeDir, changed[|changed| - 1])));
             forall r :: r in more <==> r in roots || r == root
    ensures AreRootsOf(kust, treeDir, changed, manifests, more)
  {
    var front := changed[..|changed| - 1];
    forall r ensures r in more <==>
                     exists i :: 0 <= i < |changed| && r == RootOf(kust, manifests, Clean(Join(treeDir, changed[i])))
    {
      if i :| 0 <= i < |changed| && r == RootOf(kust, manifests, Clean(Join(treeDir, changed[i]))) {
        assert i < |front| ==> front[i] == changed[i];
      }
      if r in roots {
        var i :| 0 <= i < |front| && r == RootOf(kust, manifests, Clean(Join(treeDir, front[i])));
        assert front[i] == changed[i];
      }
    }
  }

  method Roots(kust: Kustomized, treeDir: string, changed: seq<string>, manifests: string) returns (roots: seq<string>)
    requires manifests != ""
    ensures SortedBy(roots, StrLeq) && Distinct(roots)
    ensures AreRootsOf(kust, treeDir, changed, manifests, roots)
  {
    var seen: set<string> := {};
    roots := [];
    for i := 0 to |changed|
      invariant Distinct(roots)
      invariant forall r :: r in seen <==> r in roots
      invariant AreRootsOf(kust, treeDir, changed[..i], manifests, roots)
    {
      ghost var before := roots;
      assert changed[..i + 1][..i] == changed[..i];
      var root := FindRoot(kust, manifests, Clean(Join(treeDir, changed[i])));
      if root !in seen {
        seen := seen + {root};
        roots := roots + [root];
      }
      OneMoreRoot(kust, treeDir, changed[..i + 1], manifests, before, roots);
    }
    assert changed[..|changed|] == changed;
    ghost var before := roots;
    StrOrder();
    roots := Sort(roots, StrLeq);
    DistinctPermutes(before, roots);
    forall r ensures r in roots <==> r in before {
      assert r in multiset(roots) <==> r in multiset(before);
    }
  }

  lemma {:induction false} DistinctPermutes(a: seq<string>, b: seq<string>)
    requires Distinct(a) && multiset(a) == multiset(b)
    ensures Distinct(b)
  {
    forall i, j | 0 <= i < j < |b| ensures b[i] != b[j] {
      var k, l := TwoPlaces(b, a, i, j);
      assert k < l ==> a[k] != a[l];
      assert l < k ==> a[l] != a[k];
    }
  }

  // ---------------------------------------------------------------- nearest

  /** The directory `k` levels up. */
  function Up(dir: string, k: nat): string {
    if k == 0 then dir else DirOf(Up(dir, k - 1))
  }

  /** The walk gets as far as `k` levels up: no level leaves the manifests, none before is their top. */
  ghost predicate Encloses(manifests: string, dir: string, k: nat) {
    && (forall j :: 0 <= j <= k ==> manifests <= Up(dir, j))
    && (forall j :: 0 <= j < k ==> Up(dir, j) != manifests)
  }

  ghost predicate IsNearest(kust: Kustomized, manifests: string, dir: string, k: nat) {
    Encloses(manifests, dir, k) && kust(Up(dir, k)) && forall j :: 0 <= j < k ==> !kust(Up(dir, j))
  }

  lemma {:induction false} ClimbFindsNearest(kust: Kustomized, manifests: string, dir: string, k: nat)
    requires manifests != ""
    requires forall j :: 0 <= j < k ==> manifests <= Up(dir, j) && Up(dir, j) != manifests && !kust(Up(dir, j))
    ensures var r := Climb(kust, manifests, dir, Up(dir, k));
            || (exists n: nat :: IsNearest(kust, manifests, dir, n) && r == Up(dir, n))
            || (r == dir && forall n: nat :: Encloses(manifests, dir, n) ==> !kust(Up(dir, n)))
    decreases |Up(dir, k)|
  {
    var cur := Up(dir, k);
    if manifests <= cur && kust(cur) {
      assert IsNearest(kust, manifests, dir, k);
    } else if manifests <= cur && cur != manifests {
      assert Up(dir, k + 1) == DirOf(cur);
      ClimbFindsNearest(kust, manifests, dir, k + 1);
    } else {
      forall n: nat | Encloses(manifests, dir, n) ensures !kust(Up(dir, n)) {
        assert k < n ==> manifests <= Up(dir, k) && Up(dir, k) != manifests;
      }
    }
  }

  /** The root of a file is its nearest enclosing kustomization within the manifests path, and its
      own directory when there is none. */
  lemma {:induction false} RootIsNearest(kust: Kustomized, manifests: string, file: string)
    requires manifests != ""
    ensures var dir := DirOf(file);
            var r := RootOf(kust, manifests, file);
            || (exists n: nat :: IsNearest(kust, manifests, dir, n) && r == Up(dir, n))
            || (r == dir && forall n: nat :: Encloses(manifests, dir, n) ==> !kust(Up(dir, n)))
  {
    ClimbFindsNearest(kust, manifests, DirOf(file), 0);
  }

  // ---------------------------------------------------------------- the two enumerations agree

  /** The file system answers as the tree says. */
  ghost predicate Answers(kust: Kustomized, path: string, entries: seq<Entry>)
    decreases entries
  {
    && kust(path) == HasKustomization(entries)
    && forall i :: 0 <= i < |entries| && entries[i].Folder? ==>
         Answers(kust, Join(path, entries[i].name), entries[i].entries)
  }

  predicate AtOrUnder(path: string, p: string) {
    p == path || Under(path, p)
  }

  ghost predicate Returned(roots: seq<Root>, path: string) {
    exists i :: 0 <= i < |roots| && roots[i].path == path
  }

  lemma {:induction false} ReturnedConcat(a: seq<Root>, b: seq<Root>, path: string)
    ensures Returned(a + b, path) <==> Returned(a, path) || Returned(b, path)
  {
    assert forall i :: 0 <= i < |a| ==> (a + b)[i] == a[i];
    assert forall i :: 0 <= i < |b| ==> (a + b)[|a| + i] == b[i];
  }

  lemma {:induction false} AtOrUnderJoin(path: string, name: string, p: string)
    requires AtOrUnder(Join(path, name), p)
    ensures Under(path, p)
  {
    if p == Join(path, name) {
      assert path + "/" <= p;
    } else {
      UnderJoin(path, name, p);
    }
  }

  /** Every returned root is at or under the directory the walk started from. */
  lemma {:induction false} ReturnedBelow(path: string, entries: seq<Entry>, p: string)
    requires WellNamed(entries) && Returned(Walk(path, entries), p)
    ensures AtOrUnder(path, p)
    decreases entries, 1
  {
    if !HasKustomization(entries) {
      var plain := if ContainsYaml(entries) then [Root(path, false)] else [];
      ReturnedConcat(plain, WalkAll(path, entries), p);
      if Returned(WalkAll(path, entries), p) {
        var i := ReturnedFrom(path, entries, p);
        AtOrUnderJoin(path, entries[i].name, p);
      }
    }
  }

  lemma {:induction false} ReturnedFrom(path: string, entries: seq<Entry>, p: string) returns (i: nat)
    requires WellNamed(entries) && Returned(WalkAll(path, entries), p)
    ensures i < |entries| && entries[i].Folder?
    ensures Returned(Walk(Join(path, entries[i].name), entries[i].entries), p)
    ensures AtOrUnder(Join(path, entries[i].name), p)
    decreases entries, 0
  {
    var n := |entries| - 1;
    var front, last := entries[..n], entries[n];
    WellNamedFront(entries);
    match last
    case File(_) =>
      assert WalkAll(path, front) + [] == WalkAll(path, front);
      i := ReturnedFrom(path, front, p);
    case Folder(name, es) =>
      ReturnedConcat(WalkAll(path, front), Walk(Join(path, name), es), p);
      if Returned(Walk(Join(path, name), es), p) {
        i := n;
        ReturnedBelow(Join(path, name), es, p);
      } else {
        i := ReturnedFrom(path, front, p);
      }
  }

  lemma {:induction false} ReturnedThrough(path: string, entries: seq<Entry>, i: nat, p: string)
    requires i < |entries| && entries[i].Folder?
    requires Returned(Walk(Join(path, entries[i].name), entries[i].entries), p)
    ensures Returned(WalkAll(path, entries), p)
    decreases |entries|
  {
    var n := |entries| - 1;
    var front, last := entries[..n], entries[n];
    match last
    case File(_) =>
      assert WalkAll(path, front) + [] == WalkAll(path, front);
      ReturnedThrough(path, front, i, p);
    case Folder(name, es) =>
      ReturnedConcat(WalkAll(path, front), Walk(Join(path, name), es), p);
      if i < n {
        ReturnedThrough(path, front, i, p);
      }
  }

  /** Directories, each the parent of the one before. */
  ghost predicate Ascends(spine: seq<string>) {
    spine != [] && forall i, j :: 0 <= i && j == i + 1 && j < |spine| ==> spine[j] == DirOf(spine[i])
  }

  lemma {:induction false} SpineIsUp(spine: seq<string>, j: nat)
    requires Ascends(spine) && j < |spine|
    ensures spine[j] == Up(spine[0], j)
  {
    if j > 0 {
      SpineIsUp(spine, j - 1);
    }
  }

  /** The directories enclosing a file, from its own up to `path`. */
  ghost predicate Spine(path: string, spine: seq<string>) {
    && Ascends(spine) && spine[|spine| - 1] == path
    && (forall j :: 0 <= j < |spine| - 1 ==> Under(path, spine[j]))
  }

  /** Of the directories enclosing a file, the walk returns the one at `t`, and none below it: the
      topmost kustomization, or without one the file's own directory. */
  ghost predicate Topmost(kust: Kustomized, path: string, entries: seq<Entry>, spine: seq<string>, t: nat) {
    && t < |spine|
    && Returned(Walk(path, entries), spine[t])
    && (forall j :: 0 <= j < t ==> !Returned(Walk(path, entries), spine[j]))
    && (forall j :: t < j < |spine| ==> !kust(spine[j]))
    && (kust(spine[t]) || (t == 0 && !kust(spine[0])))
  }

  lemma {:induction false} SpineFromChild(path: string, name: string, spine: seq<string>)
    requires path != "" && IsName(name) && Spine(Join(path, name), spine)
    ensures Spine(path, spine + [path])
  {
    DirOfJoin(path, name);
    forall j | 0 <= j < |spine| ensures Under(path, spine[j]) {
      AtOrUnderJoin(path, name, spine[j]);
    }
  }

  /** The walk of a directory that is not a build root returns, of the directories under one
      child, what the walk of that child returns. */
  lemma {:induction false} ReturnedInChild(path: string, entries: seq<Entry>, i: nat, p: string)
    requires WellNamed(entries) && !HasKustomization(entries)
    requires i < |entries| && entries[i].Folder? && AtOrUnder(Join(path, entries[i].name), p)
    ensures Returned(Walk(path, entries), p) <==> Returned(Walk(Join(path, entries[i].name), entries[i].entries), p)
  {
    var plain := if ContainsYaml(entries) then [Root(path, false)] else [];
    ReturnedConcat(plain, WalkAll(path, entries), p);
    AtOrUnderJoin(path, entries[i].name, p);
    assert p != path;
    if Returned(Walk(Join(path, entries[i].name), entries[i].entries), p) {
      ReturnedThrough(path, entries, i, p);
    }
    if Returned(WalkAll(path, entries), p) {
      var k := ReturnedFrom(path, entries, p);
      ChildOf(path, entries[i].name, p);
      ChildOf(path, entries[k].name, p);
      assert k == i;
    }
  }

  lemma {:induction false} TopmostHere(kust: Kustomized, path: string, entries: seq<Entry>, spine: seq<string>)
    requires Spine(path, spine) && HasKustomization(entries) && kust(path)
    ensures Topmost(kust, path, entries, spine, |spine| - 1)
  {
    var roots := Walk(path, entries);
    assert roots == [Root(path, true)];
    assert roots[0].path == path;
    forall j | 0 <= j < |spine| - 1 ensures !Returned(roots, spine[j]) {
      assert Under(path, spine[j]);
    }
  }

  lemma {:induction false} TopmostThrough(
      kust: Kustomized, path: string, entries: seq<Entry>, i: nat, spine: seq<string>, t: nat)
    requires WellNamed(entries) && !HasKustomization(entries) && !kust(path)
    requires i < |entries| && entries[i].Folder?
    requires Spine(Join(path, entries[i].name), spine)
    requires Topmost(kust, Join(path, entries[i].name), entries[i].entries, spine, t)
    ensures Topmost(kust, path, entries, spine + [path], t)
  {
    forall j | 0 <= j < |spine|
      ensures Returned(Walk(path, entries), spine[j]) <==>
              Returned(Walk(Join(path, entries[i].name), entries[i].entries), spine[j])
    {
      ReturnedInChild(path, entries, i, spine[j]);
    }
  }

  lemma {:induction false} TopmostAbove(
      kust: Kustomized, path: string, entries: seq<Entry>, i: nat, spine: seq<string>, s: nat) returns (t: nat)
    requires IsDirPath(path) && WellNamed(entries) && Answers(kust, path, entries)
    requires i < |entries| && entries[i].Folder?
    requires Spine(Join(path, entries[i].name), spine)
    requires Topmost(kust, Join(path, entries[i].name), entries[i].entries, spine, s)
    ensures Spine(path, spine + [path]) && Topmost(kust, path, entries, spine + [path], t)
  {
    SpineFromChild(path, entries[i].name, spine);
    if HasKustomization(entries) {
      t := |spine|;
      TopmostHere(kust, path, entries, spine + [path]);
    } else {
      t := s;
      TopmostThrough(kust, path, entries, i, spine, s);
    }
  }

  lemma {:induction false} TopmostIsOwn(kust: Kustomized, path: string, entries: seq<Entry>)
    requires HasKustomization(entries) || ContainsYaml(entries)
    ensures Spine(path, [path]) && Topmost(kust, path, entries, [path], 0)
  {
    assert Walk(path, entries)[0].path == path;
  }

  lemma {:induction false} WalkReturnsTopmost(kust: Kustomized, path: string, entries: seq<Entry>, file: string)
      returns (spine: seq<string>, t: nat)
    requires IsDirPath(path) && WellNamed(entries) && Answers(kust, path, entries) && IsYamlFile(path, entries, file)
    ensures Spine(path, spine) && spine[0] == DirOf(file)
    ensures Topmost(kust, path, entries, spine, t)
    decreases entries
  {
    var i := FileOfFolder(path, entries, file);
    if entries[i].File? {
      spine, t := [path], 0;
      DirOfJoin(path, entries[i].name);
      TopmostIsOwn(kust, path, entries);
    } else {
      var below := Join(path, entries[i].name);
      JoinIsDirPath(path, entries[i].name);
      spine, t := WalkReturnsTopmost(kust, below, entries[i].entries, file);
      t := TopmostAbove(kust, path, entries, i, spine, t);
      spine := spine + [path];
    }
  }

  /** All kustomizations that enclose a directory are one and the same. */
  ghost predicate OneBuild(kust: Kustomized, manifests: string, dir: string) {
    forall i: nat, j: nat ::
      (Encloses(manifests, dir, i) && Encloses(manifests, dir, j) && kust(Up(dir, i)) && kust(Up(dir, j)))
      ==> Up(dir, i) == Up(dir, j)
  }

  /** The nearest enclosing kustomization is the topmost one exactly when there is only one. */
  lemma {:induction false} NearestIsTopmost(
      kust: Kustomized, manifests: string, tree: seq<Entry>, dir: string, spine: seq<string>, t: nat, k: nat)
    requires Spine(manifests, spine) && spine[0] == dir && Topmost(kust, manifests, tree, spine, t)
    requires IsNearest(kust, manifests, dir, k)
    ensures Returned(Walk(manifests, tree), Up(dir, k)) <==> OneBuild(kust, manifests, dir)
  {
    EnclosesSpine(manifests, dir, spine, k);
    EnclosesSpine(manifests, dir, spine, t);
    SpineIsUp(spine, k);
    SpineIsUp(spine, t);
    assert k <= t;
    if k == t {
      forall i: nat | Encloses(manifests, dir, i) && kust(Up(dir, i)) ensures i == k {
        EnclosesSpine(manifests, dir, spine, i);
        SpineIsUp(spine, i);
        assert i < k ==> !kust(Up(dir, i));
      }
    } else {
      assert !Returned(Walk(manifests, tree), Up(dir, k));
      assert Up(dir, k) != Up(dir, t);
      assert Encloses(manifests, dir, k) && Encloses(manifests, dir, t) && kust(Up(dir, k)) && kust(Up(dir, t));
    }
  }

  /** A file's root, as found from a change to it, is one of the roots found by walking the whole
      tree exactly when no two different kustomizations enclose the file. */
  lemma {:induction false} RootsAgreeExactlyWhen(kust: Kustomized, manifests: string, tree: seq<Entry>, file: string)
    requires IsDirPath(manifests) && WellNamed(tree) && Answers(kust, manifests, tree)
    requires IsYamlFile(manifests, tree, file)
    ensures Returned(Walk(manifests, tree), RootOf(kust, manifests, file)) <==> OneBuild(kust, manifests, DirOf(file))
  {
    var r, dir := RootOf(kust, manifests, file), DirOf(file);
    var spine, t := WalkReturnsTopmost(kust, manifests, tree, file);
    RootIsNearest(kust, manifests, file);
    if k: nat :| IsNearest(kust, manifests, dir, k) && r == Up(dir, k) {
      NearestIsTopmost(kust, manifests, tree, dir, spine, t, k);
    } else {
      EnclosesSpine(manifests, dir, spine, t);
      SpineIsUp(spine, t);
      assert t == 0 && r == Up(dir, 0);
    }
  }

  lemma {:induction false} EnclosesSpine(manifests: string, dir: string, spine: seq<string>, k: nat)
    requires Spine(manifests, spine) && spine[0] == dir
    ensures Encloses(manifests, dir, k) <==> k < |spine|
  {
    forall j | 0 <= j < |spine| ensures spine[j] == Up(dir, j) {
      SpineIsUp(spine, j);
    }
    forall j | 0 <= j < |spine| - 1 ensures manifests <= Up(dir, j) && Up(dir, j) != manifests {
      assert manifests <= manifests + "/";
      assert Under(manifests, spine[j]);
    }
    assert Up(dir, |spine| - 1) == manifests;
  }

  /** A build in a folder of a build: the change of the inner one finds the inner, the walk the outer. */
  lemma {:induction false} NestedBuildsDisagree(kust: Kustomized, manifests: string, folder: string)
    requires IsDirPath(manifests) && IsName(folder) && folder !in KUSTOMIZATIONS
    requires kust(manifests) && kust(Join(manifests, folder))
    ensures var name := KUSTOMIZATIONS[0];
            var tree := [File(name), Folder(folder, [File(name)])];
            var file := Join(Join(manifests, folder), name);
            && WellNamed(tree) && Answers(kust, manifests, tree) && IsYamlFile(manifests, tree, file)
            && RootOf(kust, manifests, file) == Join(manifests, folder)
            && Walk(manifests, tree) == [Root(manifests, true)]
  {
    var name := KUSTOMIZATIONS[0];
    var inner := [File(name)];
    var tree := [File(name), Folder(folder, inner)];
    assert IsName(name) && IsYaml(name);
    assert inner[0].name in KUSTOMIZATIONS && tree[0].name in KUSTOMIZATIONS;
    DirOfJoin(Join(manifests, folder), name);
    assert IsYamlFile(Join(manifests, folder), inner, Join(Join(manifests, folder), name));
    assert tree[1].Folder?;
    assert manifests <= Join(manifests, folder);
  }
}
