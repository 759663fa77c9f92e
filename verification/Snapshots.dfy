/** The files of a commit, and what the gate and the estate make of them.

  A commit is a map from paths to contents, below the directory a worktree of it is checked out
  in; both worktrees of a run are thought of at one place, since a root is looked up on the other
  side by its relative path. Kustomize and the YAML decoder are parameters.
 */
module Snapshots {
  import opened Results
  import opened Manifests
  import opened Ordering
  import opened Folds
  import opened Render
  import opened Paths
  import opened Gate

  type Files = map<string, string>

  /** Kustomize and the YAML decoder: what a build gives, which paths it looks at for that, and what
      the contents of a YAML file decode to. */
  datatype Renderer = Renderer(
    build: (Files, string) -> Rendering,
    looks: (Files, string) -> set<string>,
    decode: string -> Result<seq<Object>, string>)

  predicate Alike(f: Files, g: Files, p: string) {
    if p in f then p in g && f[p] == g[p] else p !in g
  }

  /** A build depends on nothing but what it looks at. */
  ghost predicate Lawful(tool: Renderer) {
    forall f: Files, g: Files, dir ::
      (forall p :: p in tool.looks(f, dir) ==> Alike(f, g, p)) ==> tool.build(f, dir) == tool.build(g, dir)
  }

  /** No path is both a file and a directory. */
  ghost predicate IsTree(files: Files) {
    forall p, q :: p in files && q in files ==> !Under(p, q)
  }

  // ---------------------------------------------------------------- directories

  predicate Exists(files: Files, path: string) {
    exists p :: p in files && AtOrUnder(path, p)
  }

  predicate HoldsBuild(files: Files, dir: string) {
    exists name :: name in KUSTOMIZATIONS && Exists(files, Join(dir, name))
  }

  predicate HoldsYaml(files: Files, dir: string) {
    exists p :: p in files && DirOf(p) == dir && IsYaml(p)
  }

  function Kust(files: Files): Kustomized {
    dir => HoldsBuild(files, dir)
  }

  function Direct(files: Files, dir: string): Files {
    map p | p in files && DirOf(p) == dir && IsYaml(p) :: files[p]
  }

  type FileDecoder = string -> Result<seq<Object>, string>

  function Decoding(tool: Renderer, files: Files): FileDecoder {
    p => if p in files then tool.decode(files[p]) else Err("no such file")
  }

  /** The objects of the files, one file after the other as the directory is listed, up to the first that
      does not decode. */
  function Plain(tool: Renderer, files: Files): Rendering {
    match Joined(Decoding(tool, files), Sorted(files.Keys))
    case Ok(objects) => Rendered(objects)
    case Err(why) => RenderFailed(why)
  }

  method RenderPlain(tool: Renderer, files: Files) returns (d: Rendering)
    ensures d == Plain(tool, files)
  {
    var names := Sorted(files.Keys);
    var objects: seq<Object> := [];
    for i := 0 to |names|
      invariant Joined(Decoding(tool, files), names[..i]) == Ok(objects)
    {
      assert names[i] in names;
      var decoded := tool.decode(files[names[i]]);
      assert Decoding(tool, files)(names[i]) == decoded;
      if decoded.Err? {
        JoinedStops(Decoding(tool, files), names, i);
        return RenderFailed(decoded.error);
      }
      JoinedNext(Decoding(tool, files), names, i);
      objects := objects + decoded.value;
    }
    assert names[..|names|] == names;
    d := Rendered(objects);
  }

  /** What rendering a directory gives; one that does not exist gives nothing. */
  function RenderAt(tool: Renderer, files: Files, dir: string): Rendering {
    if dir in files then RenderFailed("not a directory")
    else if HoldsBuild(files, dir) then tool.build(files, dir)
    else if HoldsYaml(files, dir) then Plain(tool, Direct(files, dir))
    else Rendered([])
  }

  /** A side of the comparison as a run sees it: any directory can be rendered. */
  function RunTree(tool: Renderer, files: Files): Tree {
    dir => RenderAt(tool, files, dir)
  }

  /** No build covers the directory from above. */
  ghost predicate Uncovered(files: Files, m: string, dir: string) {
    AtOrUnder(m, dir) && forall q :: AtOrUnder(m, q) && Under(q, dir) ==> !HoldsBuild(files, q)
  }

  /** The directories that make up the estate: the topmost builds, and plain directories of YAML. */
  ghost predicate IsRoot(files: Files, m: string, dir: string) {
    Uncovered(files, m, dir) && (HoldsBuild(files, dir) || HoldsYaml(files, dir))
  }

  /** A commit's manifests as the estate counts them: each root once, and nothing else. */
  ghost function EstateTree(tool: Renderer, files: Files, m: string): Tree {
    dir => if IsRoot(files, m, dir) then RenderAt(tool, files, dir) else Rendered([])
  }

  // ---------------------------------------------------------------- a change

  /** The root of some file that differs. */
  ghost predicate Touched(base: Files, head: Files, m: string, r: string)
    requires m != ""
  {
    exists p :: Under(m, p) && !Alike(base, head, p) && RootOf(Kust(head), m, p) == r
  }

  /** No two builds of the head enclose a file that differs. */
  ghost predicate OneBuildEach(base: Files, head: Files, m: string) {
    forall p :: Under(m, p) && !Alike(base, head, p) ==> OneBuild(Kust(head), m, DirOf(p))
  }

  /** The file makes its directory a build. */
  predicate IsKust(p: string) {
    exists name :: name in KUSTOMIZATIONS && p == Join(DirOf(p), name)
  }

  predicate IsManifest(p: string) {
    IsYaml(p) || IsKust(p)
  }

  /** A build that the head no longer has kept all its manifests in its own directory. */
  ghost predicate RemovedFlat(base: Files, head: Files, m: string) {
    forall d, p ::
      AtOrUnder(m, d) && HoldsBuild(base, d) && !HoldsBuild(head, d) && p in base && Under(d, DirOf(p))
      ==> !IsManifest(p)
  }

  /** No directory of the manifests is named like a kustomization. */
  ghost predicate Regular(files: Files, m: string) {
    forall dir, name, p :: AtOrUnder(m, dir) && p in files && name in KUSTOMIZATIONS ==> !Under(Join(dir, name), p)
  }

  /** No build looks outside its own directory. */
  ghost predicate Contained(tool: Renderer, files: Files, m: string) {
    forall d, p :: AtOrUnder(m, d) && HoldsBuild(files, d) && p in tool.looks(files, d) ==> AtOrUnder(d, p)
  }

  /** What a change must meet for the roots it touches to tell all of it. */
  ghost predicate WellScoped(tool: Renderer, base: Files, head: Files, m: string) {
    OneBuildEach(base, head, m) && RemovedFlat(base, head, m) && Regular(base, m) && Contained(tool, base, m)
  }

  /** What holds of every commit and every renderer. */
  ghost predicate Proper(tool: Renderer, base: Files, head: Files) {
    Lawful(tool) && IsTree(base) && IsTree(head)
  }

  // ---------------------------------------------------------------- the root of a file

  /** Where no two builds enclose a file, its root is the one that does, or its own directory. */
  lemma {:induction false} TheRoot(files: Files, m: string, p: string) returns (r: string)
    requires m != "" && Under(m, p) && OneBuild(Kust(files), m, DirOf(p))
    ensures r == RootOf(Kust(files), m, p)
    ensures AtOrUnder(m, r) && AtOrUnder(r, DirOf(p))
    ensures forall q :: AtOrUnder(m, q) && AtOrUnder(q, DirOf(p)) && HoldsBuild(files, q) ==> q == r
    ensures HoldsBuild(files, r) || r == DirOf(p)
  {
    var kust, dir := Kust(files), DirOf(p);
    r := RootOf(kust, m, p);
    ParentUnder(m, p);
    RootIsNearest(kust, m, p);
    var top := UpReaches(m, dir);
    if n: nat :| IsNearest(kust, m, dir, n) && r == Up(dir, n) {
      EnclosesIs(m, dir, top, n);
      assert AtOrUnder(m, Up(dir, n));
      forall q | AtOrUnder(m, q) && AtOrUnder(q, dir) && HoldsBuild(files, q) ensures q == r {
        var k := LevelOf(m, dir, q);
        assert kust(Up(dir, k)) && kust(Up(dir, n));
      }
    } else {
      forall q | AtOrUnder(m, q) && AtOrUnder(q, dir) ensures !HoldsBuild(files, q) {
        var k := LevelOf(m, dir, q);
        assert !kust(Up(dir, k));
      }
    }
  }

  lemma {:induction false} RootOfDiffering(base: Files, head: Files, m: string, p: string, r: string)
    requires m != "" && OneBuildEach(base, head, m) && Under(m, p) && !Alike(base, head, p)
    requires IsRoot(head, m, r)
    requires if HoldsBuild(head, r) then Under(r, p) else DirOf(p) == r
    ensures Touched(base, head, m, r)
  {
    var root := TheRoot(head, m, p);
    if HoldsBuild(head, r) {
      ParentUnder(r, p);
    }
    assert root == r;
  }

  /** Nothing differs below a build that no changed file belongs to. */
  lemma {:induction false} BuildKept(base: Files, head: Files, m: string, r: string, p: string)
    requires m != "" && OneBuildEach(base, head, m) && !Touched(base, head, m, r)
    requires IsRoot(head, m, r) && HoldsBuild(head, r) && Under(r, p)
    ensures Alike(base, head, p)
  {
    UnderTransitive(m, r, p);
    if !Alike(base, head, p) {
      RootOfDiffering(base, head, m, p, r);
    }
  }

  /** Nothing differs directly in a plain directory that no changed file belongs to. */
  lemma {:induction false} PlainKept(base: Files, head: Files, m: string, r: string, p: string)
    requires IsDirPath(m) && OneBuildEach(base, head, m) && !Touched(base, head, m, r)
    requires IsRoot(head, m, r) && !HoldsBuild(head, r) && DirOf(p) == r
    ensures Alike(base, head, p)
  {
    DirectUnder(m, p);
    if !Alike(base, head, p) {
      RootOfDiffering(base, head, m, p, r);
    }
  }

  // ---------------------------------------------------------------- roots on both sides

  /** The file that makes a directory a build, when no directory is named like one. */
  lemma {:induction false} BuildFile(files: Files, m: string, dir: string) returns (p: string)
    requires Regular(files, m) && AtOrUnder(m, dir) && dir != "" && HoldsBuild(files, dir)
    ensures p in files && DirOf(p) == dir && IsManifest(p)
  {
    var name :| name in KUSTOMIZATIONS && Exists(files, Join(dir, name));
    p :| p in files && AtOrUnder(Join(dir, name), p);
    assert p == Join(dir, name);
    KustomizationName(dir, name);
  }

  lemma {:induction false} KustomizationName(dir: string, name: string)
    requires dir != "" && name in KUSTOMIZATIONS
    ensures DirOf(Join(dir, name)) == dir && IsKust(Join(dir, name))
  {
    assert IsName(name);
    DirOfJoin(dir, name);
  }

  /** A directory with manifests that no build of the head covers was not covered before. */
  lemma {:induction false} WasUncovered(base: Files, head: Files, m: string, r: string)
    requires m != "" && RemovedFlat(base, head, m) && Regular(base, m)
    requires Uncovered(head, m, r) && (HoldsBuild(base, r) || HoldsYaml(base, r))
    ensures Uncovered(base, m, r)
  {
    forall q | AtOrUnder(m, q) && Under(q, r) ensures !HoldsBuild(base, q) {
      if HoldsBuild(base, q) {
        var p;
        if HoldsBuild(base, r) {
          p := BuildFile(base, m, r);
        } else {
          p :| p in base && DirOf(p) == r && IsYaml(p);
        }
        assert IsManifest(p);
      }
    }
  }

  lemma {:induction false} SameBuild(base: Files, head: Files, m: string, r: string)
    requires m != "" && OneBuildEach(base, head, m) && !Touched(base, head, m, r)
    requires IsRoot(head, m, r) && HoldsBuild(head, r)
    ensures HoldsBuild(base, r)
  {
    var name :| name in KUSTOMIZATIONS && Exists(head, Join(r, name));
    var p :| p in head && AtOrUnder(Join(r, name), p);
    AtOrUnderJoin(r, name, p);
    BuildKept(base, head, m, r, p);
    assert Exists(base, Join(r, name));
  }

  lemma {:induction false} SameFilesSameBuild(base: Files, head: Files, m: string, r: string)
    requires AtOrUnder(m, r) && r != "" && Regular(base, m) && HoldsBuild(base, r)
    requires forall p :: DirOf(p) == r ==> Alike(base, head, p)
    ensures HoldsBuild(head, r)
  {
    var name :| name in KUSTOMIZATIONS && Exists(base, Join(r, name));
    var p :| p in base && AtOrUnder(Join(r, name), p);
    assert p == Join(r, name);
    KustomizationName(r, name);
    assert Exists(head, Join(r, name));
  }

  lemma {:induction false} SamePlain(base: Files, head: Files, m: string, r: string)
    requires IsDirPath(m) && OneBuildEach(base, head, m) && Regular(base, m) && !Touched(base, head, m, r)
    requires IsRoot(head, m, r) && !HoldsBuild(head, r)
    ensures !HoldsBuild(base, r) && HoldsYaml(base, r) && Direct(base, r) == Direct(head, r)
  {
    forall p | DirOf(p) == r ensures Alike(base, head, p) {
      PlainKept(base, head, m, r, p);
    }
    if HoldsBuild(base, r) {
      SameFilesSameBuild(base, head, m, r);
    }
    var p :| p in head && DirOf(p) == r && IsYaml(p);
    assert p in base;
  }

  lemma {:induction false} RootIsNoFile(files: Files, m: string, r: string)
    requires IsTree(files) && IsDirPath(m) && AtOrUnder(m, r) && (HoldsBuild(files, r) || HoldsYaml(files, r))
    ensures r !in files
  {
    if HoldsBuild(files, r) {
      var name :| name in KUSTOMIZATIONS && Exists(files, Join(r, name));
      var p :| p in files && AtOrUnder(Join(r, name), p);
      AtOrUnderJoin(r, name, p);
    } else {
      var p :| p in files && DirOf(p) == r && IsYaml(p);
      DirectUnder(m, p);
    }
  }

  lemma {:induction false} SameBuildSameObjects(
      tool: Renderer, base: Files, head: Files, m: string, r: string)
    requires IsDirPath(m) && Proper(tool, base, head) && WellScoped(tool, base, head, m)
    requires !Touched(base, head, m, r) && IsRoot(head, m, r) && HoldsBuild(head, r) && HoldsBuild(base, r)
    ensures tool.build(base, r) == tool.build(head, r)
  {
    RootIsNoFile(base, m, r);
    RootIsNoFile(head, m, r);
    forall p | p in tool.looks(base, r) ensures Alike(base, head, p) {
      if p != r {
        BuildKept(base, head, m, r, p);
      }
    }
  }

  /** A root of the head that the change does not touch was the same root before. */
  lemma {:induction false} UntouchedAgrees(tool: Renderer, base: Files, head: Files, m: string, r: string)
    requires IsDirPath(m) && Proper(tool, base, head) && WellScoped(tool, base, head, m)
    requires !Touched(base, head, m, r) && IsRoot(head, m, r)
    ensures EstateTree(tool, base, m)(r) == EstateTree(tool, head, m)(r)
  {
    if HoldsBuild(head, r) {
      SameBuild(base, head, m, r);
      SameBuildSameObjects(tool, base, head, m, r);
    } else {
      SamePlain(base, head, m, r);
    }
    WasUncovered(base, head, m, r);
    RootIsNoFile(base, m, r);
    RootIsNoFile(head, m, r);
  }

  // ---------------------------------------------------------------- what a run sees at its roots

  /** Where a run can render an uncovered directory, it sees what the estate counts there. */
  lemma {:induction false} SeenAsCounted(tool: Renderer, files: Files, m: string, r: string)
    requires Uncovered(files, m, r) || (!HoldsBuild(files, r) && !HoldsYaml(files, r))
    ensures RunTree(tool, files)(r).RenderFailed? || RunTree(tool, files)(r) == EstateTree(tool, files, m)(r)
  {
  }

  lemma {:induction false} TouchedIsUncovered(base: Files, head: Files, m: string, r: string)
    requires m != "" && OneBuildEach(base, head, m) && Touched(base, head, m, r)
    ensures Uncovered(head, m, r)
  {
    var p :| Under(m, p) && !Alike(base, head, p) && RootOf(Kust(head), m, p) == r;
    var root := TheRoot(head, m, p);
    forall q | AtOrUnder(m, q) && Under(q, r) ensures !HoldsBuild(head, q) {
      UnderTransitive(q, r, DirOf(p));
      NotUnderItself(q);
    }
  }

  /** At a touched root, and at a root of the head, a run that renders it sees what the estates count,
      on both sides. */
  lemma {:induction false} SeenOnBothSides(tool: Renderer, base: Files, head: Files, m: string, r: string)
    requires m != "" && OneBuildEach(base, head, m) && RemovedFlat(base, head, m) && Regular(base, m)
    requires Touched(base, head, m, r) || IsRoot(head, m, r)
    ensures RunTree(tool, head)(r).RenderFailed? || RunTree(tool, head)(r) == EstateTree(tool, head, m)(r)
    ensures RunTree(tool, base)(r).RenderFailed? || RunTree(tool, base)(r) == EstateTree(tool, base, m)(r)
  {
    if Touched(base, head, m, r) {
      TouchedIsUncovered(base, head, m, r);
    }
    SeenAsCounted(tool, head, m, r);
    if HoldsBuild(base, r) || HoldsYaml(base, r) {
      WasUncovered(base, head, m, r);
    }
    SeenAsCounted(tool, base, m, r);
  }

  /** A root that the change neither touches nor covers by a build is still a root. */
  lemma {:induction false} UncoveredStays(base: Files, head: Files, m: string, r: string)
    requires IsDirPath(m) && OneBuildEach(base, head, m) && Regular(base, m) && !Touched(base, head, m, r)
    requires IsRoot(base, m, r) && Uncovered(head, m, r)
    ensures IsRoot(head, m, r)
  {
    var p;
    if HoldsBuild(base, r) {
      p := BuildFile(base, m, r);
    } else {
      p :| p in base && DirOf(p) == r && IsYaml(p);
    }
    DirectUnder(m, p);
    if Alike(base, head, p) {
      StillMakesRoot(head, r, p);
    } else {
      var root := TheRoot(head, m, p);
      assert AtOrUnder(m, root) && AtOrUnder(root, r);
    }
  }

  lemma {:induction false} StillMakesRoot(files: Files, r: string, p: string)
    requires p in files && DirOf(p) == r && IsManifest(p)
    ensures HoldsBuild(files, r) || HoldsYaml(files, r)
  {
    if IsKust(p) {
      var name :| name in KUSTOMIZATIONS && p == Join(DirOf(p), name);
      assert Exists(files, Join(r, name));
    }
  }
}
