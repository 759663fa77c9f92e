/** Directories above and below each other, as prefixes and as steps towards the root. */
module Paths {
  import opened Render

  lemma {:induction false} UnderTransitive(a: string, b: string, c: string)
    requires AtOrUnder(a, b) && AtOrUnder(b, c)
    ensures AtOrUnder(a, c)
    ensures Under(a, b) || Under(b, c) ==> Under(a, c)
  {
    if Under(a, b) && Under(b, c) {
      assert a + "/" <= b && b <= b + "/" && b + "/" <= c;
    }
  }

  /** Two directories above the same path are above one another, or the same. */
  lemma {:induction false} Chain(a: string, b: string, c: string)
    requires AtOrUnder(a, c) && AtOrUnder(b, c)
    ensures AtOrUnder(a, b) || Under(b, a)
  {
    if |a| < |b| {
      assert a + "/" <= c && (b == c || b <= c);
      assert a + "/" <= b;
    } else if |b| < |a| {
      assert b + "/" <= c && a <= c;
      assert b + "/" <= a;
    } else {
      assert a == c[..|a|] && b == c[..|b|];
    }
  }

  lemma {:induction false} NotUnderItself(a: string)
    ensures !Under(a, a)
  {
  }

  /** A file is under its directory, within a proper directory. */
  lemma {:induction false} DirectUnder(m: string, p: string)
    requires IsDirPath(m) && AtOrUnder(m, DirOf(p))
    ensures Under(DirOf(p), p) && Under(m, p)
  {
    var i := LastSlash(p);
    assert |DirOf(p)| >= |m| > 0;
    assert DirOf(p) == p[..i] && p[..i] + "/" == p[..i + 1];
    UnderTransitive(m, DirOf(p), p);
  }

  /** One step up from below a directory leads to it or stays below it. */
  lemma {:induction false} ParentUnder(q: string, p: string)
    requires q != "" && Under(q, p)
    ensures AtOrUnder(q, DirOf(p)) && Under(DirOf(p), p)
  {
    var i := LastSlash(p);
    assert p[|q|] == (q + "/")[|q|] == '/';
    assert i >= |q|;
    assert DirOf(p) == p[..i];
    assert p[..i] + "/" == p[..i + 1];
    if i > |q| {
      assert q + "/" == p[..|q| + 1];
      assert q + "/" <= p[..i];
    } else {
      assert p[..i] == q;
    }
  }

  lemma {:induction false} UpShift(dir: string, j: nat)
    ensures Up(dir, j + 1) == Up(DirOf(dir), j)
  {
    if j > 0 {
      UpShift(dir, j - 1);
    }
  }

  /** Going up from a directory passes only directories below `m`, and reaches it. */
  ghost predicate Reaches(m: string, dir: string, top: nat) {
    && Up(dir, top) == m
    && (forall j :: 0 <= j < top ==> Under(m, Up(dir, j)))
    && forall j :: 0 <= j <= top ==> AtOrUnder(Up(dir, j), dir)
  }

  lemma {:induction false} BelowStill(parent: string, dir: string, above: nat)
    requires Under(parent, dir) && forall j :: 0 <= j <= above ==> AtOrUnder(Up(parent, j), parent)
    ensures forall j :: 0 <= j <= above ==> AtOrUnder(Up(parent, j), dir)
  {
    forall j | 0 <= j <= above ensures AtOrUnder(Up(parent, j), dir) {
      UnderTransitive(Up(parent, j), parent, dir);
    }
  }

  lemma {:induction false} ReachesHigher(m: string, dir: string, above: nat)
    requires Under(m, dir) && Under(DirOf(dir), dir) && Reaches(m, DirOf(dir), above)
    ensures Reaches(m, dir, above + 1)
  {
    BelowStill(DirOf(dir), dir, above);
    UpShift(dir, above);
    forall j | 0 <= j < above + 1 ensures Under(m, Up(dir, j)) {
      if j > 0 {
        UpShift(dir, j - 1);
      }
    }
    forall j | 0 <= j <= above + 1 ensures AtOrUnder(Up(dir, j), dir) {
      if j > 0 {
        UpShift(dir, j - 1);
      }
    }
  }

  lemma {:induction false} UpReaches(m: string, dir: string) returns (top: nat)
    requires m != "" && AtOrUnder(m, dir)
    ensures Reaches(m, dir, top)
    decreases |dir|
  {
    if dir == m {
      top := 0;
    } else {
      ParentUnder(m, dir);
      var above := UpReaches(m, DirOf(dir));
      ReachesHigher(m, dir, above);
      top := above + 1;
    }
  }

  /** The levels the upward walk visits are the directories from `dir` up to `m`. */
  lemma {:induction false} EnclosesIs(m: string, dir: string, top: nat, k: nat)
    requires m != "" && Up(dir, top) == m && forall j :: 0 <= j < top ==> Under(m, Up(dir, j))
    ensures Encloses(m, dir, k) <==> k <= top
  {
    forall j | 0 <= j < top ensures m <= Up(dir, j) && Up(dir, j) != m {
      assert Under(m, Up(dir, j));
      assert m <= m + "/";
    }
  }

  /** Every directory at or above `dir` and at or below `m` is visited. */
  lemma {:induction false} LevelOf(m: string, dir: string, q: string) returns (k: nat)
    requires m != "" && AtOrUnder(m, q) && AtOrUnder(q, dir)
    ensures Up(dir, k) == q && Encloses(m, dir, k)
    ensures forall j :: 0 <= j < k ==> Under(q, Up(dir, j))
  {
    assert q != "";
    k := UpReaches(q, dir);
    forall j | 0 <= j < k ensures m <= Up(dir, j) && Up(dir, j) != m {
      UnderTransitive(m, q, Up(dir, j));
      assert m <= m + "/";
    }
    assert m <= q by {
      assert m <= m + "/";
    }
  }

  /** The absolute path of a directory, such as a worktree. */
  type DirPath = p: string | IsDirPath(p) witness "/tree"

  lemma {:induction false} CleanBelow(at: string, p: string)
    requires IsDirPath(at) && Under(at, p)
    ensures IsDirPath(Clean(p)) && AtOrUnder(at, Clean(p))
    decreases |p|
  {
    if p[|p| - 1] == '/' {
      var q := p[..|p| - 1];
      if |q| == |at| {
        assert q == at;
      } else {
        CleanBelow(at, q);
      }
    }
  }

  /** A path of the configuration, below the directory it is relative to. */
  function Below(at: DirPath, path: string): (p: string)
    ensures IsDirPath(p) && AtOrUnder(at, p)
  {
    CleanBelow(at, Join(at, path));
    Clean(Join(at, path))
  }
}
