/** Paths for the samples: every shelf, yard and quoted name they are about exists. */
module Places {
  import opened Render
  import opened Paths
  import opened Snapshots
  import opened Listing
  import opened Diffs
  import opened Escapes
  import opened Toys
  import opened Shelves
  import opened Yards

  // ---------------------------------------------------------------- names

  /** A name without slashes that git prints as it is. */
  predicate IsPlainPart(name: string) {
    IsName(name) && !NeedsQuotes(name) && name[0] != ' ' && name[|name| - 1] != ' '
  }

  /** A directory of the manifests that files can be put in. */
  ghost predicate IsOpen(d: string) {
    && AtOrUnder(M, d) && Ordinary(M, d)
    && exists g :: d == Join(AT, g) && g != "" && g[0] != ' ' && !NeedsQuotes(g)
  }

  lemma {:induction false} PlainConcat(a: string, b: string)
    requires !NeedsQuotes(a) && !NeedsQuotes(b)
    ensures !NeedsQuotes(Join(a, b))
  {
    forall i | 0 <= i < |Join(a, b)| ensures !IsEscaped(Join(a, b)[i]) {
      assert i < |a| || i == |a| || Join(a, b)[i] == b[i - |a| - 1];
      assert i < |a| ==> Join(a, b)[i] == a[i];
    }
  }

  lemma {:induction false} JoinAssociates(a: string, b: string, c: string)
    ensures Join(Join(a, b), c) == Join(a, Join(b, c))
  {
  }

  lemma {:induction false} ChildOfOrdinary(d: string, name: string)
    requires AtOrUnder(M, d) && Ordinary(M, d) && IsName(name) && name !in KUSTOMIZATIONS
    ensures Ordinary(M, Join(d, name))
  {
    var p := Join(d, name);
    DirOfJoin(d, name);
    forall dir, k | AtOrUnder(M, dir) && k in KUSTOMIZATIONS ensures !AtOrUnder(Join(dir, k), p) {
      if Join(dir, k) == p {
        DirOfJoin(dir, k);
        JoinTells(d, name, k);
      } else if Under(Join(dir, k), p) {
        ParentUnder(Join(dir, k), p);
      }
    }
  }

  lemma {:induction false} ManifestsAreOpen()
    ensures IsOpen(M)
  {
    Names();
    forall dir, k | AtOrUnder(M, dir) && k in KUSTOMIZATIONS ensures !AtOrUnder(Join(dir, k), M) {
      assert |Join(dir, k)| > |M|;
    }
    var g := "manifests";
    assert M == Join(AT, g) && g[0] != ' ' && !NeedsQuotes(g);
  }

  lemma {:induction false} ChildIsOpen(d: string, name: string)
    requires IsOpen(d) && IsPlainPart(name) && name !in KUSTOMIZATIONS
    ensures IsOpen(Join(d, name)) && Under(M, Join(d, name)) && DirOf(Join(d, name)) == d
  {
    ChildOfOrdinary(d, name);
    DirOfJoin(d, name);
    UnderTransitive(M, d, Join(d, name));
    var g :| d == Join(AT, g) && g != "" && g[0] != ' ' && !NeedsQuotes(g);
    PlainConcat(g, name);
    JoinAssociates(AT, g, name);
    assert Join(d, name) == Join(AT, Join(g, name)) && Join(g, name)[0] == g[0];
  }

  lemma {:induction false} KustByName(d: string, name: string)
    requires d != "" && IsName(name)
    ensures IsKust(Join(d, name)) <==> name in KUSTOMIZATIONS
  {
    DirOfJoin(d, name);
    if k :| k in KUSTOMIZATIONS && Join(d, name) == Join(d, k) {
      JoinTells(d, name, k);
    }
  }

  lemma {:induction false} FileLies(d: string, name: string, kust: bool)
    requires IsOpen(d) && IsPlainPart(name) && IsYaml(name) && (kust <==> name in KUSTOMIZATIONS)
    ensures LiesAt(Join(d, name), Place(d, kust))
  {
    DirOfJoin(d, name);
    UnderTransitive(M, d, Join(d, name));
    KustByName(d, name);
    YamlOfJoin(d, name);
    var g :| d == Join(AT, g) && g != "" && g[0] != ' ' && !NeedsQuotes(g);
    PlainConcat(g, name);
    JoinAssociates(AT, g, name);
    var f := Join(g, name);
    assert f[0] == g[0] && f[|f| - 1] == name[|name| - 1];
    assert Join(d, name) == Join(AT, f) && IsPlainName(f);
  }

  const APPS: string := Join(M, "apps")

  const INNER: string := Join(APPS, "inner")

  const OTHER: string := Join(M, "other")

  const PRICES: string := Join(M, "prices")

  lemma {:induction false} DirNames()
    ensures forall name :: name in {"apps", "inner", "other", "prices"} ==> IsPlainPart(name) && name !in KUSTOMIZATIONS
  {
  }

  /** The name of a plain YAML file. */
  predicate IsPlainFile(name: string) {
    IsPlainPart(name) && IsYaml(name) && name !in KUSTOMIZATIONS
  }

  lemma {:induction false} LetterFile(c: char)
    requires 'a' <= c <= 'z'
    ensures IsPlainFile([c] + ".yaml")
  {
    var name := [c] + ".yaml";
    assert name[|name| - 5..] == ".yaml";
    assert |name| == 6;
  }

  lemma {:induction false} RatesFile()
    ensures IsPlainFile("rates.yaml")
  {
    var name := "rates.yaml";
    assert name[|name| - 5..] == ".yaml";
    assert |name| == 10;
  }

  lemma {:induction false} KustFile()
    ensures IsPlainPart(KUST) && IsYaml(KUST) && KUST in KUSTOMIZATIONS
  {
    assert KUST[|KUST| - 5..] == ".yaml";
    assert KUSTOMIZATIONS[0] == KUST;
  }

  lemma {:induction false} RatesPath()
    ensures Below(AT, RATES_NAME) == Join(PRICES, "rates.yaml")
  {
    Names();
    PlainJoin(RATES_NAME);
  }

  function At(d: string, c: char): string {
    Join(d, [c] + ".yaml")
  }

  function TheShelf(): Shelf {
    Shelf(APPS, PRICES, At(APPS, 'a'), At(APPS, 'b'), At(APPS, 'c'), Join(PRICES, "rates.yaml"))
  }

  function TheYard(): Yard {
    var n := Yard(
               map[], APPS, INNER, OTHER, PRICES, At(APPS, 'a'), At(APPS, 'b'),
               Join(APPS, KUST), Join(INNER, KUST), At(INNER, 'a'), At(OTHER, 'a'), Join(PRICES, "rates.yaml"));
    n.(l := YardLayout(n))
  }

  function YardLayout(n: Yard): Layout {
    map[
      n.x := Place(n.d, false), n.y := Place(n.d, false), n.kd := Place(n.d, true), n.ks := Place(n.s, true),
      n.xs := Place(n.s, false), n.xb := Place(n.b, false), n.rates := Place(n.u, false)]
  }

  lemma {:induction false} DirsAreOpen()
    ensures IsOpen(APPS) && IsOpen(INNER) && IsOpen(OTHER) && IsOpen(PRICES)
    ensures Under(M, APPS) && Under(APPS, INNER) && Under(M, OTHER) && Under(M, PRICES)
    ensures DirOf(APPS) == DirOf(OTHER) == DirOf(PRICES) == M && DirOf(INNER) == APPS
  {
    ManifestsAreOpen();
    DirNames();
    ChildIsOpen(M, "apps");
    ChildIsOpen(M, "other");
    ChildIsOpen(M, "prices");
    ChildIsOpen(APPS, "inner");
  }

  lemma {:induction false} LetterLies(d: string, c: char)
    requires IsOpen(d) && 'a' <= c <= 'z'
    ensures LiesAt(At(d, c), Place(d, false)) && |At(d, c)| == |d| + 7
  {
    LetterFile(c);
    FileLies(d, [c] + ".yaml", false);
  }

  lemma {:induction false} ConfigIsOutside()
    ensures !Under(M, CONFIG) && !Under(M, RATES_BESIDE) && RATES_BESIDE != CONFIG
  {
    Names();
    assert (M + "/")[|AT| + 1] == 'm';
  }

  lemma {:induction false} LiesInside(p: string, at: Place)
    requires LiesAt(p, at)
    ensures p != CONFIG && p != RATES_BESIDE && p != at.dir && DirOf(p) == at.dir
  {
    ConfigIsOutside();
    ParentUnder(M, p);
    NotUnderItself(p);
  }

  lemma {:induction false} LettersDiffer(d: string, b: char, c: char)
    requires b != c
    ensures At(d, b) != At(d, c)
  {
    assert At(d, b)[|d| + 1] == b && At(d, c)[|d| + 1] == c;
  }

  /** A file is none of two directories directly in the manifests, and nothing beside these. */
  lemma {:induction false} FileApart(p: string, at: Place, d: string, u: string)
    requires LiesAt(p, at) && Under(M, at.dir) && DirOf(d) == M == DirOf(u)
    ensures p !in {CONFIG, RATES_BESIDE, d, u}
  {
    LiesInside(p, at);
    NotUnderItself(M);
  }

  ghost predicate InPlace(l: Layout) {
    forall p {:trigger LiesAt(p, l[p])} :: p in l ==> LiesAt(p, l[p])
  }

  lemma {:induction false} MoreInPlace(l: Layout, p: string, at: Place)
    requires InPlace(l) && LiesAt(p, at)
    ensures InPlace(l[p := at])
  {
    var more := l[p := at];
    forall q | q in more ensures LiesAt(q, more[q]) {
      assert q != p ==> more[q] == l[q];
    }
  }

  lemma {:induction false} InPlaceDescribes(l: Layout)
    requires InPlace(l)
    ensures Describes(l)
  {
    ConfigIsOutside();
    if CONFIG in l {
      LiesInside(CONFIG, l[CONFIG]);
      assert false;
    }
  }

  lemma {:induction false} ShelfDescribes(n: Shelf)
    requires LiesAt(n.x, Place(n.d, false)) && LiesAt(n.y, Place(n.d, false)) && LiesAt(n.z, Place(n.d, false))
    requires LiesAt(n.rates, Place(n.u, false))
    ensures Describes(ShelfLayout(n))
  {
    var x: Layout := map[n.x := Place(n.d, false)];
    var y, plain := Place(n.d, false), Place(n.d, false);
    MoreInPlace(map[], n.x, Place(n.d, false));
    MoreInPlace(x, n.y, y);
    MoreInPlace(x[n.y := y], n.z, plain);
    MoreInPlace(x[n.y := y][n.z := plain], n.rates, Place(n.u, false));
    InPlaceDescribes(ShelfLayout(n));
  }

  lemma {:induction false} ShelfFrom(n: Shelf)
    requires LiesAt(n.x, Place(n.d, false)) && LiesAt(n.y, Place(n.d, false)) && LiesAt(n.z, Place(n.d, false))
    requires LiesAt(n.rates, Place(n.u, false)) && n.d != n.u && n.x != n.y && n.x != n.z && n.y != n.z
    requires Under(M, n.d) && Under(M, n.u) && DirOf(n.d) == DirOf(n.u) == M && n.rates == Below(AT, RATES_NAME)
    ensures IsShelf(n) && IsBeside(n)
  {
    ConfigIsOutside();
    FileApart(n.x, Place(n.d, false), n.d, n.u);
    FileApart(n.y, Place(n.d, false), n.d, n.u);
    FileApart(n.z, Place(n.d, false), n.d, n.u);
    FileApart(n.rates, Place(n.u, false), n.d, n.u);
    ShelfDescribes(n);
  }

  lemma {:induction false} ShelfExists()
    ensures IsShelf(TheShelf()) && IsBeside(TheShelf())
  {
    DirsAreOpen();
    LetterLies(APPS, 'a');
    LetterLies(APPS, 'b');
    LetterLies(APPS, 'c');
    LettersDiffer(APPS, 'a', 'b');
    LettersDiffer(APPS, 'a', 'c');
    LettersDiffer(APPS, 'b', 'c');
    RatesFile();
    FileLies(PRICES, "rates.yaml", false);
    RatesPath();
    ShelfFrom(TheShelf());
  }

  /** Every file of the yard lies where it should. */
  ghost predicate AllLie(n: Yard) {
    && LiesAt(n.x, Place(n.d, false)) && LiesAt(n.y, Place(n.d, false)) && LiesAt(n.kd, Place(n.d, true))
    && LiesAt(n.ks, Place(n.s, true)) && LiesAt(n.xs, Place(n.s, false)) && LiesAt(n.xb, Place(n.b, false))
    && LiesAt(n.rates, Place(n.u, false))
  }

  lemma {:induction false} OnePlace(p: string, a: Place, b: Place)
    requires LiesAt(p, a) && LiesAt(p, b)
    ensures a == b
  {
  }

  lemma {:induction false} YardInPlace(n: Yard)
    requires AllLie(n)
    ensures InPlace(YardLayout(n))
  {
    var x: Layout := map[n.x := Place(n.d, false)];
    var y := x[n.y := Place(n.d, false)];
    var kd := y[n.kd := Place(n.d, true)];
    var ks := kd[n.ks := Place(n.s, true)];
    var xs := ks[n.xs := Place(n.s, false)];
    var xb := xs[n.xb := Place(n.b, false)];
    MoreInPlace(map[], n.x, Place(n.d, false));
    MoreInPlace(x, n.y, Place(n.d, false));
    MoreInPlace(y, n.kd, Place(n.d, true));
    MoreInPlace(kd, n.ks, Place(n.s, true));
    MoreInPlace(ks, n.xs, Place(n.s, false));
    MoreInPlace(xs, n.xb, Place(n.b, false));
    MoreInPlace(xb, n.rates, Place(n.u, false));
  }

  lemma {:induction false} YardHolds(n: Yard)
    ensures {n.x, n.y, n.kd, n.ks, n.xs, n.xb, n.rates} <= YardLayout(n).Keys
  {
  }

  lemma {:induction false} LaidAt(l: Layout, p: string, at: Place)
    requires InPlace(l) && LiesAt(p, at) && p in l
    ensures l[p] == at
  {
    OnePlace(p, l[p], at);
  }

  lemma {:induction false} YardIsLaid(n: Yard)
    requires AllLie(n) && InPlace(n.l) && {n.x, n.y, n.kd, n.ks, n.xs, n.xb, n.rates} <= n.l.Keys
    ensures AreLaid(n)
  {
    LaidAt(n.l, n.x, Place(n.d, false));
    LaidAt(n.l, n.y, Place(n.d, false));
    LaidAt(n.l, n.kd, Place(n.d, true));
    LaidAt(n.l, n.ks, Place(n.s, true));
    LaidAt(n.l, n.xs, Place(n.s, false));
    LaidAt(n.l, n.xb, Place(n.b, false));
    LaidAt(n.l, n.rates, Place(n.u, false));
    InPlaceDescribes(n.l);
  }

  lemma {:induction false} YardFilesLie()
    ensures AllLie(TheYard())
  {
    DirsAreOpen();
    KustFile();
    RatesFile();
    LetterLies(APPS, 'a');
    LetterLies(APPS, 'b');
    FileLies(APPS, KUST, true);
    FileLies(INNER, KUST, true);
    LetterLies(INNER, 'a');
    LetterLies(OTHER, 'a');
    FileLies(PRICES, "rates.yaml", false);
  }

  lemma {:induction false} Siblings(a: string, b: string)
    requires a != "" && b != "" && a[0] != b[0]
    ensures Join(M, a) != Join(M, b) && !AtOrUnder(Join(M, a), Join(M, b))
  {
    assert Join(M, a)[|M| + 1] == a[0] && Join(M, b)[|M| + 1] == b[0];
    assert AtOrUnder(Join(M, a), Join(M, b)) ==> Join(M, a) <= Join(M, b);
  }

  lemma {:induction false} YardIsApart()
    ensures AreApart(TheYard())
  {
    DirsAreOpen();
    Siblings("apps", "other");
    Siblings("apps", "prices");
    Siblings("other", "prices");
    NotUnderItself(APPS);
  }

  lemma {:induction false} YamlEnds(p: string)
    requires IsYaml(p)
    ensures p != "" && p[|p| - 1] == 'l'
  {
    var suffix := if HasSuffix(p, ".yaml") then ".yaml" else ".yml";
    assert p[|p| - |suffix|..][|suffix| - 1] == 'l';
  }

  /** A file is no directory whose name does not end like YAML. */
  lemma {:induction false} NotTheDir(p: string, at: Place, d: string, name: string)
    requires LiesAt(p, at) && IsNamed(d, name)
    ensures p !in {d, CONFIG}
  {
    YamlEnds(p);
    ConfigIsOutside();
  }

  lemma {:induction false} NoFilesDir(n: Yard, d: string, name: string)
    requires AllLie(n) && IsNamed(d, name)
    ensures d !in {n.x, n.y, n.kd, n.ks, n.xs, n.xb, n.rates, CONFIG}
  {
    ConfigIsOutside();
    NotTheDir(n.x, Place(n.d, false), d, name);
    NotTheDir(n.y, Place(n.d, false), d, name);
    NotTheDir(n.kd, Place(n.d, true), d, name);
    NotTheDir(n.ks, Place(n.s, true), d, name);
    NotTheDir(n.xs, Place(n.s, false), d, name);
    NotTheDir(n.xb, Place(n.b, false), d, name);
    NotTheDir(n.rates, Place(n.u, false), d, name);
  }

  /** A directory whose last name does not end like YAML. */
  ghost predicate IsNamed(d: string, name: string) {
    d == Join(DirOf(d), name) && name != "" && name[|name| - 1] != 'l' && Under(M, d)
  }

  lemma {:induction false} NoYardFile(n: Yard, d: string)
    requires d !in {n.x, n.y, n.kd, n.ks, n.xs, n.xb, n.rates, CONFIG}
    ensures d !in YardFiles(n)
  {
  }

  lemma {:induction false} FilesFrom(n: Yard, a: string, b: string, c: string, e: string)
    requires AllLie(n) && IsNamed(n.d, a) && IsNamed(n.s, b) && IsNamed(n.b, c) && IsNamed(n.u, e)
    requires n.x != n.y && n.kd == Join(n.d, KUST) && n.ks == Join(n.s, KUST) && n.rates == Below(AT, RATES_NAME)
    ensures AreFiles(n)
  {
    NoFilesDir(n, n.d, a);
    NoYardFile(n, n.d);
    NoFilesDir(n, n.s, b);
    NoYardFile(n, n.s);
    NoFilesDir(n, n.b, c);
    NoYardFile(n, n.b);
    NoFilesDir(n, n.u, e);
    NoYardFile(n, n.u);
  }

  lemma {:induction false} DirsAreNamed()
    ensures IsNamed(APPS, "apps") && IsNamed(INNER, "inner") && IsNamed(OTHER, "other") && IsNamed(PRICES, "prices")
  {
    DirsAreOpen();
    UnderTransitive(M, APPS, INNER);
  }

  lemma {:induction false} YardAreFiles()
    ensures AreFiles(TheYard())
  {
    YardFilesLie();
    DirsAreNamed();
    LettersDiffer(APPS, 'a', 'b');
    RatesPath();
    FilesFrom(TheYard(), "apps", "inner", "other", "prices");
  }

  lemma {:induction false} YardExists()
    ensures IsYard(TheYard())
  {
    YardFilesLie();
    YardInPlace(TheYard());
    YardHolds(TheYard());
    YardIsLaid(TheYard());
    YardIsApart();
    YardAreFiles();
  }

  /** Relative to the repository, a file of the shelf named with a letter outside ASCII. */
  function QuotedName(): string {
    Join("manifests/apps", "\U{e9}.yaml")
  }

  lemma {:induction false} QuotedNameIs()
    ensures Join(AT, QuotedName()) == Join(APPS, "\U{e9}.yaml")
  {
    Names();
    assert "manifests/apps" == Join("manifests", "apps");
    JoinAssociates(AT, "manifests", "apps");
    JoinAssociates(AT, "manifests/apps", "\U{e9}.yaml");
  }

  lemma {:induction false} AccentFile()
    ensures var name := "\U{e9}.yaml";
            IsName(name) && NeedsQuotes(name) && IsYaml(name) && name !in KUSTOMIZATIONS
  {
    var name := "\U{e9}.yaml";
    assert name[|name| - 5..] == ".yaml" && IsEscaped(name[0]);
    assert |name| == 6;
  }

  lemma {:induction false} QuotedExists()
    ensures IsQuoted(TheShelf(), QuotedName())
  {
    var name, p := "\U{e9}.yaml", Join(APPS, "\U{e9}.yaml");
    QuotedNameIs();
    AccentFile();
    DirsAreOpen();
    DirOfJoin(APPS, name);
    UnderTransitive(M, APPS, p);
    KustByName(APPS, name);
    YamlOfJoin(APPS, name);
    YamlEnds(p);
    DirsAreNamed();
    ConfigIsOutside();
    QuotedConcat("manifests/apps", name);
  }

  lemma {:induction false} QuotedConcat(a: string, b: string)
    requires NeedsQuotes(b)
    ensures NeedsQuotes(Join(a, b))
  {
    var i :| 0 <= i < |b| && IsEscaped(b[i]);
    assert Join(a, b)[|a| + 1 + i] == b[i];
  }
}
