/** Loops that walk a list, keep what each element yields and stop at the first failure. */
module Folds {
  import opened Results
  import opened Ordering

  function Collect<T, U, E>(f: T -> Result<Option<U>, E>, s: seq<T>): Result<seq<U>, E> {
    if s == [] then Ok([])
    else
      var front :- Collect(f, s[..|s| - 1]);
      var last :- f(s[|s| - 1]);
      Ok(if last.None? then front else front + [last.value])
  }

  lemma {:induction false} CollectStep<T, U, E>(f: T -> Result<Option<U>, E>, s: seq<T>, n: nat)
    requires n < |s| && Collect(f, s[..n]).Ok?
    ensures match f(s[n])
            case Err(e) => Collect(f, s) == Err(e)
            case Ok(u) =>
              var front := Collect(f, s[..n]).value;
              Collect(f, s[..n + 1]) == Ok(if u.None? then front else front + [u.value])
  {
    assert s[..n + 1][..n] == s[..n];
    if f(s[n]).Err? {
      CollectFails(f, s, n + 1);
    }
  }

  lemma {:induction false} CollectFails<T, U, E>(f: T -> Result<Option<U>, E>, s: seq<T>, n: nat)
    requires n <= |s| && Collect(f, s[..n]).Err?
    ensures Collect(f, s) == Collect(f, s[..n])
    decreases |s| - n
  {
    if n == |s| {
      assert s[..n] == s;
    } else {
      assert s[..n + 1][..n] == s[..n];
      CollectFails(f, s, n + 1);
    }
  }

  lemma {:induction false} CollectSingle<T, U, E>(f: T -> Result<Option<U>, E>, x: T)
    ensures Collect(f, [x]) == match f(x)
                               case Err(e) => Err(e)
                               case Ok(None) => Ok([])
                               case Ok(Some(u)) => Ok([u])
  {
    assert [x][..0] == [];
    if f(x).Ok? && f(x).value.Some? {
      assert [] + [f(x).value.value] == [f(x).value.value];
    }
  }

  lemma {:induction false} CollectConcat<T, U, E>(f: T -> Result<Option<U>, E>, a: seq<T>, b: seq<T>)
    ensures Collect(f, a + b)
            == var left, right := Collect(f, a), Collect(f, b);
               if left.Err? then left else if right.Err? then right else Ok(left.value + right.value)
  {
    if b == [] {
      assert a + b == a;
      assert Collect(f, a).Ok? ==> Collect(f, a).value + [] == Collect(f, a).value;
    } else {
      assert (a + b)[..|a + b| - 1] == a + b[..|b| - 1];
      CollectConcat(f, a, b[..|b| - 1]);
      var left, right, last := Collect(f, a), Collect(f, b[..|b| - 1]), f(b[|b| - 1]);
      if left.Ok? && right.Ok? && last.Ok? && last.value.Some? {
        assert (left.value + right.value) + [last.value.value] == left.value + (right.value + [last.value.value]);
      }
    }
  }

  lemma {:induction false} CollectWithNone<T, U, E>(f: T -> Result<Option<U>, E>, s: seq<T>, x: T)
    requires f(x) == Ok(None)
    ensures Collect(f, s + [x]) == Collect(f, s)
  {
    CollectSingle(f, x);
    CollectConcat(f, s, [x]);
    if Collect(f, s).Ok? {
      var us := Collect(f, s).value;
      assert us + [] == us;
    }
  }

  lemma {:induction false} CollectAgrees<T, U, E>(f: T -> Result<Option<U>, E>, g: T -> Result<Option<U>, E>, s: seq<T>)
    requires forall x :: x in s ==> f(x) == g(x)
    ensures Collect(f, s) == Collect(g, s)
  {
    if s != [] {
      CollectAgrees(f, g, s[..|s| - 1]);
      assert s[|s| - 1] in s;
    }
  }

  /** Where both functions fail on the same elements with the same errors, so do the walks. */
  lemma {:induction false} CollectFailsAlike<T, U, E>(
      f: T -> Result<Option<U>, E>, g: T -> Result<Option<U>, E>, s: seq<T>)
    requires forall x :: x in s ==> f(x).Err? == g(x).Err? && (f(x).Err? ==> f(x) == g(x))
    ensures Collect(f, s).Err? == Collect(g, s).Err?
    ensures Collect(f, s).Err? ==> Collect(f, s) == Collect(g, s)
  {
    if s != [] {
      CollectFailsAlike(f, g, s[..|s| - 1]);
      assert s[|s| - 1] in s;
    }
  }

  /** A walk that succeeds yields the same things, however the list is arranged. */
  lemma {:induction false} CollectPermutes<T, U, E>(f: T -> Result<Option<U>, E>, a: seq<T>, b: seq<T>)
    requires multiset(a) == multiset(b)
    ensures Collect(f, a).Err? == Collect(f, b).Err?
    ensures Collect(f, a).Ok? ==> multiset(Collect(f, a).value) == multiset(Collect(f, b).value)
    decreases |a|
  {
    SameSize(a, b);
    if a != [] {
      var k := SplitAtLast(a, b);
      CollectPermutes(f, a[..|a| - 1], b[..k] + b[k + 1..]);
      CollectConcat(f, b[..k], b[k + 1..]);
      CollectConcat(f, b[..k] + [b[k]], b[k + 1..]);
      assert (b[..k] + [b[k]])[..k] == b[..k];
    }
  }

  lemma {:induction false} Collected<T, U, E>(f: T -> Result<Option<U>, E>, s: seq<T>, x: T)
    requires Collect(f, s).Ok? && x in s
    ensures f(x).Ok? && (f(x).value.Some? ==> f(x).value.value in Collect(f, s).value)
  {
    var front, last := s[..|s| - 1], s[|s| - 1];
    assert s == front + [last];
    if x != last {
      Collected(f, front, x);
    }
  }

  lemma {:induction false} Origin<T, U, E>(f: T -> Result<Option<U>, E>, s: seq<T>, u: U) returns (x: T)
    requires Collect(f, s).Ok? && u in Collect(f, s).value
    ensures x in s && f(x) == Ok(Some(u))
  {
    var front, last := s[..|s| - 1], s[|s| - 1];
    assert s == front + [last];
    if f(last).value == Some(u) {
      x := last;
    } else {
      x := Origin(f, front, u);
    }
  }

  // ---------------------------------------------------------------- lists of lists

  function Flatten<T>(parts: seq<seq<T>>): seq<T> {
    if parts == [] then [] else Flatten(parts[..|parts| - 1]) + parts[|parts| - 1]
  }

  lemma {:induction false} InFlatten<T>(parts: seq<seq<T>>, i: nat, x: T)
    requires i < |parts| && x in parts[i]
    ensures x in Flatten(parts)
  {
    if i < |parts| - 1 {
      InFlatten(parts[..|parts| - 1], i, x);
    }
  }

  lemma {:induction false} FlattenOrigin<T>(parts: seq<seq<T>>, x: T) returns (i: nat)
    requires x in Flatten(parts)
    ensures i < |parts| && x in parts[i]
  {
    i := |parts| - 1;
    if x !in parts[i] {
      i := FlattenOrigin(parts[..i], x);
    }
  }

  /** What each element yields, one list after the other, up to the first failure. */
  function Joined<T, U, E>(f: T -> Result<seq<U>, E>, s: seq<T>): Result<seq<U>, E> {
    if s == [] then Ok([])
    else
      var front :- Joined(f, s[..|s| - 1]);
      var last :- f(s[|s| - 1]);
      Ok(front + last)
  }

  lemma {:induction false} JoinedStep<T, U, E>(f: T -> Result<seq<U>, E>, s: seq<T>)
    requires s != [] && Joined(f, s[..|s| - 1]).Ok? && f(s[|s| - 1]).Ok?
    ensures Joined(f, s) == Ok(Joined(f, s[..|s| - 1]).value + f(s[|s| - 1]).value)
  {
  }

  lemma {:induction false} JoinedNext<T, U, E>(f: T -> Result<seq<U>, E>, s: seq<T>, n: nat)
    requires n < |s| && Joined(f, s[..n]).Ok? && f(s[n]).Ok?
    ensures Joined(f, s[..n + 1]) == Ok(Joined(f, s[..n]).value + f(s[n]).value)
  {
    assert s[..n + 1][..n] == s[..n];
    JoinedStep(f, s[..n + 1]);
  }

  lemma {:induction false} JoinedStops<T, U, E>(f: T -> Result<seq<U>, E>, s: seq<T>, n: nat)
    requires n < |s| && Joined(f, s[..n]).Ok? && f(s[n]).Err?
    ensures Joined(f, s) == Err(f(s[n]).error)
    decreases |s|
  {
    var m := |s| - 1;
    if n < m {
      assert s[..m][..n] == s[..n];
      JoinedStops(f, s[..m], n);
    }
  }

  lemma {:induction false} JoinedHas<T, U, E>(f: T -> Result<seq<U>, E>, s: seq<T>, x: T)
    requires Joined(f, s).Ok? && x in s
    ensures f(x).Ok? && forall u :: u in f(x).value ==> u in Joined(f, s).value
  {
    var front, last := s[..|s| - 1], s[|s| - 1];
    assert s == front + [last];
    if x != last {
      JoinedHas(f, front, x);
    }
  }

  lemma {:induction false} JoinedOrigin<T, U, E>(f: T -> Result<seq<U>, E>, s: seq<T>, u: U) returns (x: T)
    requires Joined(f, s).Ok? && u in Joined(f, s).value
    ensures x in s && f(x).Ok? && u in f(x).value
  {
    var front, last := s[..|s| - 1], s[|s| - 1];
    if u in f(last).value {
      x := last;
    } else {
      x := JoinedOrigin(f, front, u);
    }
  }

  lemma {:induction false} JoinedFails<T, U, E>(f: T -> Result<seq<U>, E>, s: seq<T>)
    ensures Joined(f, s).Err? <==> exists x :: x in s && f(x).Err?
  {
    if s != [] {
      var front, last := s[..|s| - 1], s[|s| - 1];
      assert s == front + [last];
      assert last in s;
      JoinedFails(f, front);
    }
  }

  lemma {:induction false} JoinedAgrees<T, U, E>(f: T -> Result<seq<U>, E>, g: T -> Result<seq<U>, E>, s: seq<T>)
    requires forall x :: x in s ==> f(x) == g(x)
    ensures Joined(f, s) == Joined(g, s)
  {
    if s != [] {
      JoinedAgrees(f, g, s[..|s| - 1]);
    }
  }

  function Collecting<T, U, E>(f: T -> Result<Option<U>, E>): seq<T> -> Result<seq<U>, E> {
    part => Collect(f, part)
  }

  /** Walking the parts one after the other is walking them all. */
  lemma {:induction false} CollectFlatten<T, U, E>(f: T -> Result<Option<U>, E>, parts: seq<seq<T>>)
    ensures Collect(f, Flatten(parts)) == Joined(Collecting(f), parts)
  {
    if parts != [] {
      var front, last := parts[..|parts| - 1], parts[|parts| - 1];
      CollectFlatten(f, front);
      CollectConcat(f, Flatten(front), last);
    }
  }

  // ---------------------------------------------------------------- sums

  function Sum<T>(f: T -> real, s: seq<T>): real {
    if s == [] then 0.0 else Sum(f, s[..|s| - 1]) + f(s[|s| - 1])
  }

  lemma {:induction false} SumStep<T>(f: T -> real, s: seq<T>, x: T)
    ensures Sum(f, s + [x]) == Sum(f, s) + f(x)
  {
    assert (s + [x])[..|s|] == s;
  }

  lemma {:induction false} SumOfOne<T>(f: T -> real, x: T)
    ensures Sum(f, [x]) == f(x)
  {
    assert [x][..0] == [];
  }

  lemma {:induction false} SumConcat<T>(f: T -> real, a: seq<T>, b: seq<T>)
    ensures Sum(f, a + b) == Sum(f, a) + Sum(f, b)
  {
    if b == [] {
      assert a + b == a;
    } else {
      assert (a + b)[..|a + b| - 1] == a + b[..|b| - 1];
      SumConcat(f, a, b[..|b| - 1]);
    }
  }

  /** A sum does not depend on the order of its terms. */
  lemma {:induction false} SumPermutes<T>(f: T -> real, a: seq<T>, b: seq<T>)
    requires multiset(a) == multiset(b)
    ensures Sum(f, a) == Sum(f, b)
    decreases |a|
  {
    SameSize(a, b);
    if a != [] {
      var k := SplitAtLast(a, b);
      SumPermutes(f, a[..|a| - 1], b[..k] + b[k + 1..]);
      SumConcat(f, b[..k], b[k + 1..]);
      SumStep(f, b[..k], b[k]);
      SumConcat(f, b[..k] + [b[k]], b[k + 1..]);
    }
  }

  lemma {:induction false} SumLeq<T>(f: T -> real, g: T -> real, s: seq<T>)
    requires forall x :: x in s ==> f(x) <= g(x)
    ensures Sum(f, s) <= Sum(g, s)
  {
    if s != [] {
      SumLeq(f, g, s[..|s| - 1]);
      assert s[|s| - 1] in s;
    }
  }

  lemma {:induction false} SumAgrees<T>(f: T -> real, g: T -> real, s: seq<T>)
    requires forall x :: x in s ==> f(x) == g(x)
    ensures Sum(f, s) == Sum(g, s)
  {
    if s != [] {
      SumAgrees(f, g, s[..|s| - 1]);
      assert s[|s| - 1] in s;
    }
  }

  lemma {:induction false} SumNonNegative<T>(f: T -> real, s: seq<T>)
    requires forall x :: x in s ==> f(x) >= 0.0
    ensures Sum(f, s) >= 0.0
  {
    if s != [] {
      SumNonNegative(f, s[..|s| - 1]);
      assert s[|s| - 1] in s;
    }
  }

  // ---------------------------------------------------------------- maps over lists

  function MapSeq<T, U>(f: T -> U, s: seq<T>): (r: seq<U>)
    ensures |r| == |s|
    ensures forall i :: 0 <= i < |s| ==> r[i] == f(s[i])
  {
    if s == [] then [] else MapSeq(f, s[..|s| - 1]) + [f(s[|s| - 1])]
  }

  lemma {:induction false} MapStep<T, U>(f: T -> U, s: seq<T>, x: T)
    ensures MapSeq(f, s + [x]) == MapSeq(f, s) + [f(x)]
  {
    assert (s + [x])[..|s|] == s;
  }

  lemma {:induction false} MapConcat<T, U>(f: T -> U, a: seq<T>, b: seq<T>)
    ensures MapSeq(f, a + b) == MapSeq(f, a) + MapSeq(f, b)
  {
  }

  lemma {:induction false} MapPermutes<T, U>(f: T -> U, a: seq<T>, b: seq<T>)
    requires multiset(a) == multiset(b)
    ensures multiset(MapSeq(f, a)) == multiset(MapSeq(f, b))
    decreases |a|
  {
    SameSize(a, b);
    if a != [] {
      var k := SplitAtLast(a, b);
      MapPermutes(f, a[..|a| - 1], b[..k] + b[k + 1..]);
      MapConcat(f, b[..k], b[k + 1..]);
      MapStep(f, b[..k], b[k]);
      MapConcat(f, b[..k] + [b[k]], b[k + 1..]);
    }
  }

  // ---------------------------------------------------------------- indexes

  /** Files each element under its key, if it has one; a later element replaces an earlier one. */
  function Index<T, K(==), V>(f: T -> Option<(K, V)>, s: seq<T>): map<K, V> {
    if s == [] then map[]
    else
      var front := Index(f, s[..|s| - 1]);
      match f(s[|s| - 1])
      case None => front
      case Some((k, v)) => front[k := v]
  }

  lemma {:induction false} IndexConcat<T, K, V>(f: T -> Option<(K, V)>, a: seq<T>, b: seq<T>)
    ensures Index(f, a + b) == Index(f, a) + Index(f, b)
  {
    if b == [] {
      assert a + b == a;
    } else {
      assert (a + b)[..|a + b| - 1] == a + b[..|b| - 1];
      IndexConcat(f, a, b[..|b| - 1]);
    }
  }

  lemma {:induction false} IndexSingle<T, K, V>(f: T -> Option<(K, V)>, x: T)
    ensures Index(f, [x]) == match f(x) case None => map[] case Some(kv) => map[kv.0 := kv.1]
  {
    assert [x][..0] == [];
  }

  lemma {:induction false} IndexAll<T, K, V>(f: T -> Option<(K, V)>, s: seq<T>, p: V -> bool)
    requires forall x :: x in s && f(x).Some? ==> p(f(x).value.1)
    ensures forall k :: k in Index(f, s) ==> p(Index(f, s)[k])
  {
    if s != [] {
      IndexAll(f, s[..|s| - 1], p);
      assert s[|s| - 1] in s;
    }
  }

  /** Each entry of the index comes from an element, and each element with a key has an entry. */
  lemma {:induction false} IndexOrigin<T, K(!new), V>(f: T -> Option<(K, V)>, s: seq<T>)
    ensures forall k :: k in Index(f, s) ==> Files(f, s, k, Index(f, s)[k])
    ensures forall x :: x in s && f(x).Some? ==> f(x).value.0 in Index(f, s)
  {
    if s != [] {
      var front, last := s[..|s| - 1], s[|s| - 1];
      assert s == front + [last];
      IndexOrigin(f, front);
      forall k | k in Index(f, s) ensures Files(f, s, k, Index(f, s)[k]) {
        if f(last).Some? && f(last).value.0 == k {
          assert last in s;
        } else {
          var x :| x in front && f(x) == Some((k, Index(f, front)[k]));
          assert x in s;
        }
      }
    }
  }

  ghost predicate OnePerKey<T, K, V>(f: T -> Option<(K, V)>, s: seq<T>) {
    forall i, j :: 0 <= i < j < |s| && f(s[i]).Some? && f(s[j]).Some? ==> f(s[i]).value.0 != f(s[j]).value.0
  }

  ghost predicate Files<T, K, V>(f: T -> Option<(K, V)>, s: seq<T>, k: K, v: V) {
    exists x :: x in s && f(x) == Some((k, v))
  }

  /** With one element per key, the index holds exactly what the elements file. */
  lemma {:induction false} IndexHolds<T, K, V>(f: T -> Option<(K, V)>, s: seq<T>, k: K, v: V)
    requires OnePerKey(f, s)
    ensures k in Index(f, s) && Index(f, s)[k] == v <==> Files(f, s, k, v)
  {
    if s != [] {
      var front, last := s[..|s| - 1], s[|s| - 1];
      assert s == front + [last];
      IndexHolds(f, front, k, v);
      if Files(f, front, k, v) {
        var x :| x in front && f(x) == Some((k, v));
        var i :| 0 <= i < |front| && front[i] == x;
        assert s[i] == x && s[|front|] == last && x in s;
      }
    }
  }

  lemma {:induction false} OnePerKeyPermutes<T, K, V>(f: T -> Option<(K, V)>, a: seq<T>, b: seq<T>)
    requires multiset(a) == multiset(b) && OnePerKey(f, a)
    ensures OnePerKey(f, b)
  {
    forall i, j | 0 <= i < j < |b| && f(b[i]).Some? && f(b[j]).Some?
      ensures f(b[i]).value.0 != f(b[j]).value.0
    {
      var k, l := TwoPlaces(b, a, i, j);
      assert f(a[k]).value.0 != f(a[l]).value.0;
    }
  }

  lemma {:induction false} SplitAtPlace<T>(a: seq<T>, k: nat)
    requires k < |a|
    ensures multiset(a) == multiset(a[..k]) + multiset{a[k]} + multiset(a[k + 1..])
  {
    assert a == a[..k] + [a[k]] + a[k + 1..];
  }

  lemma {:induction false} TwiceIn<T>(b: seq<T>, i: nat, j: nat)
    requires i < j < |b| && b[i] == b[j]
    ensures multiset(b)[b[i]] >= 2
  {
    SplitAtPlace(b, i);
    assert b[i + 1..][j - i - 1] == b[j];
    assert b[j] in multiset(b[i + 1..]);
  }

  lemma {:induction false} AnotherPlace<T>(a: seq<T>, k: nat) returns (l: nat)
    requires k < |a| && multiset(a)[a[k]] >= 2
    ensures l < |a| && l != k && a[l] == a[k]
  {
    SplitAtPlace(a, k);
    assert a[k] in multiset(a[..k]) || a[k] in multiset(a[k + 1..]);
    if a[k] in a[..k] {
      l :| 0 <= l < k && a[..k][l] == a[k];
    } else {
      var m :| 0 <= m < |a| - k - 1 && a[k + 1..][m] == a[k];
      l := k + 1 + m;
    }
  }

  /** Two places of `b` correspond to two places of its rearrangement `a`. */
  lemma {:induction false} TwoPlaces<T>(b: seq<T>, a: seq<T>, i: nat, j: nat) returns (k: nat, l: nat)
    requires multiset(a) == multiset(b) && i < j < |b|
    ensures k < |a| && l < |a| && k != l && a[k] == b[i] && a[l] == b[j]
  {
    assert b[i] in multiset(a) && b[j] in multiset(a);
    k :| 0 <= k < |a| && a[k] == b[i];
    if b[i] != b[j] {
      l :| 0 <= l < |a| && a[l] == b[j];
    } else {
      TwiceIn(b, i, j);
      l := AnotherPlace(a, k);
    }
  }

  lemma {:induction false} IndexPermutes<T, K, V>(f: T -> Option<(K, V)>, a: seq<T>, b: seq<T>)
    requires multiset(a) == multiset(b) && OnePerKey(f, a)
    ensures Index(f, a) == Index(f, b)
  {
    OnePerKeyPermutes(f, a, b);
    var ia, ib := Index(f, a), Index(f, b);
    forall k | k in ia ensures k in ib && ib[k] == ia[k] {
      IndexHolds(f, a, k, ia[k]);
      FilesPermute(f, a, b, k, ia[k]);
      IndexHolds(f, b, k, ia[k]);
    }
    forall k | k in ib ensures k in ia {
      IndexHolds(f, b, k, ib[k]);
      FilesPermute(f, b, a, k, ib[k]);
      IndexHolds(f, a, k, ib[k]);
    }
  }

  lemma {:induction false} FilesPermute<T, K, V>(f: T -> Option<(K, V)>, a: seq<T>, b: seq<T>, k: K, v: V)
    requires multiset(a) == multiset(b) && Files(f, a, k, v)
    ensures Files(f, b, k, v)
  {
    var x :| x in a && f(x) == Some((k, v));
    assert x in multiset(b);
  }
}
