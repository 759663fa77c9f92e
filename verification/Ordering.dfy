/** Orders and sorting.

  The gate and the exporter sort everything they report with `sort.Slice`, which is not
  stable: the result is known only to be a sorted permutation. `Sort` promises exactly that
  much, so a claim of determinism has to come from the order being strict on the elements
  that are sorted (`SortedUnique`).
 */
module Ordering {

  ghost predicate TotalPreorder<T(!new)>(leq: (T, T) -> bool) {
    && (forall x, y :: leq(x, y) || leq(y, x))
    && (forall x, y, z :: leq(x, y) && leq(y, z) ==> leq(x, z))
  }

  ghost predicate SortedBy<T>(s: seq<T>, leq: (T, T) -> bool) {
    forall i, j :: 0 <= i < j < |s| ==> leq(s[i], s[j])
  }

  /** No two different elements of `m` are tied. */
  ghost predicate StrictOn<T>(m: multiset<T>, leq: (T, T) -> bool) {
    forall x, y :: x in m && y in m && leq(x, y) && leq(y, x) ==> x == y
  }

  predicate Distinct<T(==)>(s: seq<T>) {
    forall i, j :: 0 <= i < j < |s| ==> s[i] != s[j]
  }

  /** Where `x` goes in the sorted `r`: everything before is below it, everything after above. */
  method Slot<T(!new)>(r: seq<T>, x: T, leq: (T, T) -> bool) returns (k: nat)
    requires TotalPreorder(leq) && SortedBy(r, leq)
    ensures k <= |r|
    ensures forall j :: 0 <= j < k ==> leq(r[j], x)
    ensures forall j :: k <= j < |r| ==> leq(x, r[j])
  {
    k := |r|;
    while k > 0 && !leq(r[k - 1], x)
      invariant 0 <= k <= |r|
      invariant forall j :: k <= j < |r| ==> leq(x, r[j])
    {
      k := k - 1;
    }
    if k > 0 {
      forall j | 0 <= j < k ensures leq(r[j], x) {
        if j < k - 1 {
          assert leq(r[j], r[k - 1]);
        }
      }
    }
  }

  lemma {:induction false} InsertKeepsSorted<T>(r: seq<T>, k: nat, x: T, leq: (T, T) -> bool)
    requires SortedBy(r, leq) && k <= |r|
    requires forall j :: 0 <= j < k ==> leq(r[j], x)
    requires forall j :: k <= j < |r| ==> leq(x, r[j])
    ensures SortedBy(r[..k] + [x] + r[k..], leq)
    ensures multiset(r[..k] + [x] + r[k..]) == multiset(r) + multiset{x}
  {
    assert r == r[..k] + r[k..];
    var t := r[..k] + [x] + r[k..];
    forall i, j | 0 <= i < j < |t| ensures leq(t[i], t[j]) {
      assert t[i] == if i < k then r[i] else if i == k then x else r[i - 1];
      assert t[j] == if j < k then r[j] else if j == k then x else r[j - 1];
    }
  }

  method Sort<T(!new)>(s: seq<T>, leq: (T, T) -> bool) returns (r: seq<T>)
    requires TotalPreorder(leq)
    ensures multiset(r) == multiset(s)
    ensures SortedBy(r, leq)
  {
    r := [];
    for i := 0 to |s|
      invariant multiset(r) == multiset(s[..i])
      invariant SortedBy(r, leq)
    {
      var k := Slot(r, s[i], leq);
      InsertKeepsSorted(r, k, s[i], leq);
      assert s[..i + 1] == s[..i] + [s[i]];
      r := r[..k] + [s[i]] + r[k..];
    }
    assert s[..|s|] == s;
  }

  lemma {:induction false} LeastFirst<T>(a: seq<T>, x: T, leq: (T, T) -> bool)
    requires SortedBy(a, leq) && x in a
    ensures a[0] == x || leq(a[0], x)
  {
    var i :| 0 <= i < |a| && a[i] == x;
  }

  lemma {:induction false} DropFirst<T>(a: seq<T>)
    requires |a| > 0
    ensures multiset(a[1..]) == multiset(a) - multiset{a[0]}
  {
    assert a == [a[0]] + a[1..];
  }

  lemma {:induction false} SameFirst<T(!new)>(a: seq<T>, b: seq<T>, leq: (T, T) -> bool)
    requires multiset(a) == multiset(b) && a != [] && b != []
    requires SortedBy(a, leq) && SortedBy(b, leq) && StrictOn(multiset(a), leq)
    ensures a[0] == b[0]
  {
    assert a[0] in multiset(b) && b[0] in multiset(a);
    LeastFirst(a, b[0], leq);
    LeastFirst(b, a[0], leq);
  }

  /** Two sorted arrangements of the same elements are equal when no two elements tie. */
  lemma {:induction false} SortedUnique<T(!new)>(a: seq<T>, b: seq<T>, leq: (T, T) -> bool)
    requires multiset(a) == multiset(b)
    requires SortedBy(a, leq) && SortedBy(b, leq)
    requires StrictOn(multiset(a), leq)
    ensures a == b
    decreases |a|
  {
    SameSize(a, b);
    if |a| > 0 {
      SameFirst(a, b, leq);
      DropFirst(a);
      DropFirst(b);
      StrictOnLess(multiset(a), multiset(a[1..]), leq);
      SortedUnique(a[1..], b[1..], leq);
      FrontFirst(a);
      FrontFirst(b);
    }
  }

  lemma {:induction false} StrictOnLess<T>(m: multiset<T>, n: multiset<T>, leq: (T, T) -> bool)
    requires StrictOn(m, leq) && n <= m
    ensures StrictOn(n, leq)
  {
    forall x, y | x in n && y in n && leq(x, y) && leq(y, x) ensures x == y {
      assert x in m && y in m;
    }
  }

  lemma {:induction false} FrontFirst<T>(a: seq<T>)
    requires a != []
    ensures a == [a[0]] + a[1..]
  {
  }

  lemma {:induction false} SameSize<T>(a: seq<T>, b: seq<T>)
    requires multiset(a) == multiset(b)
    ensures |a| == |b|
  {
    assert |multiset(a)| == |a| && |multiset(b)| == |b|;
  }

  /** Finds, in a rearrangement `b` of `a`, the place of the last element of `a`. */
  lemma {:induction false} SplitAtLast<T>(a: seq<T>, b: seq<T>) returns (k: nat)
    requires |a| > 0 && multiset(a) == multiset(b)
    ensures k < |b| && b[k] == a[|a| - 1]
    ensures b == b[..k] + [b[k]] + b[k + 1..]
    ensures multiset(a[..|a| - 1]) == multiset(b[..k] + b[k + 1..])
  {
    var x := a[|a| - 1];
    assert x in multiset(b);
    k :| 0 <= k < |b| && b[k] == x;
    assert a == a[..|a| - 1] + [x];
    assert b == b[..k] + [x] + b[k + 1..];
    assert multiset(b[..k] + b[k + 1..]) == multiset(b[..k]) + multiset(b[k + 1..]);
    assert multiset(b) == multiset(b[..k]) + multiset{x} + multiset(b[k + 1..]);
    assert multiset(a) == multiset(a[..|a| - 1]) + multiset{x};
    assert multiset(a[..|a| - 1]) == multiset(a) - multiset{x};
  }

  // ---------------------------------------------------------------- map iteration

  /** `order` visits each key once. */
  ghost predicate Enumerates<K(!new)>(order: seq<K>, keys: set<K>) {
    Distinct(order) && forall k :: k in order <==> k in keys
  }

  /** Iterating over a Go map visits its keys in an arbitrary order. */
  method Enumerate<K(!new)>(keys: set<K>) returns (order: seq<K>)
    ensures Enumerates(order, keys)
  {
    order := [];
    var remaining := keys;
    while remaining != {}
      invariant remaining <= keys
      invariant Enumerates(order, keys - remaining)
      decreases remaining
    {
      var k :| k in remaining;
      order := order + [k];
      remaining := remaining - {k};
    }
    assert keys - {} == keys;
  }

  lemma {:induction false} EnumerationsPermute<K(!new)>(a: seq<K>, b: seq<K>, keys: set<K>)
    requires Enumerates(a, keys) && Enumerates(b, keys)
    ensures multiset(a) == multiset(b)
  {
    forall k ensures multiset(a)[k] == multiset(b)[k] {
      OnceEach(a, k);
      OnceEach(b, k);
    }
  }

  lemma {:induction false} OnceEach<K>(a: seq<K>, k: K)
    requires Distinct(a)
    ensures multiset(a)[k] == if k in a then 1 else 0
  {
    if a != [] {
      var front, last := a[..|a| - 1], a[|a| - 1];
      assert a == front + [last];
      OnceEach(front, k);
    }
  }

  // ---------------------------------------------------------------- strings

  /** Go compares strings byte by byte; a proper prefix comes first. */
  predicate StrLeq(a: string, b: string) {
    if |a| == 0 then true
    else if |b| == 0 then false
    else a[0] < b[0] || (a[0] == b[0] && StrLeq(a[1..], b[1..]))
  }

  lemma {:induction false} StrTotal(a: string, b: string)
    ensures StrLeq(a, b) || StrLeq(b, a)
  {
    if |a| > 0 && |b| > 0 {
      StrTotal(a[1..], b[1..]);
    }
  }

  lemma {:induction false} StrAntisymmetric(a: string, b: string)
    requires StrLeq(a, b) && StrLeq(b, a)
    ensures a == b
  {
    if |a| > 0 && |b| > 0 {
      StrAntisymmetric(a[1..], b[1..]);
      assert a == [a[0]] + a[1..] && b == [b[0]] + b[1..];
    }
  }

  lemma {:induction false} StrTransitive(a: string, b: string, c: string)
    requires StrLeq(a, b) && StrLeq(b, c)
    ensures StrLeq(a, c)
  {
    if |a| > 0 && |b| > 0 && |c| > 0 && a[0] == b[0] == c[0] {
      StrTransitive(a[1..], b[1..], c[1..]);
    }
  }

  lemma {:induction false} StrOrder()
    ensures TotalPreorder(StrLeq)
    ensures forall a, b :: StrLeq(a, b) && StrLeq(b, a) ==> a == b
  {
    forall a, b ensures StrLeq(a, b) || StrLeq(b, a) { StrTotal(a, b); }
    forall a, b, c | StrLeq(a, b) && StrLeq(b, c) ensures StrLeq(a, c) { StrTransitive(a, b, c); }
    forall a, b | StrLeq(a, b) && StrLeq(b, a) ensures a == b { StrAntisymmetric(a, b); }
  }

  predicate IsLeast(keys: set<string>, k: string) {
    k in keys && forall q :: q in keys ==> StrLeq(k, q)
  }

  lemma {:induction false} LeastKey(keys: set<string>) returns (k: string)
    requires keys != {}
    ensures IsLeast(keys, k)
    decreases |keys|
  {
    var x :| x in keys;
    StrTotal(x, x);
    k := x;
    if keys - {x} != {} {
      var l := LeastKey(keys - {x});
      StrTotal(x, l);
      k := if StrLeq(x, l) then x else l;
      forall q | q in keys ensures StrLeq(k, q) {
        if q != x {
          assert q in keys - {x};
          if k == x {
            StrTransitive(x, l, q);
          }
        }
      }
    } else {
      assert forall q :: q in keys ==> q == x by {
        assert keys == (keys - {x}) + {x};
      }
    }
  }

  lemma {:induction false} OneLeastKey(keys: set<string>)
    requires keys != {}
    ensures exists k :: IsLeast(keys, k)
    ensures forall k, l :: IsLeast(keys, k) && IsLeast(keys, l) ==> k == l
  {
    var k := LeastKey(keys);
    forall k, l | IsLeast(keys, k) && IsLeast(keys, l) ensures k == l {
      StrAntisymmetric(k, l);
    }
  }

  /** The keys in order, as a directory is listed. */
  function Sorted(keys: set<string>): (order: seq<string>)
    ensures Enumerates(order, keys)
    decreases |keys|
  {
    if keys == {} then []
    else
      OneLeastKey(keys);
      var k :| k in keys && IsLeast(keys, k);
      [k] + Sorted(keys - {k})
  }
}
