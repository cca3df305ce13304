/** Sums over the append-only ledgers and over the sales table. */
module Sums {

  function Sum<T>(s: seq<T>, f: T -> int): int {
    if s == [] then 0 else Sum(s[..|s| - 1], f) + f(s[|s| - 1])
  }

  function Filter<T>(s: seq<T>, p: T -> bool): seq<T> {
    if s == [] then [] else
    Filter(s[..|s| - 1], p) + (if p(s[|s| - 1]) then [s[|s| - 1]] else [])
  }

  lemma {:induction false} SumAppend<T>(a: seq<T>, b: seq<T>, f: T -> int)
    ensures Sum(a + b, f) == Sum(a, f) + Sum(b, f)
  {
    if b == [] {
      assert a + b == a;
    } else {
      assert (a + b)[..|a + b| - 1] == a + b[..|b| - 1];
      SumAppend(a, b[..|b| - 1], f);
    }
  }

  lemma {:induction false} SumOne<T>(x: T, f: T -> int)
    ensures Sum([x], f) == f(x)
  {
    assert [x][..0] == [];
  }

  lemma {:induction false} SumZero<T>(s: seq<T>, f: T -> int)
    requires forall x :: x in s ==> f(x) == 0
    ensures Sum(s, f) == 0
  {
    if s == [] {
    } else {
      SumZero(s[..|s| - 1], f);
    }
  }

  /** Row by row negated sequences have opposite sums. */
  lemma {:induction false} SumNegated<T, U>(a: seq<T>, f: T -> int, b: seq<U>, g: U -> int)
    requires |a| == |b|
    requires forall i :: 0 <= i < |a| ==> g(b[i]) == -f(a[i])
    ensures Sum(b, g) == -Sum(a, f)
  {
    if a == [] {
    } else {
      SumNegated(a[..|a| - 1], f, b[..|b| - 1], g);
    }
  }

  lemma {:induction false} SumSame<T, U>(a: seq<T>, f: T -> int, b: seq<U>, g: U -> int)
    requires |a| == |b|
    requires forall i :: 0 <= i < |a| ==> f(a[i]) == g(b[i])
    ensures Sum(a, f) == Sum(b, g)
  {
    if a == [] {
    } else {
      SumSame(a[..|a| - 1], f, b[..|b| - 1], g);
    }
  }

  lemma {:induction false} SumNonNegative<T>(s: seq<T>, f: T -> int)
    requires forall x :: x in s ==> f(x) >= 0
    ensures Sum(s, f) >= 0
  {
    if s == [] {
    } else {
      SumNonNegative(s[..|s| - 1], f);
    }
  }

  lemma {:induction false} SumNonPositive<T>(s: seq<T>, f: T -> int)
    requires forall x :: x in s ==> f(x) <= 0
    ensures Sum(s, f) <= 0
  {
    if s == [] {
    } else {
      SumNonPositive(s[..|s| - 1], f);
    }
  }

  /** Only the multiset of rows matters for a sum. */
  lemma {:induction false} SumArranged<T>(a: seq<T>, b: seq<T>, f: T -> int)
    requires multiset(a) == multiset(b)
    ensures Sum(a, f) == Sum(b, f)
  {
    assert |a| == |multiset(a)| == |multiset(b)| == |b|;
    if a == [] {
    } else {
      var last := a[|a| - 1];
      assert a == a[..|a| - 1] + [last];
      assert last in multiset(b);
      var i :| 0 <= i < |b| && b[i] == last;
      var c := b[..i] + b[i + 1..];
      assert b == b[..i] + [last] + b[i + 1..];
      assert multiset(a) == multiset(a[..|a| - 1]) + multiset{last};
      assert multiset(b) == multiset(c) + multiset{last};
      assert multiset(a[..|a| - 1]) == multiset(a) - multiset{last};
      SumArranged(a[..|a| - 1], c, f);
      SumAppend(b[..i], b[i + 1..], f);
      SumAppend(b[..i], [last], f);
      SumAppend(b[..i] + [last], b[i + 1..], f);
      SumOne(last, f);
    }
  }

  lemma {:induction false} FilterAppend<T>(a: seq<T>, b: seq<T>, p: T -> bool)
    ensures Filter(a + b, p) == Filter(a, p) + Filter(b, p)
  {
    if b == [] {
      assert a + b == a;
    } else {
      assert (a + b)[..|a + b| - 1] == a + b[..|b| - 1];
      FilterAppend(a, b[..|b| - 1], p);
    }
  }

  lemma {:induction false} FilterAll<T>(s: seq<T>, p: T -> bool)
    requires forall x :: x in s ==> p(x)
    ensures Filter(s, p) == s
  {
    if s == [] {
    } else {
      FilterAll(s[..|s| - 1], p);
      assert s == s[..|s| - 1] + [s[|s| - 1]];
    }
  }

  lemma {:induction false} FilterNone<T>(s: seq<T>, p: T -> bool)
    requires forall x :: x in s ==> !p(x)
    ensures Filter(s, p) == []
  {
    if s == [] {
    } else {
      FilterNone(s[..|s| - 1], p);
    }
  }

  /** New rows with the property, after rows without it. */
  lemma FilterFresh<T>(a: seq<T>, b: seq<T>, p: T -> bool)
    requires (forall x :: x in a ==> !p(x)) && (forall x :: x in b ==> p(x))
    ensures Filter(a + b, p) == b
  {
    FilterAppend(a, b, p);
    FilterNone(a, p);
    FilterAll(b, p);
  }

  lemma {:induction false} FilterMember<T>(s: seq<T>, p: T -> bool, x: T)
    ensures x in Filter(s, p) <==> x in s && p(x)
  {
    if s == [] {
    } else {
      FilterMember(s[..|s| - 1], p, x);
      assert s == s[..|s| - 1] + [s[|s| - 1]];
    }
  }

  /** The sum of f over the rows of a table. */
  ghost function SumMap<K, V>(m: map<K, V>, f: V -> int): int {
    if m == map[] then 0 else
    var k :| k in m;
    f(m[k]) + SumMap(m - {k}, f)
  }

  lemma {:induction false} SumMapRemove<K, V>(m: map<K, V>, k: K, f: V -> int)
    requires k in m
    ensures SumMap(m, f) == f(m[k]) + SumMap(m - {k}, f)
    decreases |m|
  {
    var j :| j in m && SumMap(m, f) == f(m[j]) + SumMap(m - {j}, f);
    if j != k {
      assert |m - {j}| < |m| by { Smaller(m, j); }
      assert |m - {k}| < |m| by { Smaller(m, k); }
      SumMapRemove(m - {j}, k, f);
      SumMapRemove(m - {k}, j, f);
      assert m - {j} - {k} == m - {k} - {j};
    }
  }

  lemma Smaller<K, V>(m: map<K, V>, k: K)
    requires k in m
    ensures |m - {k}| < |m|
  {
    assert (m - {k}).Keys == m.Keys - {k};
    assert |m.Keys - {k}| < |m.Keys|;
    assert |m| == |m.Keys| && |m - {k}| == |(m - {k}).Keys|;
  }

  /** Writing one row changes the sum by the difference of its two values. */
  lemma {:induction false} SumMapWrite<K, V>(m: map<K, V>, k: K, v: V, f: V -> int)
    ensures SumMap(m[k := v], f) == SumMap(m, f) - (if k in m then f(m[k]) else 0) + f(v)
  {
    SumMapRemove(m[k := v], k, f);
    assert m[k := v] - {k} == m - {k};
    if k in m {
      SumMapRemove(m, k, f);
    } else {
      assert m - {k} == m;
    }
  }

  lemma {:induction false} SumMapNonNegative<K, V>(m: map<K, V>, f: V -> int)
    requires forall k :: k in m ==> f(m[k]) >= 0
    ensures SumMap(m, f) >= 0
    decreases |m|
  {
    if m != map[] {
      var k :| k in m && SumMap(m, f) == f(m[k]) + SumMap(m - {k}, f);
      Smaller(m, k);
      SumMapNonNegative(m - {k}, f);
    }
  }

  /** Lexical order of identifiers, as in ORDER BY id. */
  predicate LexLess(a: string, b: string) {
    b != "" && (a == "" || a[0] < b[0] || (a[0] == b[0] && LexLess(a[1..], b[1..])))
  }

  lemma LexTransitive(a: string, b: string, c: string)
    requires LexLess(a, b) && LexLess(b, c)
    ensures LexLess(a, c)
  {
  }

  lemma LexIrreflexive(a: string)
    ensures !LexLess(a, a)
  {
  }

  /** After a common beginning, one string ends or has the smaller character. */
  predicate DiffersAt(a: string, b: string, k: int) {
    0 <= k <= |a| && k < |b| && a[..k] == b[..k] && (k == |a| || a[k] < b[k])
  }

  lemma {:induction false} LexMeans(a: string, b: string)
    ensures LexLess(a, b) <==> exists k :: DiffersAt(a, b, k)
  {
    if b == "" {
    } else if a == "" || a[0] < b[0] {
      assert DiffersAt(a, b, 0);
    } else {
      LexMeans(a[1..], b[1..]);
      if k :| DiffersAt(a, b, k) {
        assert a[..k][1..] == a[1..][..k - 1] && b[..k][1..] == b[1..][..k - 1];
        assert DiffersAt(a[1..], b[1..], k - 1);
      }
      if a[0] == b[0] && exists k :: DiffersAt(a[1..], b[1..], k) {
        var k :| DiffersAt(a[1..], b[1..], k);
        assert a[..k + 1] == [a[0]] + a[1..][..k] && b[..k + 1] == [b[0]] + b[1..][..k];
        assert DiffersAt(a, b, k + 1);
      }
    }
  }

  function Insert<T>(x: T, s: seq<T>, id: T -> string): (r: seq<T>)
    ensures multiset(r) == multiset(s) + multiset{x}
  {
    if s == [] || LexLess(id(x), id(s[0])) then [x] + s
    else
      assert s == [s[0]] + s[1..];
      [s[0]] + Insert(x, s[1..], id)
  }

  function SortById<T>(s: seq<T>, id: T -> string): (r: seq<T>)
    ensures multiset(r) == multiset(s)
  {
    if s == [] then [] else
    assert s == s[..|s| - 1] + [s[|s| - 1]];
    Insert(s[|s| - 1], SortById(s[..|s| - 1], id), id)
  }

  ghost predicate Ascending<T>(s: seq<T>, id: T -> string) {
    forall i, j :: 0 <= i < j < |s| ==> !LexLess(id(s[j]), id(s[i]))
  }

  lemma {:induction false} InsertAscending<T>(x: T, s: seq<T>, id: T -> string)
    requires Ascending(s, id)
    ensures Ascending(Insert(x, s, id), id)
  {
    if s == [] {
    } else if LexLess(id(x), id(s[0])) {
      forall j | 0 <= j < |s| ensures !LexLess(id(s[j]), id(x)) {
        if LexLess(id(s[j]), id(x)) {
          LexTransitive(id(s[j]), id(x), id(s[0]));
          LexIrreflexive(id(s[0]));
        }
      }
    } else {
      InsertAscending(x, s[1..], id);
      var rest := Insert(x, s[1..], id);
      forall j | 0 <= j < |rest| ensures !LexLess(id(rest[j]), id(s[0])) {
        assert rest[j] in multiset(s[1..]) + multiset{x};
      }
    }
  }

  lemma {:induction false} SortAscending<T>(s: seq<T>, id: T -> string)
    ensures Ascending(SortById(s, id), id)
  {
    if s == [] {
    } else {
      SortAscending(s[..|s| - 1], id);
      InsertAscending(s[|s| - 1], SortById(s[..|s| - 1], id), id);
    }
  }
}
