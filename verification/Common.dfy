// Optional values, and counting over sequences and maps.
module Common {
  datatype Option<+T> = None | Some(value: T)

  function Bag<T>(o: Option<T>): multiset<T> {
    match o
    case None => multiset{}
    case Some(v) => multiset{v}
  }

  // The sum over a sequence of how often each element holds e.
  function Count<T, E>(f: (T, E) -> nat, e: E, q: seq<T>): nat {
    if q == [] then 0 else f(q[0], e) + Count(f, e, q[1..])
  }

  lemma {:induction false} CountAppend<T, E>(f: (T, E) -> nat, e: E, p: seq<T>, q: seq<T>)
    ensures Count(f, e, p + q) == Count(f, e, p) + Count(f, e, q)
  {
    if p == [] {
      assert p + q == q;
    } else {
      assert (p + q)[1..] == p[1..] + q;
      CountAppend(f, e, p[1..], q);
    }
  }

  lemma CountSnoc<T, E>(f: (T, E) -> nat, e: E, q: seq<T>, x: T)
    ensures Count(f, e, q + [x]) == Count(f, e, q) + f(x, e)
  {
    CountAppend(f, e, q, [x]);
    assert Count(f, e, [x]) == f(x, e) + Count(f, e, []);
  }

  lemma CountOne<T, E>(f: (T, E) -> nat, e: E, x: T)
    ensures Count(f, e, [x]) == f(x, e)
  {
    assert Count(f, e, [x]) == f(x, e) + Count(f, e, []);
  }

  lemma {:induction false} CountUpdate<T, E>(f: (T, E) -> nat, e: E, q: seq<T>, i: nat, x: T)
    requires i < |q|
    ensures Count(f, e, q[i := x]) + f(q[i], e) == Count(f, e, q) + f(x, e)
  {
    var q' := q[i := x];
    if i == 0 {
      assert q'[1..] == q[1..];
    } else {
      assert q'[1..] == q[1..][i - 1 := x];
      CountUpdate(f, e, q[1..], i - 1, x);
    }
  }

  lemma {:induction false} CountZero<T, E>(f: (T, E) -> nat, e: E, q: seq<T>)
    requires forall i :: 0 <= i < |q| ==> f(q[i], e) == 0
    ensures Count(f, e, q) == 0
  {
    if q != [] {
      CountZero(f, e, q[1..]);
    }
  }

  lemma {:induction false} CountAt<T, E>(f: (T, E) -> nat, e: E, q: seq<T>, i: nat)
    requires i < |q|
    ensures f(q[i], e) <= Count(f, e, q)
  {
    if i > 0 {
      CountAt(f, e, q[1..], i - 1);
    }
  }

  lemma {:induction false} CountIn<T, E>(f: (T, E) -> nat, e: E, q: seq<T>, x: T)
    requires x in q
    ensures f(x, e) <= Count(f, e, q)
  {
    if q[0] != x { CountIn(f, e, q[1..], x); }
  }

  lemma {:induction false} CountTwo<T, E>(f: (T, E) -> nat, e: E, q: seq<T>, x: T, y: T)
    requires x in q && y in q && x != y
    ensures f(x, e) + f(y, e) <= Count(f, e, q)
  {
    if q[0] == x {
      CountIn(f, e, q[1..], y);
    } else if q[0] == y {
      CountIn(f, e, q[1..], x);
    } else {
      CountTwo(f, e, q[1..], x, y);
    }
  }

  lemma {:induction false} CountSome<T, E>(f: (T, E) -> nat, e: E, q: seq<T>) returns (x: T)
    requires Count(f, e, q) > 0
    ensures x in q && f(x, e) > 0
  {
    if f(q[0], e) > 0 {
      x := q[0];
    } else {
      x := CountSome(f, e, q[1..]);
    }
  }

  // The same sum over the values of a map.
  ghost function CountMap<K, V, E>(f: (V, E) -> nat, e: E, m: map<K, V>): nat {
    if m == map[] then 0
    else
      var k :| k in m;
      f(m[k], e) + CountMap(f, e, m - {k})
  }

  lemma {:induction false} CountMapRemove<K, V, E>(f: (V, E) -> nat, e: E, m: map<K, V>, k: K)
    requires k in m
    ensures CountMap(f, e, m) == f(m[k], e) + CountMap(f, e, m - {k})
    decreases |m|
  {
    var p :| p in m && CountMap(f, e, m) == f(m[p], e) + CountMap(f, e, m - {p});
    if p != k {
      CountMapRemove(f, e, m - {p}, k);
      CountMapRemove(f, e, m - {k}, p);
      assert m - {p} - {k} == m - {k} - {p};
    }
  }

  lemma CountMapUpdate<K, V, E>(f: (V, E) -> nat, e: E, m: map<K, V>, k: K, v: V)
    ensures CountMap(f, e, m[k := v]) + (if k in m then f(m[k], e) else 0) == CountMap(f, e, m) + f(v, e)
  {
    CountMapRemove(f, e, m[k := v], k);
    assert m[k := v] - {k} == m - {k};
    if k in m {
      CountMapRemove(f, e, m, k);
    } else {
      assert m - {k} == m;
    }
  }

  lemma {:induction false} CountMapZero<K, V, E>(f: (V, E) -> nat, e: E, m: map<K, V>)
    requires forall k :: k in m ==> f(m[k], e) == 0
    ensures CountMap(f, e, m) == 0
  {
    if m != map[] {
      var k :| k in m && CountMap(f, e, m) == f(m[k], e) + CountMap(f, e, m - {k});
      CountMapZero(f, e, m - {k});
    }
  }
}
