/** Sums over sequences and maps of anything that adds up like numbers do. */
module Sums {

  datatype Adder<!T> = Adder(plus: (T, T) -> T, zero: T)

  ghost predicate Lawful<T(!new)>(a: Adder<T>) {
    && (forall x, y, z {:trigger a.plus(a.plus(x, y), z)} :: a.plus(a.plus(x, y), z) == a.plus(a.plus(x, z), y))
    && (forall x {:trigger a.plus(a.zero, x)} :: a.plus(a.zero, x) == x)
    && (forall x {:trigger a.plus(x, a.zero)} :: a.plus(x, a.zero) == x)
  }

  function OfSeq<T>(a: Adder<T>, xs: seq<T>): T
    decreases |xs|
  {
    if xs == [] then a.zero else a.plus(OfSeq(a, xs[..|xs| - 1]), xs[|xs| - 1])
  }

  lemma {:induction false} AddInSeq<T(!new)>(a: Adder<T>, xs: seq<T>, i: nat, d: T)
    requires Lawful(a) && i < |xs|
    ensures OfSeq(a, xs[i := a.plus(xs[i], d)]) == a.plus(OfSeq(a, xs), d)
    decreases |xs|
  {
    var front, last, added := xs[..|xs| - 1], xs[|xs| - 1], xs[i := a.plus(xs[i], d)];
    if i == |xs| - 1 {
      assert added[..|added| - 1] == front;
      Regroup(a, OfSeq(a, front), last, d);
    } else {
      AddInSeq(a, front, i, d);
      assert added[..|added| - 1] == front[i := a.plus(xs[i], d)];
    }
  }

  /** The laws also give associativity. */
  lemma Regroup<T(!new)>(a: Adder<T>, x: T, y: T, z: T)
    requires Lawful(a)
    ensures a.plus(x, a.plus(y, z)) == a.plus(a.plus(x, y), z)
  {
    assert a.plus(a.zero, x) == x && a.plus(a.zero, a.plus(y, z)) == a.plus(y, z) && a.plus(a.zero, y) == y;
    Commutes(a, x, a.plus(y, z));
    assert a.plus(a.plus(y, z), x) == a.plus(a.plus(y, x), z);
    Commutes(a, y, x);
  }

  lemma Commutes<T(!new)>(a: Adder<T>, x: T, y: T)
    requires Lawful(a)
    ensures a.plus(x, y) == a.plus(y, x)
  {
    assert a.plus(a.plus(a.zero, x), y) == a.plus(a.plus(a.zero, y), x);
  }

  lemma {:induction false} ZeroSeq<T(!new)>(a: Adder<T>, xs: seq<T>)
    requires Lawful(a) && forall i :: 0 <= i < |xs| ==> xs[i] == a.zero
    ensures OfSeq(a, xs) == a.zero
    decreases |xs|
  {
    if xs != [] {
      ZeroSeq(a, xs[..|xs| - 1]);
      assert a.plus(a.zero, a.zero) == a.zero;
    }
  }

  ghost function Any<K>(s: set<K>): K
    requires s != {}
  {
    var k :| k in s; k
  }

  ghost function OfMap<K, T>(a: Adder<T>, m: map<K, T>): T
    decreases |m|
  {
    if m == map[] then a.zero
    else
      var k := Any(m.Keys);
      Smaller(m, k);
      a.plus(OfMap(a, m - {k}), m[k])
  }

  lemma Smaller<K, T>(m: map<K, T>, k: K)
    requires k in m
    ensures |m - {k}| < |m|
  {
    assert (m - {k}).Keys == m.Keys - {k};
  }

  lemma {:induction false} TakeFromMap<K, T(!new)>(a: Adder<T>, m: map<K, T>, k: K)
    requires Lawful(a) && k in m
    ensures OfMap(a, m) == a.plus(OfMap(a, m - {k}), m[k])
    decreases |m|
  {
    var p := Any(m.Keys);
    if p != k {
      Smaller(m, p);
      Smaller(m, k);
      TakeFromMap(a, m - {p}, k);
      TakeFromMap(a, m - {k}, p);
      TakenTwice(m, p, k);
      Exchange(a, OfMap(a, m - {p} - {k}), m[k], m[p]);
    }
  }

  lemma TakenTwice<K, T>(m: map<K, T>, p: K, k: K)
    ensures m - {p} - {k} == m - {k} - {p}
  {
  }

  lemma Exchange<T(!new)>(a: Adder<T>, x: T, y: T, z: T)
    requires Lawful(a)
    ensures a.plus(a.plus(x, y), z) == a.plus(a.plus(x, z), y)
  {
  }

  function At<K, T>(a: Adder<T>, m: map<K, T>, k: K): T {
    if k in m then m[k] else a.zero
  }

  lemma AddInMap<K, T(!new)>(a: Adder<T>, m: map<K, T>, k: K, d: T)
    requires Lawful(a)
    ensures OfMap(a, m[k := a.plus(At(a, m, k), d)]) == a.plus(OfMap(a, m), d)
  {
    var v := a.plus(At(a, m, k), d);
    var added := m[k := v];
    TakeFromMap(a, added, k);
    assert added - {k} == m - {k};
    if k in m {
      TakeFromMap(a, m, k);
      Regroup(a, OfMap(a, m - {k}), m[k], d);
    } else {
      assert m - {k} == m;
      assert a.plus(a.zero, d) == d;
    }
  }

  lemma {:induction false} ZeroMap<K, T(!new)>(a: Adder<T>, m: map<K, T>)
    requires Lawful(a) && forall k :: k in m ==> m[k] == a.zero
    ensures OfMap(a, m) == a.zero
    decreases |m|
  {
    if m != map[] {
      var k := Any(m.Keys);
      Smaller(m, k);
      ZeroMap(a, m - {k});
      assert a.plus(a.zero, a.zero) == a.zero;
    }
  }

  lemma Zeros<K, T(!new)>(a: Adder<T>, n: nat, ks: set<K>)
    requires Lawful(a)
    ensures OfSeq(a, seq(n, _ => a.zero)) == a.zero
    ensures OfMap(a, map k | k in ks :: a.zero) == a.zero
  {
    ZeroSeq(a, seq(n, _ => a.zero));
    ZeroMap(a, map k | k in ks :: a.zero);
  }
}
