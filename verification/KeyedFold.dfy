/** Accumulating entries per key: each entry is added to the accumulator of its own key, which
    is created when the key is first seen. */
module KeyedFold {
  import Seqs

  datatype Fold<!E, !A> = Fold(key: E -> int, add: (A, E) -> A, empty: A)

  function At<E, A>(f: Fold<E, A>, m: map<int, A>, k: int): A {
    if k in m then m[k] else f.empty
  }

  function Put<E, A>(f: Fold<E, A>, m: map<int, A>, e: E): map<int, A> {
    m[f.key(e) := f.add(At(f, m, f.key(e)), e)]
  }

  function PutAll<E, A>(f: Fold<E, A>, m: map<int, A>, es: seq<E>): map<int, A>
    decreases |es|
  {
    if es == [] then m else Put(f, PutAll(f, m, es[..|es| - 1]), es[|es| - 1])
  }

  /** The entries of one key, in order. */
  function Own<E, A>(f: Fold<E, A>, es: seq<E>, k: int): seq<E>
    decreases |es|
  {
    if es == [] then []
    else Own(f, es[..|es| - 1], k) + if f.key(es[|es| - 1]) == k then [es[|es| - 1]] else []
  }

  function AddAll<E, A>(f: Fold<E, A>, a: A, es: seq<E>): A
    decreases |es|
  {
    if es == [] then a else f.add(AddAll(f, a, es[..|es| - 1]), es[|es| - 1])
  }

  lemma AddAllSnoc<E, A>(f: Fold<E, A>, a: A, es: seq<E>, e: E)
    ensures AddAll(f, a, es + [e]) == f.add(AddAll(f, a, es), e)
  {
    assert (es + [e])[..|es|] == es;
  }

  /** Keys do not interfere: the accumulator of a key is the fold of that key's own entries. */
  lemma {:induction false} KeysAreIndependent<E, A>(f: Fold<E, A>, m: map<int, A>, es: seq<E>, k: int)
    ensures k in PutAll(f, m, es) <==> k in m || Own(f, es, k) != []
    ensures At(f, PutAll(f, m, es), k) == AddAll(f, At(f, m, k), Own(f, es, k))
    decreases |es|
  {
    if es != [] {
      var before, e := es[..|es| - 1], es[|es| - 1];
      KeysAreIndependent(f, m, before, k);
      if f.key(e) == k {
        AddAllSnoc(f, At(f, m, k), Own(f, before, k), e);
      } else {
        assert Own(f, before, k) + [] == Own(f, before, k);
      }
    }
  }

  lemma {:induction false} OwnConcat<E, A>(f: Fold<E, A>, a: seq<E>, b: seq<E>, k: int)
    ensures Own(f, a + b, k) == Own(f, a, k) + Own(f, b, k)
    decreases |b|
  {
    if b == [] {
      assert a + b == a;
      assert Own(f, a, k) + [] == Own(f, a, k);
    } else {
      var n, e := |b| - 1, b[|b| - 1];
      assert (a + b)[..|a| + n] == a + b[..n];
      OwnConcat(f, a, b[..n], k);
      var mine := if f.key(e) == k then [e] else [];
      assert (Own(f, a, k) + Own(f, b[..n], k)) + mine == Own(f, a, k) + (Own(f, b[..n], k) + mine);
    }
  }

  lemma {:induction false} PutAllConcat<E, A>(f: Fold<E, A>, m: map<int, A>, a: seq<E>, b: seq<E>)
    ensures PutAll(f, m, a + b) == PutAll(f, PutAll(f, m, a), b)
    decreases |b|
  {
    if b == [] {
      assert a + b == a;
    } else {
      assert (a + b)[..|a| + |b| - 1] == a + b[..|b| - 1];
      PutAllConcat(f, m, a, b[..|b| - 1]);
    }
  }

  /** The result is determined by the per-key subsequences alone. */
  lemma SameOwnSameResult<E, A>(f: Fold<E, A>, a: seq<E>, b: seq<E>)
    requires forall k :: Own(f, a, k) == Own(f, b, k)
    ensures PutAll(f, map[], a) == PutAll(f, map[], b)
  {
    var x, y := PutAll(f, map[], a), PutAll(f, map[], b);
    forall k ensures k in x <==> k in y ensures k in x ==> x[k] == y[k] {
      KeysAreIndependent(f, map[], a, k);
      KeysAreIndependent(f, map[], b, k);
      assert k in x ==> x[k] == At(f, x, k);
      assert k in y ==> y[k] == At(f, y, k);
    }
  }

  lemma OwnFour<E, A>(f: Fold<E, A>, a: seq<E>, b: seq<E>, c: seq<E>, d: seq<E>, k: int)
    ensures Own(f, a + b + c + d, k) == Own(f, a, k) + Own(f, b, k) + Own(f, c, k) + Own(f, d, k)
  {
    OwnConcat(f, a + b + c, d, k);
    OwnConcat(f, a + b, c, k);
    OwnConcat(f, a, b, k);
  }

  /** Adjacent groups without a common key can be swapped. */
  lemma SwapDisjoint<E, A>(f: Fold<E, A>, before: seq<E>, x: seq<E>, y: seq<E>, after: seq<E>)
    requires forall k :: Own(f, x, k) == [] || Own(f, y, k) == []
    ensures PutAll(f, map[], before + x + y + after) == PutAll(f, map[], before + y + x + after)
  {
    forall k ensures Own(f, before + x + y + after, k) == Own(f, before + y + x + after, k) {
      OwnFour(f, before, x, y, after, k);
      OwnFour(f, before, y, x, after, k);
      assert Own(f, before, k) + [] == Own(f, before, k);
      assert Own(f, before, k) + Own(f, x, k) + [] == Own(f, before, k) + Own(f, x, k);
      assert Own(f, before, k) + Own(f, y, k) + [] == Own(f, before, k) + Own(f, y, k);
    }
    SameOwnSameResult(f, before + x + y + after, before + y + x + after);
  }

  lemma PutSplit<E, A>(f: Fold<E, A>, m: map<int, A>, e: E, e1: E, e2: E)
    requires f.key(e1) == f.key(e2) == f.key(e)
    requires f.add(f.add(At(f, m, f.key(e)), e1), e2) == f.add(At(f, m, f.key(e)), e)
    ensures PutAll(f, m, [e]) == PutAll(f, m, [e1, e2])
  {
  }

  /** An entry can be replaced by two entries of its key that together add the same. */
  lemma SplitEntry<E, A(!new)>(f: Fold<E, A>, before: seq<E>, e: E, e1: E, e2: E, after: seq<E>)
    requires f.key(e1) == f.key(e2) == f.key(e)
    requires forall a {:trigger f.add(a, e)} :: f.add(f.add(a, e1), e2) == f.add(a, e)
    ensures PutAll(f, map[], before + [e] + after) == PutAll(f, map[], before + [e1, e2] + after)
  {
    PutAllConcat(f, map[], before + [e], after);
    PutAllConcat(f, map[], before, [e]);
    PutAllConcat(f, map[], before + [e1, e2], after);
    PutAllConcat(f, map[], before, [e1, e2]);
    PutSplit(f, PutAll(f, map[], before), e, e1, e2);
  }

  // ---------------------------------------------------------------- entries of several groups

  /** The entries of a sequence of groups, in order. */
  function Flat<G, E>(entries: G -> seq<E>, gs: seq<G>): seq<E>
    decreases |gs|
  {
    if gs == [] then [] else Flat(entries, gs[..|gs| - 1]) + entries(gs[|gs| - 1])
  }

  lemma {:induction false} FlatConcat<G, E>(entries: G -> seq<E>, a: seq<G>, b: seq<G>)
    ensures Flat(entries, a + b) == Flat(entries, a) + Flat(entries, b)
    decreases |b|
  {
    if b == [] {
      assert a + b == a;
      assert Flat(entries, a) + [] == Flat(entries, a);
    } else {
      var n := |b| - 1;
      assert (a + b)[..|a| + n] == a + b[..n];
      FlatConcat(entries, a, b[..n]);
      Seqs.Assoc(Flat(entries, a), Flat(entries, b[..n]), entries(b[n]));
    }
  }

  lemma FlatOne<G, E>(entries: G -> seq<E>, g: G)
    ensures Flat(entries, [g]) == entries(g)
  {
  }

  lemma FlatAround<G, E>(entries: G -> seq<E>, a: seq<G>, x: G, b: seq<G>)
    ensures Flat(entries, a + [x] + b) == Flat(entries, a) + entries(x) + Flat(entries, b)
  {
    FlatConcat(entries, a + [x], b);
    FlatConcat(entries, a, [x]);
    FlatOne(entries, x);
  }

  lemma FlatAroundTwo<G, E>(entries: G -> seq<E>, a: seq<G>, x: G, y: G, b: seq<G>)
    ensures Flat(entries, a + [x, y] + b) == Flat(entries, a) + entries(x) + entries(y) + Flat(entries, b)
  {
    assert a + [x, y] + b == a + [x] + ([y] + b);
    FlatAround(entries, a, x, [y] + b);
    FlatConcat(entries, [y], b);
    FlatOne(entries, y);
  }

  lemma Rearranged<E>(b: seq<E>, p: seq<E>, e: seq<E>, q: seq<E>, r: seq<E>, a: seq<E>)
    ensures b + (p + e + q) + r + a == (b + p + e) + q + r + a
    ensures (b + p + e) + r + q + a == (b + p) + (e + r) + (q + a)
    ensures b + (p + e + q) + a == (b + p) + e + (q + a)
  {
  }

  /** An entry can be replaced by a first part in its place and a second part behind the entries
      `q` that follow it, when none of these has its key and the parts together add the same. */
  lemma SplitLater<E, A(!new)>(f: Fold<E, A>, b: seq<E>, p: seq<E>, e: E, e1: E, e2: E, q: seq<E>, a: seq<E>)
    requires f.key(e1) == f.key(e2) == f.key(e) && Own(f, q, f.key(e)) == []
    requires forall c {:trigger f.add(c, e)} :: f.add(f.add(c, e1), e2) == f.add(c, e)
    ensures PutAll(f, map[], b + (p + [e] + q) + a) == PutAll(f, map[], b + (p + [e1] + q) + [e2] + a)
  {
    Rearranged(b, p, [e1], q, [e2], a);
    forall k ensures Own(f, q, k) == [] || Own(f, [e2], k) == [] {
      assert Own(f, [e2], k) == Own(f, [], k) + if f.key(e2) == k then [e2] else [];
    }
    SwapDisjoint(f, b + p + [e1], q, [e2], a);
    SplitEntry(f, b + p, e, e1, e2, q + a);
    assert [e1] + [e2] == [e1, e2];
    Rearranged(b, p, [e], q, [], a);
  }

  /** The loop that collects the entries of all groups. */
  method Collect<G, E>(entries: G -> seq<E>, gs: seq<G>) returns (es: seq<E>)
    ensures es == Flat(entries, gs)
  {
    es := [];
    for i := 0 to |gs|
      invariant es == Flat(entries, gs[..i])
    {
      assert gs[..i + 1][..i] == gs[..i];
      es := es + entries(gs[i]);
    }
    assert gs[..|gs|] == gs;
  }
}
