/** The keys of an integer map in ascending order. */
module Ordered {

  ghost predicate Ascending(ks: seq<int>) {
    forall i, j :: 0 <= i < j < |ks| ==> ks[i] < ks[j]
  }

  ghost predicate Lists(ks: seq<int>, s: set<int>) {
    Ascending(ks) && (forall k :: k in ks <==> k in s)
  }

  lemma {:induction false} ListingIsUnique(a: seq<int>, b: seq<int>, s: set<int>)
    requires Lists(a, s) && Lists(b, s)
    ensures a == b
    decreases |a|
  {
    if a == [] {
      HeadIsListed(b);
    } else {
      var x := a[0];
      assert x in a && x in s && x in b;
      var y := b[0];
      assert y in b && y in s && y in a;
      ListsTail(a, s);
      ListsTail(b, s);
      ListingIsUnique(a[1..], b[1..], s - {a[0]});
    }
  }

  lemma HeadIsListed(b: seq<int>)
    ensures b == [] || exists k :: k in b
  {
    if b != [] {
      var x := b[0];
      assert x in b;
    }
  }

  lemma ListsTail(a: seq<int>, s: set<int>)
    requires Lists(a, s) && a != []
    ensures Lists(a[1..], s - {a[0]})
    ensures forall k :: k in s ==> a[0] <= k
  {
  }

  /** Map iteration: some member, in no particular order. */
  method Pick<T>(s: set<T>) returns (x: T)
    requires s != {}
    ensures x in s
  {
    x :| x in s;
  }

  /** The keys of a map, sorted. */
  method SortedKeys<A>(m: map<int, A>) returns (ks: seq<int>)
    ensures ks == Listing(m.Keys)
  {
    ks := [];
    var left: set<int> := m.Keys;
    while left != {}
      invariant left <= m.Keys && Lists(ks, m.Keys - left)
      decreases |left|
    {
      var k := Pick(left);
      left := left - {k};
      var i := 0;
      while i < |ks| && ks[i] < k
        invariant 0 <= i <= |ks| && forall j :: 0 <= j < i ==> ks[j] < k
      {
        i := i + 1;
      }
      assert i < |ks| ==> ks[i] in ks && ks[i] > k;
      var inserted := ks[..i] + [k] + ks[i..];
      InsertLists(ks, i, k, m.Keys - left - {k});
      ks := inserted;
      assert m.Keys - left == (m.Keys - left - {k}) + {k};
    }
    assert m.Keys - left == m.Keys;
    ListingIsUnique(ks, Listing(m.Keys), m.Keys);
  }

  lemma InsertLists(ks: seq<int>, i: nat, k: int, s: set<int>)
    requires Lists(ks, s) && i <= |ks| && k !in s
    requires (forall j :: 0 <= j < i ==> ks[j] < k) && (i < |ks| ==> k < ks[i])
    ensures Lists(ks[..i] + [k] + ks[i..], s + {k})
  {
  }

  lemma SomeListing(s: set<int>)
    ensures exists ks :: Lists(ks, s)
  {
    var left, ks := s, [];
    while left != {}
      invariant left <= s && Lists(ks, s - left)
      decreases |left|
    {
      var k := PickGhost(left);
      left := left - {k};
      var i := 0;
      while i < |ks| && ks[i] < k
        invariant 0 <= i <= |ks| && forall j :: 0 <= j < i ==> ks[j] < k
      {
        i := i + 1;
      }
      assert i < |ks| ==> ks[i] in ks && ks[i] > k;
      InsertLists(ks, i, k, s - left - {k});
      ks := ks[..i] + [k] + ks[i..];
      assert s - left == (s - left - {k}) + {k};
    }
    assert s - left == s;
  }

  lemma PickGhost<T>(s: set<T>) returns (x: T)
    requires s != {}
    ensures x in s
  {
    x :| x in s;
  }

  /** The members of a set, ascending. */
  ghost function Listing(s: set<int>): (ks: seq<int>)
    ensures Lists(ks, s)
    ensures forall i :: 0 <= i < |ks| ==> ks[i] in s
  {
    SomeListing(s);
    var ks :| Lists(ks, s);
    ListedAt(ks, s);
    ks
  }

  lemma ListedAt(ks: seq<int>, s: set<int>)
    requires Lists(ks, s)
    ensures forall i :: 0 <= i < |ks| ==> ks[i] in s
  {
    forall i | 0 <= i < |ks| ensures ks[i] in s {
      var k := ks[i];
      assert k in ks;
    }
  }

  lemma {:induction false} ListsSize(ks: seq<int>, s: set<int>)
    requires Lists(ks, s)
    ensures |ks| == |s|
    decreases |ks|
  {
    if ks != [] {
      ListedAt(ks, s);
      ListsTail(ks, s);
      ListsSize(ks[1..], s - {ks[0]});
    } else if s != {} {
      var k := PickGhost(s);
      assert false;
    }
  }

  /** The `n` lowest members, or all if there are no more. */
  ghost predicate Lowest(low: set<int>, s: set<int>, n: nat) {
    && low <= s
    && |low| == (if |s| <= n then |s| else n)
    && (forall a, b :: a in low && b in s && b !in low ==> a < b)
  }

  /** The first keys of a listing are the lowest. */
  function Firsts(ks: seq<int>, n: nat): set<int> {
    if n == 0 || ks == [] then {} else {ks[0]} + Firsts(ks[1..], n - 1)
  }

  lemma HeadIsLeast(ks: seq<int>, s: set<int>)
    requires Lists(ks, s) && ks != []
    ensures ks[0] in s && forall k :: k in s && k != ks[0] ==> ks[0] < k
  {
    ListedAt(ks, s);
  }

  lemma LowestCons(low: set<int>, s: set<int>, n: nat, k: int)
    requires k in s && (forall x :: x in s && x != k ==> k < x)
    requires n > 0 && Lowest(low, s - {k}, n - 1)
    ensures Lowest({k} + low, s, n)
  {
    assert |s - {k}| == |s| - 1;
    assert |{k} + low| == |low| + 1;
  }

  lemma {:induction false} FirstsAreLowest(ks: seq<int>, s: set<int>, n: nat)
    requires Lists(ks, s)
    ensures Lowest(Firsts(ks, n), s, n)
    decreases n
  {
    ListsSize(ks, s);
    if n != 0 && ks != [] {
      HeadIsLeast(ks, s);
      ListsTail(ks, s);
      FirstsAreLowest(ks[1..], s - {ks[0]}, n - 1);
      LowestCons(Firsts(ks[1..], n - 1), s, n, ks[0]);
    }
  }

  /** Sorted selection with a limit. */
  method LowestKeys<A>(m: map<int, A>, n: nat) returns (low: set<int>)
    ensures Lowest(low, m.Keys, n)
  {
    var ks := SortedKeys(m);
    FirstsAreLowest(ks, m.Keys, n);
    low := Firsts(ks, n);
  }
}
