/** Sequences put together and taken apart. */
module Seqs {

  lemma Assoc<T>(a: seq<T>, b: seq<T>, c: seq<T>)
    ensures (a + b) + c == a + (b + c)
  {
  }

  lemma PrefixSnoc<T>(s: seq<T>, k: nat)
    requires 0 < k <= |s|
    ensures s[..k - 1] + [s[k - 1]] == s[..k]
  {
  }

  /** `p` carries over from `k` to the next number. */
  ghost predicate Carries(p: nat -> bool, k: nat) {
    p(k) ==> p(k + 1)
  }

  lemma {:induction false} Reaches(p: nat -> bool, n: nat)
    requires p(0) && forall k :: 0 <= k < n ==> Carries(p, k)
    ensures p(n)
  {
    if n > 0 {
      Reaches(p, n - 1);
      assert Carries(p, n - 1);
    }
  }

  lemma FrontOfSnoc<T>(s: seq<T>, x: T)
    ensures |s + [x]| == |s| + 1 && (s + [x])[..|s|] == s && (s + [x])[|s|] == x
  {
  }
}
