/** Counting, filtering, mapping and subsequences. The recursion runs over prefixes given by their length, so that
    nothing but indices appears in proofs about logs that grow at the end. */
module Seqs {

  function CountIn<T>(s: seq<T>, n: nat, p: T -> bool): nat
    requires n <= |s|
  {
    if n == 0 then 0 else CountIn(s, n - 1, p) + if p(s[n - 1]) then 1 else 0
  }

  function Count<T>(s: seq<T>, p: T -> bool): nat {
    CountIn(s, |s|, p)
  }

  /** The image of those elements that satisfy `p`. */
  function PickIn<T, U>(s: seq<T>, n: nat, p: T -> bool, f: T -> U): seq<U>
    requires n <= |s|
  {
    if n == 0 then [] else PickIn(s, n - 1, p, f) + if p(s[n - 1]) then [f(s[n - 1])] else []
  }

  function Pick<T, U>(s: seq<T>, p: T -> bool, f: T -> U): seq<U> {
    PickIn(s, |s|, p, f)
  }

  function MapIn<T, U>(f: T -> U, s: seq<T>, n: nat): (r: seq<U>)
    requires n <= |s|
    ensures |r| == n && forall i | 0 <= i < n :: r[i] == f(s[i])
  {
    if n == 0 then [] else MapIn(f, s, n - 1) + [f(s[n - 1])]
  }

  function Map<T, U>(f: T -> U, s: seq<T>): (r: seq<U>)
    ensures |r| == |s| && forall i | 0 <= i < |s| :: r[i] == f(s[i])
  {
    MapIn(f, s, |s|)
  }

  /** What the first `n` elements yield, one after the other. */
  function Collect<T, U>(s: seq<T>, n: nat, f: T -> seq<U>): seq<U>
    requires n <= |s|
  {
    if n == 0 then [] else Collect(s, n - 1, f) + f(s[n - 1])
  }

  lemma {:induction false} CollectPrefix<T, U>(a: seq<T>, b: seq<T>, n: nat, f: T -> seq<U>)
    requires n <= |a|
    ensures Collect(a + b, n, f) == Collect(a, n, f)
  {
    if n > 0 {
      CollectPrefix(a, b, n - 1, f);
    }
  }

  lemma {:induction false} CollectUpdate<T, U>(s: seq<T>, k: nat, x: T, n: nat, f: T -> seq<U>)
    requires n <= k < |s|
    ensures Collect(s[k := x], n, f) == Collect(s, n, f)
  {
    if n > 0 {
      CollectUpdate(s, k, x, n - 1, f);
    }
  }

  lemma CollectAppend<T, U>(a: seq<T>, x: T, f: T -> seq<U>)
    ensures Collect(a + [x], |a| + 1, f) == Collect(a, |a|, f) + f(x)
  {
    CollectPrefix(a, [x], |a|, f);
  }

  /** Where the elements that satisfy `p` stand. */
  function Indices<T>(s: seq<T>, n: nat, p: T -> bool): seq<nat>
    requires n <= |s|
  {
    if n == 0 then [] else Indices(s, n - 1, p) + if p(s[n - 1]) then [n - 1] else []
  }

  lemma {:induction false} IndicesAre<T>(s: seq<T>, n: nat, p: T -> bool)
    requires n <= |s|
    ensures forall i | 0 <= i < |Indices(s, n, p)| :: Indices(s, n, p)[i] < n && p(s[Indices(s, n, p)[i]])
    ensures forall i, j | 0 <= i < j < |Indices(s, n, p)| :: Indices(s, n, p)[i] < Indices(s, n, p)[j]
    ensures forall k | 0 <= k < n && p(s[k]) :: k in Indices(s, n, p)
  {
    if n > 0 {
      IndicesAre(s, n - 1, p);
    }
  }

  lemma {:induction false} IndicesSame<T>(s: seq<T>, n: nat, p: T -> bool, q: T -> bool)
    requires n <= |s| && forall k | 0 <= k < n :: p(s[k]) == q(s[k])
    ensures Indices(s, n, p) == Indices(s, n, q)
  {
    if n > 0 {
      IndicesSame(s, n - 1, p, q);
    }
  }

  /** What is collected, when just the elements that satisfy `p` yield something, and each one thing. */
  lemma {:induction false} CollectAt<T, U>(s: seq<T>, n: nat, f: T -> seq<U>, p: T -> bool, g: T -> U)
    requires n <= |s|
    requires forall k | 0 <= k < n :: f(s[k]) == if p(s[k]) then [g(s[k])] else []
    ensures |Collect(s, n, f)| == |Indices(s, n, p)|
    ensures forall i | 0 <= i < |Indices(s, n, p)| ::
              Indices(s, n, p)[i] < n && Collect(s, n, f)[i] == g(s[Indices(s, n, p)[i]])
  {
    if n > 0 {
      CollectAt(s, n - 1, f, p, g);
    }
  }

  /** What is picked, by where it stands. */
  lemma {:induction false} PickAt<T, U>(s: seq<T>, n: nat, p: T -> bool, f: T -> U)
    requires n <= |s|
    ensures |PickIn(s, n, p, f)| == |Indices(s, n, p)|
    ensures forall i | 0 <= i < |Indices(s, n, p)| ::
              Indices(s, n, p)[i] < n && PickIn(s, n, p, f)[i] == f(s[Indices(s, n, p)[i]])
  {
    if n > 0 {
      PickAt(s, n - 1, p, f);
    }
  }

  lemma {:induction false} CountInPrefix<T>(a: seq<T>, b: seq<T>, n: nat, p: T -> bool)
    requires n <= |a|
    ensures CountIn(a + b, n, p) == CountIn(a, n, p)
  {
    if n > 0 {
      CountInPrefix(a, b, n - 1, p);
    }
  }

  lemma {:induction false} CountInSuffix<T>(a: seq<T>, b: seq<T>, n: nat, p: T -> bool)
    requires n <= |b|
    ensures CountIn(a + b, |a| + n, p) == Count(a, p) + CountIn(b, n, p)
  {
    if n == 0 {
      CountInPrefix(a, b, |a|, p);
    } else {
      CountInSuffix(a, b, n - 1, p);
    }
  }

  lemma CountConcat<T>(a: seq<T>, b: seq<T>, p: T -> bool)
    ensures Count(a + b, p) == Count(a, p) + Count(b, p)
  {
    CountInSuffix(a, b, |b|, p);
  }

  lemma CountOne<T>(x: T, p: T -> bool)
    ensures Count([x], p) == if p(x) then 1 else 0
  {
    assert CountIn([x], 0, p) == 0;
  }

  lemma {:induction false} PickInPrefix<T, U>(a: seq<T>, b: seq<T>, n: nat, p: T -> bool, f: T -> U)
    requires n <= |a|
    ensures PickIn(a + b, n, p, f) == PickIn(a, n, p, f)
  {
    if n > 0 {
      PickInPrefix(a, b, n - 1, p, f);
    }
  }

  lemma {:induction false} PickInSuffix<T, U>(a: seq<T>, b: seq<T>, n: nat, p: T -> bool, f: T -> U)
    requires n <= |b|
    ensures PickIn(a + b, |a| + n, p, f) == Pick(a, p, f) + PickIn(b, n, p, f)
  {
    if n == 0 {
      PickInPrefix(a, b, |a|, p, f);
    } else {
      PickInSuffix(a, b, n - 1, p, f);
      assert (a + b)[|a| + n - 1] == b[n - 1];
    }
  }

  lemma PickConcat<T, U>(a: seq<T>, b: seq<T>, p: T -> bool, f: T -> U)
    ensures Pick(a + b, p, f) == Pick(a, p, f) + Pick(b, p, f)
  {
    PickInSuffix(a, b, |b|, p, f);
  }

  lemma PickOne<T, U>(x: T, p: T -> bool, f: T -> U)
    ensures Pick([x], p, f) == if p(x) then [f(x)] else []
  {
    assert PickIn([x], 0, p, f) == [];
  }

  lemma PickPrepend<T, U>(x: T, b: seq<T>, p: T -> bool, f: T -> U)
    ensures Pick([x] + b, p, f) == (if p(x) then [f(x)] else []) + Pick(b, p, f)
  {
    PickConcat([x], b, p, f);
    PickOne(x, p, f);
  }

  lemma PickAppend<T, U>(a: seq<T>, x: T, p: T -> bool, f: T -> U)
    ensures Pick(a + [x], p, f) == Pick(a, p, f) + if p(x) then [f(x)] else []
  {
    PickConcat(a, [x], p, f);
    PickOne(x, p, f);
  }

  /** Counting among the picked is counting among those that satisfy both. */
  lemma {:induction false} CountPicked<T, U>(s: seq<T>, n: nat, p: T -> bool, f: T -> U, q: U -> bool, both: T -> bool)
    requires n <= |s| && forall x :: both(x) == (p(x) && q(f(x)))
    ensures Count(PickIn(s, n, p, f), q) == CountIn(s, n, both)
  {
    if n > 0 {
      var x := s[n - 1];
      CountPicked(s, n - 1, p, f, q, both);
      if p(x) {
        CountConcat(PickIn(s, n - 1, p, f), [f(x)], q);
        CountOne(f(x), q);
      } else {
        assert PickIn(s, n, p, f) == PickIn(s, n - 1, p, f);
      }
    }
  }

  lemma CountOfPrefix<T>(a: seq<T>, b: seq<T>, p: T -> bool)
    ensures Count(a, p) <= Count(a + b, p)
  {
    CountConcat(a, b, p);
  }

  lemma MapConcat<T, U>(f: T -> U, a: seq<T>, b: seq<T>)
    ensures Map(f, a + b) == Map(f, a) + Map(f, b)
  {
  }

  /** The first `i` elements of `a` occur, in order and at different places, among the first `j` of `b`. */
  ghost predicate SubsequenceIn<T(!new)>(a: seq<T>, i: nat, b: seq<T>, j: nat)
    requires i <= |a| && j <= |b|
  {
    i == 0 || (j > 0 && (
      SubsequenceIn(a, i, b, j - 1)
      || (a[i - 1] == b[j - 1] && SubsequenceIn(a, i - 1, b, j - 1))))
  }

  ghost predicate Subsequence<T(!new)>(a: seq<T>, b: seq<T>) {
    SubsequenceIn(a, |a|, b, |b|)
  }

  lemma {:induction false} SubsequenceInPrefix<T(!new)>(a: seq<T>, i: nat, b: seq<T>, j: nat, a': seq<T>, b': seq<T>)
    requires i <= |a| && j <= |b|
    ensures SubsequenceIn(a + a', i, b + b', j) == SubsequenceIn(a, i, b, j)
    decreases j
  {
    if i > 0 && j > 0 {
      SubsequenceInPrefix(a, i, b, j - 1, a', b');
      SubsequenceInPrefix(a, i - 1, b, j - 1, a', b');
    }
  }

  /** `b` grows by one element, and `a` by the same element or by nothing. */
  lemma SubsequenceGrow<T(!new)>(a: seq<T>, b: seq<T>, more: seq<T>, x: T)
    requires Subsequence(a, b) && (more == [] || more == [x])
    ensures Subsequence(a + more, b + [x])
  {
    SubsequenceInPrefix(a, |a|, b, |b|, more, [x]);
    assert SubsequenceIn(a + more, |a|, b + [x], |b|);
  }

  lemma {:induction false} SubsequenceRefl<T(!new)>(a: seq<T>, n: nat)
    requires n <= |a|
    ensures SubsequenceIn(a, n, a, n)
  {
    if n > 0 {
      SubsequenceRefl(a, n - 1);
    }
  }

  lemma {:induction false} SubsequenceOfPrefix<T(!new)>(a: seq<T>, b: seq<T>, c: seq<T>, n: nat)
    requires Subsequence(a, b) && n <= |c|
    ensures SubsequenceIn(a, |a|, b + c, |b| + n)
  {
    if n == 0 {
      SubsequenceInPrefix(a, |a|, b, |b|, [], c);
      assert a + [] == a;
    } else {
      SubsequenceOfPrefix(a, b, c, n - 1);
    }
  }

  lemma {:induction false} SubsequenceTrans<T(!new)>(a: seq<T>, i: nat, b: seq<T>, j: nat, c: seq<T>, k: nat)
    requires i <= |a| && j <= |b| && k <= |c|
    requires SubsequenceIn(a, i, b, j) && SubsequenceIn(b, j, c, k)
    ensures SubsequenceIn(a, i, c, k)
    decreases k
  {
    if i > 0 {
      if SubsequenceIn(b, j, c, k - 1) {
        SubsequenceTrans(a, i, b, j, c, k - 1);
      } else if SubsequenceIn(a, i, b, j - 1) {
        SubsequenceTrans(a, i, b, j - 1, c, k - 1);
      } else {
        SubsequenceTrans(a, i - 1, b, j - 1, c, k - 1);
      }
    }
  }

  lemma SubsequenceOfParts<T(!new)>(a: seq<T>, later: seq<T>, b: seq<T>, more: seq<T>)
    requires Subsequence(a + later, b)
    ensures Subsequence(a, b + more)
  {
    SubsequenceRefl(a, |a|);
    SubsequenceOfPrefix(a, a, later, |later|);
    SubsequenceTrans(a, |a|, a + later, |a + later|, b, |b|);
    SubsequenceOfPrefix(a, b, more, |more|);
  }

  lemma {:induction false} SubsequencePick<T, U(!new)>(s: seq<T>, n: nat, p: T -> bool, f: T -> U)
    requires n <= |s|
    ensures SubsequenceIn(PickIn(s, n, p, f), |PickIn(s, n, p, f)|, Map(f, s), n)
  {
    if n > 0 {
      SubsequencePick(s, n - 1, p, f);
      var picked, image := PickIn(s, n - 1, p, f), Map(f, s);
      var more := if p(s[n - 1]) then [f(s[n - 1])] else [];
      SubsequenceInPrefix(picked, |picked|, image, n - 1, more, []);
      assert image + [] == image;
      assert PickIn(s, n, p, f) == picked + more;
    }
  }

  /** A subsequence takes every occurrence from a different place. */
  lemma {:induction false} SubsequenceMultiset<T(!new)>(a: seq<T>, i: nat, b: seq<T>, j: nat)
    requires i <= |a| && j <= |b| && SubsequenceIn(a, i, b, j)
    ensures multiset(a[..i]) <= multiset(b[..j])
    decreases j
  {
    if i > 0 {
      assert b[..j] == b[..j - 1] + [b[j - 1]];
      if SubsequenceIn(a, i, b, j - 1) {
        SubsequenceMultiset(a, i, b, j - 1);
      } else {
        SubsequenceMultiset(a, i - 1, b, j - 1);
        assert a[..i] == a[..i - 1] + [a[i - 1]];
      }
    }
  }
}
