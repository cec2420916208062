/** Sequence operations the client code performs on JavaScript arrays: `map`, `filter`,
    `slice(0, n)`, and the de-duplication that keeps the first element seen for every key
    (an array passed through a `Set`, or a `Map` that is only written when a key is new). */
module Collections {
  import opened Wrappers

  /** `s.map(f)`. */
  function Map<A, B>(f: A -> B, s: seq<A>): seq<B>
  {
    seq(|s|, i requires 0 <= i < |s| => f(s[i]))
  }

  /** `s.filter(p)`: the elements of `s` that satisfy `p`, in their order. */
  function Filter<T>(p: T -> bool, s: seq<T>): (r: seq<T>)
    ensures |r| <= |s|
    ensures forall i :: 0 <= i < |r| ==> r[i] in s && p(r[i])
    ensures forall i :: 0 <= i < |s| && p(s[i]) ==> s[i] in r
  {
    if s == [] then []
    else
      assert s == [s[0]] + s[1..];
      (if p(s[0]) then [s[0]] else []) + Filter(p, s[1..])
  }

  /** `s.slice(0, n)`. */
  function Take<T>(s: seq<T>, n: nat): seq<T>
  {
    if n <= |s| then s[..n] else s
  }

  /** `a` can be obtained from `b` by deleting elements: an order-preserving subsequence. */
  predicate IsSubsequence<T(==)>(a: seq<T>, b: seq<T>)
    decreases |b|
  {
    a == [] ||
    (b != [] && ((a[0] == b[0] && IsSubsequence(a[1..], b[1..])) || IsSubsequence(a, b[1..])))
  }

  /** The first element of `s` whose key is `k`, if there is one. */
  function FindFirst<T, K(==)>(key: T -> K, s: seq<T>, k: K): Option<T>
  {
    if s == [] then None
    else if key(s[0]) == k then Some(s[0])
    else FindFirst(key, s[1..], k)
  }

  /** The elements of `s` whose key does not occur earlier in `s`, in their order: what a
      left-to-right pass keeps when it skips every element whose key it has already seen. */
  function FirstByKey<T, K(==)>(key: T -> K, s: seq<T>): seq<T>
    decreases |s|
  {
    if s == [] then []
    else
      var r := FirstByKey(key, s[..|s| - 1]);
      if key(s[|s| - 1]) in Map(key, r) then r else r + [s[|s| - 1]]
  }

  // ---------------------------------------------------------------------------------------
  // Lemmas

  lemma {:induction false} FilterIsSubsequence<T>(p: T -> bool, s: seq<T>)
    ensures IsSubsequence(Filter(p, s), s)
  {
    if s != [] {
      FilterIsSubsequence(p, s[1..]);
      if p(s[0]) {
        assert Filter(p, s) == [s[0]] + Filter(p, s[1..]);
        assert Filter(p, s)[1..] == Filter(p, s[1..]);
      } else {
        assert Filter(p, s) == Filter(p, s[1..]);
      }
    }
  }

  lemma {:induction false} SubsequenceExtend<T>(a: seq<T>, b: seq<T>, y: T)
    requires IsSubsequence(a, b)
    ensures IsSubsequence(a, b + [y])
    ensures IsSubsequence(a + [y], b + [y])
    decreases |b|
  {
    if b == [] {
      assert a == [];
      assert (a + [y])[1..] == [];
    } else {
      assert (b + [y])[0] == b[0] && (b + [y])[1..] == b[1..] + [y];
      if a == [] {
        SubsequenceExtend(a, b[1..], y);
      } else {
        assert (a + [y])[0] == a[0] && (a + [y])[1..] == a[1..] + [y];
        if a[0] == b[0] && IsSubsequence(a[1..], b[1..]) {
          SubsequenceExtend(a[1..], b[1..], y);
        } else {
          SubsequenceExtend(a, b[1..], y);
        }
      }
    }
  }

  /** A prefix of a sequence, or `slice(0, n)` of it, is a subsequence of it. */
  lemma {:induction false} TakeIsSubsequence<T>(s: seq<T>, n: nat)
    ensures IsSubsequence(Take(s, n), s)
    decreases |s|
  {
    var t := Take(s, n);
    if t != [] {
      assert t[0] == s[0];
      assert t[1..] == Take(s[1..], n - 1);
      TakeIsSubsequence(s[1..], n - 1);
    }
  }

  /** A subsequence of a subsequence of `c` is a subsequence of `c`. */
  lemma {:induction false} SubsequenceTrans<T>(a: seq<T>, b: seq<T>, c: seq<T>)
    requires IsSubsequence(a, b) && IsSubsequence(b, c)
    ensures IsSubsequence(a, c)
    decreases |c|
  {
    if a != [] {
      if b[0] == c[0] && IsSubsequence(b[1..], c[1..]) {
        if a[0] == b[0] && IsSubsequence(a[1..], b[1..]) {
          SubsequenceTrans(a[1..], b[1..], c[1..]);
        } else {
          SubsequenceTrans(a, b[1..], c[1..]);
        }
      } else {
        SubsequenceTrans(a, b, c[1..]);
      }
    }
  }

  lemma {:induction false} FindFirstSnoc<T, K>(key: T -> K, s: seq<T>, y: T, k: K)
    ensures FindFirst(key, s + [y], k) ==
      if FindFirst(key, s, k).Some? then FindFirst(key, s, k)
      else if key(y) == k then Some(y) else None
  {
    if s == [] {
      assert [y][1..] == [];
    } else {
      assert (s + [y])[0] == s[0] && (s + [y])[1..] == s[1..] + [y];
      FindFirstSnoc(key, s[1..], y, k);
    }
  }

  lemma {:induction false} FindFirstFindsKey<T, K>(key: T -> K, s: seq<T>, k: K)
    ensures FindFirst(key, s, k).Some? <==> k in Map(key, s)
    ensures FindFirst(key, s, k).Some? ==>
      FindFirst(key, s, k).value in s && key(FindFirst(key, s, k).value) == k
  {
    if s != [] {
      FindFirstFindsKey(key, s[1..], k);
      assert Map(key, s) == [key(s[0])] + Map(key, s[1..]);
    }
  }

  /** What FirstByKey keeps: no key twice, every key of the input, the input's order, and, for
      each key, exactly the input's first element with that key. */
  lemma {:induction false} FirstByKeySpec<T, K>(key: T -> K, s: seq<T>)
    ensures var r := FirstByKey(key, s);
      && |r| <= |s|
      && (forall i, j :: 0 <= i < j < |r| ==> key(r[i]) != key(r[j]))
      && (forall i :: 0 <= i < |s| ==> key(s[i]) in Map(key, r))
      && (forall x :: x in r ==> FindFirst(key, s, key(x)) == Some(x))
      && IsSubsequence(r, s)
    decreases |s|
  {
    var r := FirstByKey(key, s);
    if s != [] {
      var n := |s| - 1;
      var p, y := s[..n], s[n];
      assert s == p + [y];
      FirstByKeySpec(key, p);
      var q := FirstByKey(key, p);
      forall x | x in r
        ensures FindFirst(key, s, key(x)) == Some(x)
      {
        FindFirstSnoc(key, p, y, key(x));
        if x in q {
          FindFirstFindsKey(key, p, key(x));
        } else {
          assert x == y && r == q + [y];
          FindFirstFindsKey(key, p, key(y));
          FindFirstFindsKey(key, q, key(y));
        }
      }
      forall i | 0 <= i < |s|
        ensures key(s[i]) in Map(key, r)
      {
        if i < n {
          assert s[i] == p[i];
          var j :| 0 <= j < |q| && Map(key, q)[j] == key(p[i]);
          assert Map(key, r)[j] == key(p[i]);
        } else if r == q + [y] {
          assert Map(key, r)[|q|] == key(y);
        }
      }
      if r == q + [y] {
        forall i, j | 0 <= i < j < |r|
          ensures key(r[i]) != key(r[j])
        {
          if j == |q| {
            assert Map(key, q)[i] == key(r[i]);
          }
        }
      }
      SubsequenceExtend(q, p, y);
    }
  }

  lemma MapConcat<A, B>(f: A -> B, a: seq<A>, b: seq<A>)
    ensures Map(f, a + b) == Map(f, a) + Map(f, b)
  {
  }

  /** Mapping both sides of a permutation gives a permutation. */
  lemma {:induction false} MapPreservesPermutation<A, B>(f: A -> B, a: seq<A>, b: seq<A>)
    requires multiset(a) == multiset(b)
    ensures multiset(Map(f, a)) == multiset(Map(f, b))
    decreases |a|
  {
    if a == [] {
      assert |multiset(b)| == 0;
    } else {
      var x := a[0];
      assert x in multiset(b);
      var k :| 0 <= k < |b| && b[k] == x;
      var b' := b[..k] + b[k + 1..];
      assert b == b[..k] + [x] + b[k + 1..];
      assert a == [x] + a[1..];
      calc {
        multiset(b);
        multiset(b[..k] + [x] + b[k + 1..]);
        multiset(b[..k]) + multiset([x]) + multiset(b[k + 1..]);
        multiset(b') + multiset([x]);
      }
      assert multiset(a) == multiset([x]) + multiset(a[1..]);
      assert multiset(a[1..]) == multiset(a) - multiset([x]);
      assert multiset(b') == multiset(b) - multiset([x]);
      MapPreservesPermutation(f, a[1..], b');
      MapConcat(f, [x], a[1..]);
      MapConcat(f, b[..k] + [x], b[k + 1..]);
      MapConcat(f, b[..k], [x]);
      MapConcat(f, b[..k], b[k + 1..]);
    }
  }

  lemma {:induction false} FilterKeepsAll<T>(p: T -> bool, s: seq<T>)
    requires forall i :: 0 <= i < |s| ==> p(s[i])
    ensures Filter(p, s) == s
  {
    if s != [] {
      FilterKeepsAll(p, s[1..]);
    }
  }

  /** Filters by two predicates that agree everywhere keep the same elements. */
  lemma {:induction false} FilterSame<T>(p: T -> bool, q: T -> bool, s: seq<T>)
    requires forall t :: p(t) == q(t)
    ensures Filter(p, s) == Filter(q, s)
  {
    if s != [] {
      FilterSame(p, q, s[1..]);
    }
  }

  lemma {:induction false} FilterSnoc<T>(p: T -> bool, s: seq<T>, x: T)
    ensures Filter(p, s + [x]) == Filter(p, s) + (if p(x) then [x] else [])
  {
    if s == [] {
      assert Filter(p, [x]) == (if p(x) then [x] else []) + Filter(p, [x][1..]);
    } else {
      assert (s + [x])[1..] == s[1..] + [x];
      FilterSnoc(p, s[1..], x);
    }
  }

  /** A filter keeps every copy of an element it accepts and no copy of one it rejects. */
  lemma {:induction false} FilterCount<T>(p: T -> bool, s: seq<T>)
    ensures forall t :: multiset(Filter(p, s))[t] == if p(t) then multiset(s)[t] else 0
  {
    if s != [] {
      FilterCount(p, s[1..]);
      assert s == [s[0]] + s[1..];
      var head := if p(s[0]) then [s[0]] else [];
      assert multiset(Filter(p, s)) == multiset(head) + multiset(Filter(p, s[1..]));
      assert multiset(s) == multiset([s[0]]) + multiset(s[1..]);
    }
  }
}
