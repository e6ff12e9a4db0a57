/** Sequence vocabulary shared by the training-set model: Python's `zip`,
    list comprehensions that project or tag every element, `[x] * n`,
    `min` and `sum`, with the facts about permutations the batch needs. */
module Seqs {

  function Min(a: int, b: int): (m: int)
    ensures m <= a && m <= b && (m == a || m == b)
  {
    if a <= b then a else b
  }

  /** Python's `zip`: pairs positionally and stops at the shorter input. */
  function Zip<A, B>(a: seq<A>, b: seq<B>): (r: seq<(A, B)>)
    ensures |r| == Min(|a|, |b|)
    ensures forall i :: 0 <= i < |r| ==> r[i] == (a[i], b[i])
  {
    seq(Min(|a|, |b|), i requires 0 <= i < Min(|a|, |b|) => (a[i], b[i]))
  }

  /** `[f(x) for x in s]` */
  function Map<A, B>(f: A -> B, s: seq<A>): (r: seq<B>)
    ensures |r| == |s|
    ensures forall i :: 0 <= i < |s| ==> r[i] == f(s[i])
  {
    seq(|s|, i requires 0 <= i < |s| => f(s[i]))
  }

  function Fst<A, B>(p: (A, B)): A { p.0 }

  function Snd<A, B>(p: (A, B)): B { p.1 }

  /** Pairs its argument with the label `x`. */
  function Labeller<A, B>(x: B): A -> (A, B)
  {
    (t: A) => (t, x)
  }

  /** `[t for t, l in pairs]` */
  function Firsts<A, B>(pairs: seq<(A, B)>): seq<A>
  {
    Map(Fst, pairs)
  }

  /** `[l for t, l in pairs]` */
  function Seconds<A, B>(pairs: seq<(A, B)>): seq<B>
  {
    Map(Snd, pairs)
  }

  /** `[x] * n` */
  function Repeat<A>(x: A, n: nat): (r: seq<A>)
    ensures |r| == n
    ensures forall i :: 0 <= i < n ==> r[i] == x
  {
    seq(n, _ => x)
  }

  /** Every element paired with the same label `x`. */
  function Tag<A, B>(s: seq<A>, x: B): seq<(A, B)>
  {
    Map(Labeller(x), s)
  }

  function Sum(s: seq<int>): int
  {
    if s == [] then 0 else Sum(s[..|s| - 1]) + s[|s| - 1]
  }

  predicate AllBits(s: seq<int>)
  {
    forall i :: 0 <= i < |s| ==> s[i] == 0 || s[i] == 1
  }

  /** Zipping the two halves of an unzipped sequence restores it. */
  lemma ZipUnzip<A, B>(s: seq<(A, B)>)
    ensures Zip(Firsts(s), Seconds(s)) == s
  {
  }

  lemma TagPrefix<A, B>(s: seq<A>, x: B, n: nat)
    requires n <= |s|
    ensures Tag(s[..n], x) == Tag(s, x)[..n]
  {
  }

  /** Labelling `s` by zipping it with `[x] * |s|` is tagging it with `x`. */
  lemma ZipRepeatIsTag<A, B>(s: seq<A>, x: B)
    ensures Zip(s, Repeat(x, |s|)) == Tag(s, x)
  {
  }

  lemma ZipAppend<A, B>(a: seq<A>, a': seq<A>, b: seq<B>, b': seq<B>)
    requires |a| == |b|
    ensures Zip(a + a', b + b') == Zip(a, b) + Zip(a', b')
  {
  }

  lemma MapAppend<A, B>(f: A -> B, a: seq<A>, b: seq<A>)
    ensures Map(f, a + b) == Map(f, a) + Map(f, b)
  {
  }

  /** Every member of a tagged sequence carries the tag and an element of the source. */
  lemma InTag<A, B>(s: seq<A>, x: B, p: (A, B))
    requires p in Tag(s, x)
    ensures p.1 == x && p.0 in s
  {
  }

  /** Applying a function element-wise maps permutations to permutations. */
  lemma {:induction false} MapPermutation<A, B>(f: A -> B, a: seq<A>, b: seq<A>)
    requires multiset(a) == multiset(b)
    ensures multiset(Map(f, a)) == multiset(Map(f, b))
    decreases |a|
  {
    if a == [] {
      assert |multiset(b)| == 0;
      assert b == [];
    } else {
      var x := a[0];
      assert x in multiset(b);
      var k :| 0 <= k < |b| && b[k] == x;
      var rest := b[..k] + b[k + 1..];
      assert b == b[..k] + [x] + b[k + 1..];
      assert multiset(rest) == multiset(b) - multiset{x};
      assert a == [x] + a[1..];
      assert multiset(a[1..]) == multiset(a) - multiset{x};
      MapPermutation(f, a[1..], rest);
      MapAppend(f, [x], a[1..]);
      MapAppend(f, b[..k] + [x], b[k + 1..]);
      MapAppend(f, b[..k], [x]);
      MapAppend(f, b[..k], b[k + 1..]);
    }
  }

  /** `[x] * n` holds `x` exactly `n` times and nothing else. */
  lemma {:induction false} RepeatCount<A>(x: A, n: nat, y: A)
    ensures multiset(Repeat(x, n))[y] == if y == x then n else 0
  {
    if n > 0 {
      RepeatCount(x, n - 1, y);
      assert Repeat(x, n) == Repeat(x, n - 1) + [x];
    }
  }

  /** The sum of a 0/1 sequence is its number of ones. */
  lemma {:induction false} SumOfBits(s: seq<int>)
    requires AllBits(s)
    ensures Sum(s) == multiset(s)[1]
  {
    if s != [] {
      var init := s[..|s| - 1];
      assert AllBits(init);
      SumOfBits(init);
      assert s == init + [s[|s| - 1]];
    }
  }

  /** Tagging is injective: `(t, x)` occurs in `Tag(s, x)` as often as `t` occurs in `s`. */
  lemma {:induction false} TagCount<A, B>(s: seq<A>, x: B, t: A)
    ensures multiset(Tag(s, x))[(t, x)] == multiset(s)[t]
  {
    if s != [] {
      var init := s[..|s| - 1];
      TagCount(init, x, t);
      assert s == init + [s[|s| - 1]];
      MapAppend(Labeller(x), init, [s[|s| - 1]]);
    }
  }

  /** A prefix is a sub-multiset of the whole. */
  lemma PrefixSubMultiset<A>(s: seq<A>, n: nat)
    requires n <= |s|
    ensures multiset(s[..n]) <= multiset(s)
  {
    assert s == s[..n] + s[n..];
  }
}
