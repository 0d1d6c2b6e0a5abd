/** The contract of `Array.prototype.sort(compareFn)` (stable since ECMA-262, 2019 edition)
    and of Python's `sorted(..., key=..., reverse=...)`: a stable sort. A stable sort's
    output is determined by its input and comparator, so a stable insertion sort written as
    a function serves as the specification of both library calls. */
module StableSort {
  import opened Seqs

  /** `cmp(a, b) <= 0` reads "a may stay before b". */
  ghost predicate Total<T(!new)>(cmp: (T, T) -> int) {
    forall a, b :: cmp(a, b) <= 0 || cmp(b, a) <= 0
  }

  ghost predicate Transitive<T(!new)>(cmp: (T, T) -> int) {
    forall a, b, c :: cmp(a, b) <= 0 && cmp(b, c) <= 0 ==> cmp(a, c) <= 0
  }

  /** A consistent comparator in the sense of ECMA-262: a total preorder. */
  ghost predicate Consistent<T(!new)>(cmp: (T, T) -> int) {
    Total(cmp) && Transitive(cmp)
  }

  ghost predicate Sorted<T>(s: seq<T>, cmp: (T, T) -> int) {
    forall i, j :: 0 <= i < j < |s| ==> cmp(s[i], s[j]) <= 0
  }

  /** `x` goes before the first element it may precede; elements it must follow are kept
      in front of it. */
  function Insert<T>(x: T, t: seq<T>, cmp: (T, T) -> int): (r: seq<T>)
    ensures multiset(r) == multiset(t) + multiset{x}
    ensures |r| == |t| + 1
  {
    if t == [] || cmp(x, t[0]) <= 0 then [x] + t
    else
      assert t == [t[0]] + t[1..];
      [t[0]] + Insert(x, t[1..], cmp)
  }

  function SortBy<T>(s: seq<T>, cmp: (T, T) -> int): (r: seq<T>)
    ensures multiset(r) == multiset(s)
    ensures |r| == |s|
  {
    if s == [] then []
    else
      assert s == [s[0]] + s[1..];
      Insert(s[0], SortBy(s[1..], cmp), cmp)
  }

  /** Every element of the insertion's result is `x` or an element of `t`. */
  lemma InsertMembers<T>(x: T, t: seq<T>, cmp: (T, T) -> int)
    ensures forall y :: y in Insert(x, t, cmp) ==> y == x || y in t
  {
    forall y | y in Insert(x, t, cmp) ensures y == x || y in t {
      assert y in multiset(Insert(x, t, cmp));
    }
  }

  lemma {:induction false} InsertSorted<T(!new)>(x: T, t: seq<T>, cmp: (T, T) -> int)
    requires Consistent(cmp) && Sorted(t, cmp)
    ensures Sorted(Insert(x, t, cmp), cmp)
  {
    if t != [] && cmp(x, t[0]) > 0 {
      var t1 := t[1..];
      assert Sorted(t1, cmp) by {
        forall i, j | 0 <= i < j < |t1| ensures cmp(t1[i], t1[j]) <= 0 {
          assert t1[i] == t[i + 1] && t1[j] == t[j + 1];
        }
      }
      InsertSorted(x, t1, cmp);
      InsertMembers(x, t1, cmp);
      var r1 := Insert(x, t1, cmp);
      var r := Insert(x, t, cmp);
      assert r == [t[0]] + r1;
      assert cmp(t[0], x) <= 0 by {
        assert cmp(x, t[0]) <= 0 || cmp(t[0], x) <= 0;
      }
      forall y | y in r1 ensures cmp(t[0], y) <= 0 {
        if y != x {
          var k :| 0 <= k < |t1| && t1[k] == y;
          assert t[k + 1] == y;
        }
      }
      forall i, j | 0 <= i < j < |r| ensures cmp(r[i], r[j]) <= 0 {
        assert r[j] == r1[j - 1];
        if i > 0 {
          assert r[i] == r1[i - 1];
        } else {
          assert r1[j - 1] in r1;
        }
      }
    }
  }

  /** The output of the sort is ordered by the comparator. */
  lemma {:induction false} SortBySorted<T(!new)>(s: seq<T>, cmp: (T, T) -> int)
    requires Consistent(cmp)
    ensures Sorted(SortBy(s, cmp), cmp)
  {
    if s != [] {
      SortBySorted(s[1..], cmp);
      InsertSorted(s[0], SortBy(s[1..], cmp), cmp);
    }
  }

  /** `a` and `b` compare equal both ways. */
  predicate Tied<T>(cmp: (T, T) -> int, a: T, b: T) {
    cmp(a, b) <= 0 && cmp(b, a) <= 0
  }

  function TiedWith<T>(cmp: (T, T) -> int, z: T): T -> bool {
    y => Tied(cmp, y, z)
  }

  lemma {:induction false} InsertStable<T(!new)>(x: T, t: seq<T>, cmp: (T, T) -> int, z: T)
    requires Transitive(cmp)
    ensures Filter(Insert(x, t, cmp), TiedWith(cmp, z))
         == Filter([x], TiedWith(cmp, z)) + Filter(t, TiedWith(cmp, z))
  {
    var p := TiedWith(cmp, z);
    if t == [] || cmp(x, t[0]) <= 0 {
      FilterAppend([x], t, p);
    } else {
      var t0, t1 := t[0], t[1..];
      assert t == [t0] + t1;
      InsertStable(x, t1, cmp, z);
      FilterAppend([t0], Insert(x, t1, cmp), p);
      FilterAppend([t0], t1, p);
      FilterSingleton(x, p);
      FilterSingleton(t0, p);
      if p(x) && p(t0) {
        assert false;
      }
    }
  }

  /** Stability: the elements tied with any `z` come out in their input order. */
  lemma {:induction false} SortByStable<T(!new)>(s: seq<T>, cmp: (T, T) -> int, z: T)
    requires Transitive(cmp)
    ensures Filter(SortBy(s, cmp), TiedWith(cmp, z)) == Filter(s, TiedWith(cmp, z))
  {
    if s != [] {
      SortByStable(s[1..], cmp, z);
      InsertStable(s[0], SortBy(s[1..], cmp), cmp, z);
      assert s == [s[0]] + s[1..];
      FilterAppend([s[0]], s[1..], TiedWith(cmp, z));
    }
  }

  /** The comparator `(a, b) => key(a) - key(b)`. */
  function KeyOrder<T>(key: T -> int): (T, T) -> int {
    (a, b) => key(a) - key(b)
  }

  /** The elements whose key is `lo`, then those whose key is `lo + 1`, ..., up to `hi - 1`. */
  function Blocks<T>(s: seq<T>, key: T -> int, lo: int, hi: int): seq<T>
    decreases hi - lo
  {
    if lo >= hi then [] else Filter(s, KeyIs(key, lo)) + Blocks(s, key, lo + 1, hi)
  }

  function KeyIs<T>(key: T -> int, v: int): T -> bool {
    y => key(y) == v
  }

  lemma {:induction false} InsertSkip<T>(x: T, a: seq<T>, r: seq<T>, cmp: (T, T) -> int)
    requires forall i :: 0 <= i < |a| ==> cmp(x, a[i]) > 0
    ensures Insert(x, a + r, cmp) == a + Insert(x, r, cmp)
  {
    if a == [] {
      assert a + r == r;
    } else {
      var a0, a1 := a[0], a[1..];
      var ar := a + r;
      assert ar[0] == a0 && ar[1..] == a1 + r;
      assert cmp(x, a0) > 0;
      forall i | 0 <= i < |a1| ensures cmp(x, a1[i]) > 0 {
        assert a1[i] == a[i + 1];
      }
      InsertSkip(x, a1, r, cmp);
      calc {
        Insert(x, ar, cmp);
        [a0] + Insert(x, a1 + r, cmp);
        [a0] + (a1 + Insert(x, r, cmp));
        { assert a == [a0] + a1; }
        a + Insert(x, r, cmp);
      }
    }
  }

  /** Blocks that do not include `x`'s key are unaffected by adding `x`. */
  lemma {:induction false} BlocksCons<T>(x: T, s: seq<T>, key: T -> int, lo: int, hi: int)
    requires key(x) < lo
    ensures Blocks([x] + s, key, lo, hi) == Blocks(s, key, lo, hi)
    decreases hi - lo
  {
    if lo < hi {
      FilterAppend([x], s, KeyIs(key, lo));
      FilterSingleton(x, KeyIs(key, lo));
      assert Filter([x] + s, KeyIs(key, lo)) == Filter(s, KeyIs(key, lo));
      BlocksCons(x, s, key, lo + 1, hi);
    }
  }

  lemma {:induction false} BlocksHead<T>(s: seq<T>, key: T -> int, lo: int, hi: int)
    requires Blocks(s, key, lo, hi) != []
    ensures lo <= key(Blocks(s, key, lo, hi)[0])
    decreases hi - lo
  {
    var f := Filter(s, KeyIs(key, lo));
    if f == [] {
      BlocksHead(s, key, lo + 1, hi);
    } else {
      FilterMembers(s, KeyIs(key, lo));
    }
  }

  /** Inserting `x` into the blocks puts it at the front of its own block. */
  lemma {:induction false} InsertBlocks<T>(x: T, s: seq<T>, key: T -> int, lo: int, hi: int)
    requires lo <= key(x) < hi
    ensures Insert(x, Blocks(s, key, lo, hi), KeyOrder(key)) == Blocks([x] + s, key, lo, hi)
    decreases hi - lo
  {
    if key(x) == lo {
      InsertBlocksHere(x, s, key, lo, hi);
    } else {
      InsertBlocks(x, s, key, lo + 1, hi);
      InsertBlocksLater(x, s, key, lo, hi);
    }
  }

  lemma InsertBlocksHere<T>(x: T, s: seq<T>, key: T -> int, lo: int, hi: int)
    requires key(x) == lo < hi
    ensures Insert(x, Blocks(s, key, lo, hi), KeyOrder(key)) == Blocks([x] + s, key, lo, hi)
  {
    var p := KeyIs(key, lo);
    var f := Filter(s, p);
    var rest := Blocks(s, key, lo + 1, hi);
    FilterAppend([x], s, p);
    FilterSingleton(x, p);
    FilterMembers(s, p);
    BlocksCons(x, s, key, lo + 1, hi);
    assert Blocks([x] + s, key, lo, hi) == [x] + f + rest;
    if rest != [] {
      BlocksHead(s, key, lo + 1, hi);
    }
    InsertFront(x, f, rest, key, lo);
  }

  lemma InsertBlocksLater<T>(x: T, s: seq<T>, key: T -> int, lo: int, hi: int)
    requires lo < key(x) < hi
    requires Insert(x, Blocks(s, key, lo + 1, hi), KeyOrder(key)) == Blocks([x] + s, key, lo + 1, hi)
    ensures Insert(x, Blocks(s, key, lo, hi), KeyOrder(key)) == Blocks([x] + s, key, lo, hi)
  {
    var p := KeyIs(key, lo);
    var f := Filter(s, p);
    var rest := Blocks(s, key, lo + 1, hi);
    FilterAppend([x], s, p);
    FilterSingleton(x, p);
    assert !p(x);
    assert Filter([x] + s, p) == f;
    assert Blocks(s, key, lo, hi) == f + rest;
    assert Blocks([x] + s, key, lo, hi) == f + Blocks([x] + s, key, lo + 1, hi);
    FilterMembers(s, p);
    forall i | 0 <= i < |f| ensures KeyOrder(key)(x, f[i]) > 0 {
      assert p(f[i]);
    }
    InsertSkip(x, f, rest, KeyOrder(key));
  }

  lemma InsertFront<T>(x: T, f: seq<T>, rest: seq<T>, key: T -> int, lo: int)
    requires key(x) == lo
    requires forall i :: 0 <= i < |f| ==> key(f[i]) == lo
    requires rest != [] ==> lo < key(rest[0])
    ensures Insert(x, f + rest, KeyOrder(key)) == [x] + f + rest
  {
    if f != [] {
      assert (f + rest)[0] == f[0];
    } else {
      assert f + rest == rest;
    }
  }

  /** Sorting by a key with values in `[0, hi)` lists the key-0 elements, then the key-1
      elements, and so on, each group in input order. */
  lemma {:induction false} SortByKeyBlocks<T>(s: seq<T>, key: T -> int, hi: int)
    requires forall i :: 0 <= i < |s| ==> 0 <= key(s[i]) < hi
    ensures SortBy(s, KeyOrder(key)) == Blocks(s, key, 0, hi)
  {
    if s == [] {
      BlocksEmpty(key, 0, hi);
    } else {
      SortByKeyBlocks(s[1..], key, hi);
      InsertBlocks(s[0], s[1..], key, 0, hi);
      assert s == [s[0]] + s[1..];
    }
  }

  lemma {:induction false} BlocksEmpty<T>(key: T -> int, lo: int, hi: int)
    ensures Blocks([], key, lo, hi) == []
    decreases hi - lo
  {
    if lo < hi {
      BlocksEmpty(key, lo + 1, hi);
    }
  }
}
