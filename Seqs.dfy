/**
 * Sequence operations the components build from JavaScript array built-ins:
 * `filter` with `!==`, and `[...new Set(xs)]`.
 */
module Seqs {

  /** No element occurs twice. */
  predicate NoDups<T(==,!new)>(s: seq<T>) {
    forall i, j :: 0 <= i < j < |s| ==> s[i] != s[j]
  }

  /** `s.filter(y => y !== x)`: every occurrence of `x` dropped, the rest kept in order. */
  function Without<T(==,!new)>(s: seq<T>, x: T): (r: seq<T>)
    ensures x !in r
    ensures forall y :: y != x ==> (y in r <==> y in s)
    ensures forall y :: y != x ==> multiset(r)[y] == multiset(s)[y]
    ensures |r| == |s| - multiset(s)[x]
  {
    if s == [] then []
    else
      assert s == [s[0]] + s[1..];
      if s[0] == x then Without(s[1..], x) else [s[0]] + Without(s[1..], x)
  }

  /** Filtering distributes over concatenation, so the survivors keep their relative order. */
  lemma {:induction false} WithoutAppend<T(!new)>(a: seq<T>, b: seq<T>, x: T)
    ensures Without(a + b, x) == Without(a, x) + Without(b, x)
  {
    if a == [] {
      assert a + b == b;
    } else {
      var ab := a + b;
      assert ab[0] == a[0] && ab[1..] == a[1..] + b;
      WithoutAppend(a[1..], b, x);
      if a[0] != x {
        AppendAssoc([a[0]], Without(a[1..], x), Without(b, x));
      }
    }
  }

  /** Filtering out an absent element changes nothing. */
  lemma {:induction false} WithoutAbsent<T(!new)>(s: seq<T>, x: T)
    requires x !in s
    ensures Without(s, x) == s
  {
    if s != [] {
      WithoutAbsent(s[1..], x);
    }
  }

  /** Filtering keeps a duplicate-free sequence duplicate-free. */
  lemma {:induction false} WithoutNoDups<T(!new)>(s: seq<T>, x: T)
    requires NoDups(s)
    ensures NoDups(Without(s, x))
  {
    if s != [] {
      assert NoDups(s[1..]) by {
        forall i, j | 0 <= i < j < |s[1..]| ensures s[1..][i] != s[1..][j] {
          assert s[1..][i] == s[i + 1] && s[1..][j] == s[j + 1];
        }
      }
      WithoutNoDups(s[1..], x);
      var w := Without(s[1..], x);
      if s[0] != x {
        assert s[0] !in s[1..];
        assert multiset(w)[s[0]] == multiset(s[1..])[s[0]] == 0;
        assert s[0] !in w;
        forall i, j | 0 <= i < j < |[s[0]] + w| ensures ([s[0]] + w)[i] != ([s[0]] + w)[j] {
          if i == 0 {
            assert ([s[0]] + w)[j] == w[j - 1];
          } else {
            assert ([s[0]] + w)[i] == w[i - 1] && ([s[0]] + w)[j] == w[j - 1];
          }
        }
      }
    }
  }

  /** The elements of `b` that are not in `a`, in the order of `b`. */
  function Unseen<T(==,!new)>(b: seq<T>, a: seq<T>): (r: seq<T>)
    ensures forall y :: y in r <==> y in b && y !in a
  {
    if b == [] then []
    else
      assert b == [b[0]] + b[1..];
      (if b[0] in a then [] else [b[0]]) + Unseen(b[1..], a)
  }

  /** Nothing of `b` is new when `a` already holds all of it. */
  lemma UnseenCovered<T(!new)>(b: seq<T>, a: seq<T>)
    requires forall y :: y in b ==> y in a
    ensures Unseen(b, a) == []
  {
  }

  /** Adding one element at the end of `b` adds it at the end of `Unseen(b, a)` unless `a` has it. */
  lemma {:induction false} UnseenSnoc<T(!new)>(b: seq<T>, y: T, a: seq<T>)
    ensures Unseen(b + [y], a) == Unseen(b, a) + (if y in a then [] else [y])
  {
    if b == [] {
      assert [] + [y] == [y];
    } else {
      assert (b + [y])[1..] == b[1..] + [y];
      UnseenSnoc(b[1..], y, a);
    }
  }

  /**
   * `[...new Set(s)]`: the distinct elements of `s` in order of first occurrence.
   * A JavaScript `Set` adds each element of `s` in turn unless already present,
   * which is what the recursion on the last element spells out.
   */
  function Dedup<T(==,!new)>(s: seq<T>): (r: seq<T>)
    ensures NoDups(r)
    ensures forall y :: y in r <==> y in s
  {
    if s == [] then []
    else
      var d := Dedup(s[..|s| - 1]);
      assert s == s[..|s| - 1] + [s[|s| - 1]];
      if s[|s| - 1] in d then d else d + [s[|s| - 1]]
  }

  /** A sequence without duplicates passes through `Dedup` unchanged. */
  lemma {:induction false} DedupOfNoDups<T(!new)>(s: seq<T>)
    requires NoDups(s)
    ensures Dedup(s) == s
  {
    if s != [] {
      var p := s[..|s| - 1];
      assert NoDups(p);
      DedupOfNoDups(p);
      assert s[|s| - 1] !in p;
      assert p + [s[|s| - 1]] == s;
    }
  }

  /**
   * Deduplicating `a + b` with `a` already duplicate-free keeps `a` as it is, in front,
   * followed by the new elements of `b` in the order they first occur in `b`.
   */
  lemma {:induction false} DedupAppend<T(!new)>(a: seq<T>, b: seq<T>)
    requires NoDups(a)
    ensures Dedup(a + b) == a + Dedup(Unseen(b, a))
  {
    if b == [] {
      assert a + b == a;
      DedupOfNoDups(a);
    } else {
      var b', y := b[..|b| - 1], b[|b| - 1];
      assert b == b' + [y];
      var ab := a + b;
      assert ab[..|ab| - 1] == a + b' && ab[|ab| - 1] == y;
      var d := Dedup(a + b');
      assert Dedup(ab) == if y in d then d else d + [y];
      DedupAppend(a, b');
      UnseenSnoc(b', y, a);
      var u := Unseen(b', a);
      var e := Dedup(u);
      assert d == a + e;
      if y in a {
        assert Unseen(b, a) == u;
      } else {
        assert Unseen(b, a) == u + [y];
        var uy := u + [y];
        assert uy[..|uy| - 1] == u && uy[|uy| - 1] == y;
        assert Dedup(uy) == if y in e then e else e + [y];
        assert y in d <==> y in e;
        AppendAssoc(a, e, [y]);
      }
    }
  }

  lemma AppendAssoc<T>(a: seq<T>, b: seq<T>, c: seq<T>)
    ensures a + (b + c) == (a + b) + c
  {
  }

  /** Taking one element out of the middle takes exactly it out of the multiset. */
  lemma MultisetSplice<T>(s: seq<T>, i: int)
    requires 0 <= i < |s|
    ensures multiset(s[..i] + s[i + 1..]) + multiset{s[i]} == multiset(s)
  {
    assert s == s[..i] + [s[i]] + s[i + 1..];
  }

  /** Deduplication is idempotent. */
  lemma DedupIdempotent<T(!new)>(s: seq<T>)
    ensures Dedup(Dedup(s)) == Dedup(s)
  {
    DedupOfNoDups(Dedup(s));
  }
}
