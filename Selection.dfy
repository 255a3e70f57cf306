/**
 * The checkbox toggle shared by the frame picker (UploadVideo.js) and the
 * class picker (TrainModel.js):
 * `prev.includes(x) ? prev.filter(y => y !== x) : [...prev, x]`.
 */
module Selection {
  import opened Seqs

  /** Flip the membership of `x` in the ordered selection `s`. */
  function Toggle<T(==,!new)>(s: seq<T>, x: T): (r: seq<T>)
    ensures x in r <==> x !in s
    ensures forall y :: y != x ==> (y in r <==> y in s)
  {
    if x in s then Without(s, x) else s + [x]
  }

  /** Selecting an absent item puts it last and leaves the others as they were. */
  lemma ToggleAbsent<T(!new)>(s: seq<T>, x: T)
    requires x !in s
    ensures Toggle(s, x) == s + [x]
    ensures Toggle(s, x)[..|s|] == s
  {
    assert (s + [x])[..|s|] == s;
  }

  /**
   * Deselecting a present item removes all of its occurrences, keeps the count of
   * every other item, and keeps the items before and after it in their order.
   */
  lemma TogglePresent<T(!new)>(a: seq<T>, x: T, b: seq<T>)
    ensures Toggle(a + [x] + b, x) == Without(a, x) + Without(b, x)
    ensures forall y :: y != x ==> multiset(Toggle(a + [x] + b, x))[y] == multiset(a + [x] + b)[y]
  {
    var s := a + [x] + b;
    assert x in s by { assert s[|a|] == x; }
    WithoutAppend(a + [x], b, x);
    WithoutAppend(a, [x], x);
    assert Without([x], x) == [] by { assert [x][1..] == []; }
    assert Without(a, x) + [] == Without(a, x);
  }

  /** Toggling an absent item twice restores the selection exactly. */
  lemma {:induction false} ToggleTwiceAbsent<T(!new)>(s: seq<T>, x: T)
    requires x !in s
    ensures Toggle(Toggle(s, x), x) == s
  {
    assert x in s + [x] by { assert (s + [x])[|s|] == x; }
    WithoutAppend(s, [x], x);
    WithoutAbsent(s, x);
    assert Without([x], x) == [] by { assert [x][1..] == []; }
    assert s + [] == s;
  }

  /**
   * Toggling a present item twice is not the identity: the item comes back at the end,
   * and any duplicates of it are gone.
   */
  lemma ToggleTwicePresent<T(!new)>(s: seq<T>, x: T)
    requires x in s
    ensures Toggle(Toggle(s, x), x) == Without(s, x) + [x]
  {
  }

  /** A duplicate-free selection stays duplicate-free under toggling. */
  lemma ToggleKeepsNoDups<T(!new)>(s: seq<T>, x: T)
    requires NoDups(s)
    ensures NoDups(Toggle(s, x))
  {
    if x in s {
      WithoutNoDups(s, x);
    } else {
      var r := s + [x];
      forall i, j | 0 <= i < j < |r| ensures r[i] != r[j] {
        if j == |s| {
          assert r[i] == s[i];
        } else {
          assert r[i] == s[i] && r[j] == s[j];
        }
      }
    }
  }
}
