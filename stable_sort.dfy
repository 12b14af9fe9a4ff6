/**
 * Python's `list.sort(key=...)`: an in-place, stable sort that compares the
 * keys with `<`. The reference definition is insertion sort on sequences
 * (StableSorted); StableSortedCharacterized shows it is the only sequence that
 * is ordered by key and keeps every group of equal keys in input order, so any
 * stable sort (CPython's Timsort included) yields exactly this result.
 */
module StableSort {
  import opened Keys

  /** Every element's key is at most the key of every later element. */
  ghost predicate SortedBy<T>(s: seq<T>, key: T -> SortKey)
  {
    forall i, j :: 0 <= i < j < |s| ==> KeyLe(key(s[i]), key(s[j]))
  }

  /** The elements of `s` whose key is `k`, in their order in `s` (a group of full ties). */
  ghost function Ties<T>(s: seq<T>, key: T -> SortKey, k: SortKey): (r: seq<T>)
    ensures |r| <= |s|
    ensures forall i :: 0 <= i < |r| ==> key(r[i]) == k && r[i] in s
  {
    if s == [] then []
    else Ties(s[..|s| - 1], key, k) + (if key(s[|s| - 1]) == k then [s[|s| - 1]] else [])
  }

  /** `r` and `s` have the same group of full ties for every key. */
  ghost predicate SameTies<T>(r: seq<T>, s: seq<T>, key: T -> SortKey)
  {
    forall k :: Ties(r, key, k) == Ties(s, key, k)
  }

  /** Puts `x` after the trailing run of elements of `r` whose key is greater than `x`'s. */
  ghost function Insert<T>(r: seq<T>, x: T, key: T -> SortKey): (q: seq<T>)
    ensures |q| == |r| + 1
  {
    if r == [] || KeyLe(key(r[|r| - 1]), key(x)) then r + [x]
    else Insert(r[..|r| - 1], x, key) + [r[|r| - 1]]
  }

  /** Insertion sort of `s` by `key`, inserting elements in input order. */
  ghost function StableSorted<T>(s: seq<T>, key: T -> SortKey): (r: seq<T>)
    ensures |r| == |s|
  {
    if s == [] then []
    else Insert(StableSorted(s[..|s| - 1], key), s[|s| - 1], key)
  }

  /** Inserting adds `x` and loses nothing. */
  lemma {:induction false} InsertPermutes<T>(r: seq<T>, x: T, key: T -> SortKey)
    ensures multiset(Insert(r, x, key)) == multiset(r) + multiset{x}
  {
    if r != [] && !KeyLe(key(r[|r| - 1]), key(x)) {
      InsertPermutes(r[..|r| - 1], x, key);
      assert r == r[..|r| - 1] + [r[|r| - 1]];
    }
  }

  /** The stable sort is a permutation of its input. */
  lemma {:induction false} StableSortedPermutes<T>(s: seq<T>, key: T -> SortKey)
    ensures multiset(StableSorted(s, key)) == multiset(s)
  {
    if s != [] {
      StableSortedPermutes(s[..|s| - 1], key);
      InsertPermutes(StableSorted(s[..|s| - 1], key), s[|s| - 1], key);
      assert s == s[..|s| - 1] + [s[|s| - 1]];
    }
  }

  lemma {:induction false} TiesAppend<T>(s: seq<T>, t: seq<T>, key: T -> SortKey, k: SortKey)
    ensures Ties(s + t, key, k) == Ties(s, key, k) + Ties(t, key, k)
  {
    if t != [] {
      var t' := t[..|t| - 1];
      assert (s + t)[..|s + t| - 1] == s + t';
      TiesAppend(s, t', key, k);
    } else {
      assert s + t == s;
    }
  }

  lemma {:induction false} InsertKeepsSorted<T>(r: seq<T>, x: T, key: T -> SortKey)
    requires SortedBy(r, key)
    ensures SortedBy(Insert(r, x, key), key)
  {
    if r == [] || KeyLe(key(r[|r| - 1]), key(x)) {
      var q := r + [x];
      forall i, j | 0 <= i < j < |q|
        ensures KeyLe(key(q[i]), key(q[j]))
      {
        if j == |r| && i < |r| - 1 {
          KeyLeTransitive(key(r[i]), key(r[|r| - 1]), key(x));
        }
      }
    } else {
      var r', last := r[..|r| - 1], r[|r| - 1];
      InsertKeepsSorted(r', x, key);
      KeyLeTotal(key(last), key(x));
      var p := Insert(r', x, key);
      var q := p + [last];
      forall i, j | 0 <= i < j < |q|
        ensures KeyLe(key(q[i]), key(q[j]))
      {
        if j == |p| {
          InsertPermutes(r', x, key);
          assert q[i] in multiset(p);
          if q[i] != x {
            assert q[i] in r';
            var m :| 0 <= m < |r'| && r'[m] == q[i];
          }
        }
      }
    }
  }

  /** Removing the last element removes it from its group of ties and from no other. */
  lemma TiesOfLast<T>(s: seq<T>, x: T, key: T -> SortKey, k: SortKey)
    ensures Ties(s + [x], key, k) == Ties(s, key, k) + (if key(x) == k then [x] else [])
  {
    assert (s + [x])[..|s|] == s;
  }

  lemma {:induction false} InsertTies<T>(r: seq<T>, x: T, key: T -> SortKey, k: SortKey)
    ensures Ties(Insert(r, x, key), key, k) == Ties(r, key, k) + (if key(x) == k then [x] else [])
  {
    if r == [] || KeyLe(key(r[|r| - 1]), key(x)) {
      TiesOfLast(r, x, key, k);
    } else {
      var r', last := r[..|r| - 1], r[|r| - 1];
      assert r == r' + [last];
      KeyLeReflexive(key(x));
      assert key(last) != key(x);
      var p := Insert(r', x, key);
      assert Insert(r, x, key) == p + [last];
      InsertTies(r', x, key, k);
      TiesOfLast(p, last, key, k);
      TiesOfLast(r', last, key, k);
      if key(x) == k {
        assert Ties(r, key, k) == Ties(r', key, k);
      } else {
        assert Ties(p, key, k) == Ties(r', key, k);
      }
    }
  }

  lemma {:induction false} StableSortedIsSorted<T>(s: seq<T>, key: T -> SortKey)
    ensures SortedBy(StableSorted(s, key), key)
  {
    if s != [] {
      StableSortedIsSorted(s[..|s| - 1], key);
      InsertKeepsSorted(StableSorted(s[..|s| - 1], key), s[|s| - 1], key);
    }
  }

  /** Stability: every group of equal keys comes out in the order it went in. */
  lemma {:induction false} StableSortedKeepsTies<T>(s: seq<T>, key: T -> SortKey, k: SortKey)
    ensures Ties(StableSorted(s, key), key, k) == Ties(s, key, k)
  {
    if s != [] {
      StableSortedKeepsTies(s[..|s| - 1], key, k);
      InsertTies(StableSorted(s[..|s| - 1], key), s[|s| - 1], key, k);
    }
  }

  /** Two key-ordered non-empty sequences with the same groups of full ties end alike. */
  lemma SameLastElement<T>(r: seq<T>, q: seq<T>, key: T -> SortKey)
    requires SortedBy(r, key) && SortedBy(q, key)
    requires SameTies(r, q, key)
    requires r != [] && q != []
    ensures r[|r| - 1] == q[|q| - 1]
  {
    var r', a := r[..|r| - 1], r[|r| - 1];
    var q', b := q[..|q| - 1], q[|q| - 1];
    assert r == r' + [a] && q == q' + [b];
    TiesOfLast(r', a, key, key(a));
    TiesOfLast(q', b, key, key(b));
    assert Ties(q, key, key(a)) == Ties(r, key, key(a)) != [];
    assert Ties(r, key, key(b)) == Ties(q, key, key(b)) != [];
    KeyBelowLast(q, key, key(a));
    KeyBelowLast(r, key, key(b));
    KeyLeAntisymmetric(key(a), key(b));
    var group := Ties(r, key, key(a));
    assert group == Ties(r', key, key(a)) + [a];
    assert group == Ties(q', key, key(a)) + [b];
    assert a == group[|group| - 1] == b;
  }

  lemma AppendCancel<T>(x: seq<T>, y: seq<T>, tail: seq<T>)
    requires x + tail == y + tail
    ensures x == y
  {
    assert x == (x + tail)[..|x|] && y == (y + tail)[..|y|];
  }

  /** Dropping one common last element keeps the groups of full ties equal. */
  lemma DropLastKeepsSameTies<T>(r: seq<T>, q: seq<T>, key: T -> SortKey)
    requires SameTies(r, q, key)
    requires r != [] && q != [] && r[|r| - 1] == q[|q| - 1]
    ensures SameTies(r[..|r| - 1], q[..|q| - 1], key)
  {
    var r', q', a := r[..|r| - 1], q[..|q| - 1], r[|r| - 1];
    assert r == r' + [a] && q == q' + [a];
    forall k
      ensures Ties(r', key, k) == Ties(q', key, k)
    {
      var tail := if key(a) == k then [a] else [];
      TiesOfLast(r', a, key, k);
      TiesOfLast(q', a, key, k);
      assert Ties(r', key, k) + tail == Ties(r, key, k) == Ties(q, key, k) == Ties(q', key, k) + tail;
      AppendCancel(Ties(r', key, k), Ties(q', key, k), tail);
    }
  }

  /** A prefix of a key-ordered sequence is key-ordered. */
  lemma SortedPrefix<T>(r: seq<T>, key: T -> SortKey, n: nat)
    requires SortedBy(r, key) && n <= |r|
    ensures SortedBy(r[..n], key)
  {
    forall i, j | 0 <= i < j < n
      ensures KeyLe(key(r[..n][i]), key(r[..n][j]))
    {
      assert r[..n][i] == r[i] && r[..n][j] == r[j];
    }
  }

  /** Two key-ordered sequences with the same groups of full ties are equal. */
  lemma {:induction false} SortedWithSameTiesAreEqual<T>(r: seq<T>, q: seq<T>, key: T -> SortKey)
    requires SortedBy(r, key) && SortedBy(q, key)
    requires SameTies(r, q, key)
    ensures r == q
    decreases |r|
  {
    if r != [] {
      assert Ties(q, key, key(r[|r| - 1])) == Ties(r, key, key(r[|r| - 1]));
      TiesOfLast(r[..|r| - 1], r[|r| - 1], key, key(r[|r| - 1]));
      assert r == r[..|r| - 1] + [r[|r| - 1]];
    }
    if q != [] {
      assert Ties(r, key, key(q[|q| - 1])) == Ties(q, key, key(q[|q| - 1]));
      TiesOfLast(q[..|q| - 1], q[|q| - 1], key, key(q[|q| - 1]));
      assert q == q[..|q| - 1] + [q[|q| - 1]];
    }
    if r != [] && q != [] {
      SameLastElement(r, q, key);
      DropLastKeepsSameTies(r, q, key);
      SortedPrefix(r, key, |r| - 1);
      SortedPrefix(q, key, |q| - 1);
      SortedWithSameTiesAreEqual(r[..|r| - 1], q[..|q| - 1], key);
      assert r == r[..|r| - 1] + [r[|r| - 1]] && q == q[..|q| - 1] + [q[|q| - 1]];
    }
  }

  /** Any key that occurs in a sorted non-empty sequence is at most the key of its last element. */
  lemma KeyBelowLast<T>(s: seq<T>, key: T -> SortKey, k: SortKey)
    requires SortedBy(s, key) && s != []
    requires Ties(s, key, k) != []
    ensures KeyLe(k, key(s[|s| - 1]))
  {
    var y := Ties(s, key, k)[0];
    var i :| 0 <= i < |s| && s[i] == y;
    if i == |s| - 1 {
      KeyLeReflexive(k);
    }
  }

  /**
   * The reference definition is the stable sort: a sequence is ordered by key
   * and keeps every group of full ties of `s` in input order exactly when it is
   * StableSorted(s). With StableSortedPermutes, the result
   * is a permutation of the input.
   */
  lemma StableSortedCharacterized<T>(s: seq<T>, key: T -> SortKey, r: seq<T>)
    ensures SortedBy(r, key) && SameTies(r, s, key) <==> r == StableSorted(s, key)
  {
    var sorted := StableSorted(s, key);
    StableSortedIsSorted(s, key);
    forall k
      ensures Ties(sorted, key, k) == Ties(s, key, k)
    {
      StableSortedKeepsTies(s, key, k);
    }
    assert SameTies(sorted, s, key);
    if SortedBy(r, key) && SameTies(r, s, key) {
      assert SameTies(r, sorted, key);
      SortedWithSameTiesAreEqual(r, sorted, key);
    }
  }

  /** In a sorted sequence an element whose key is strictly smaller comes first. */
  lemma SmallerKeyComesFirst<T>(r: seq<T>, key: T -> SortKey, i: int, j: int)
    requires SortedBy(r, key)
    requires 0 <= i < |r| && 0 <= j < |r|
    requires KeyLt(key(r[i]), key(r[j]))
    ensures i < j
  {
    if j <= i {
      KeyLeReflexive(key(r[i]));
    }
  }

  /** Sorting an already sorted sequence changes nothing. */
  lemma {:induction false} SortedIsFixpoint<T>(s: seq<T>, key: T -> SortKey)
    requires SortedBy(s, key)
    ensures StableSorted(s, key) == s
  {
    if s != [] {
      var s' := s[..|s| - 1];
      assert SortedBy(s', key);
      SortedIsFixpoint(s', key);
      if |s| > 1 {
        assert KeyLe(key(s'[|s'| - 1]), key(s[|s| - 1]));
      }
    }
  }

  /** Sorting twice is sorting once. */
  lemma StableSortedIdempotent<T>(s: seq<T>, key: T -> SortKey)
    ensures StableSorted(StableSorted(s, key), key) == StableSorted(s, key)
  {
    StableSortedIsSorted(s, key);
    SortedIsFixpoint(StableSorted(s, key), key);
  }

  /** One step of the insertion loop: `x` moves left past an element whose key is greater. */
  lemma InsertPastGreater<T>(r: seq<T>, j: nat, x: T, key: T -> SortKey)
    requires 0 < j <= |r|
    requires KeyLt(key(x), key(r[j - 1]))
    ensures Insert(r[..j], x, key) + r[j..] == Insert(r[..j - 1], x, key) + r[j - 1..]
  {
    assert r[..j][..j - 1] == r[..j - 1];
    assert r[j - 1..] == [r[j - 1]] + r[j..];
  }

  /** When `x`'s key is not below the last key of `r`, inserting appends. */
  lemma InsertStops<T>(r: seq<T>, x: T, key: T -> SortKey)
    requires r != [] ==> KeyLe(key(r[|r| - 1]), key(x))
    ensures Insert(r, x, key) == r + [x]
  {
  }

  /** The array contents when the inner loop stops: the prefix, `x`, then the shifted rest. */
  lemma ShiftedContents<T>(b: seq<T>, sorted: seq<T>, j: nat, x: T)
    requires j <= |sorted| < |b|
    requires forall m :: 0 <= m < j ==> b[m] == sorted[m]
    requires b[j] == x
    requires forall m :: j < m <= |sorted| ==> b[m] == sorted[m - 1]
    ensures b[..|sorted| + 1] == sorted[..j] + [x] + sorted[j..]
  {
  }

  /**
   * Inserts `a[i]` into the sorted prefix `a[..i]`, shifting the greater
   * elements one place right: the inner loop of the insertion sort.
   */
  method InsertAt<T>(a: array<T>, i: nat, key: T -> SortKey)
    requires i < a.Length
    modifies a
    ensures a[..i + 1] == Insert(old(a[..i]), old(a[i]), key)
    ensures a[i + 1..] == old(a[i + 1..])
  {
    var x := a[i];
    ghost var sorted := a[..i];
    ghost var rest := a[i + 1..];
    var j := i;
    assert sorted[..i] == sorted && sorted[i..] == [];
    while j > 0 && KeyLt(key(x), key(a[j - 1]))
      invariant 0 <= j <= i
      invariant forall m :: 0 <= m < j ==> a[m] == sorted[m]
      invariant forall m :: j < m <= i ==> a[m] == sorted[m - 1]
      invariant a[i + 1..] == rest
      invariant Insert(sorted, x, key) == Insert(sorted[..j], x, key) + sorted[j..]
    {
      InsertPastGreater(sorted, j, x, key);
      a[j] := a[j - 1];
      j := j - 1;
    }
    assert sorted[..j] != [] ==> sorted[..j][j - 1] == a[j - 1];
    InsertStops(sorted[..j], x, key);
    a[j] := x;
    ShiftedContents(a[..], sorted, j, x);
  }

  /** `list.sort(key=key)`: sorts `a` in place, stably, comparing keys with `<` only. */
  method InsertionSortBy<T>(a: array<T>, key: T -> SortKey)
    modifies a
    ensures a[..] == StableSorted(old(a[..]), key)
  {
    ghost var input := a[..];
    var i := 0;
    while i < a.Length
      invariant 0 <= i <= a.Length
      invariant a[..i] == StableSorted(input[..i], key)
      invariant a[i..] == input[i..]
    {
      assert input[..i + 1][..i] == input[..i];
      InsertAt(a, i, key);
      i := i + 1;
    }
    assert input[..a.Length] == input;
  }
}
