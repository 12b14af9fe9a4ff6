/**
 * Sort keys as the rankers build them: a Python tuple of integers and
 * strings, compared lexicographically element by element, where strings
 * compare by code point (so a fixed-format "YYYY-MM-DDTHH:MM:SSZ" timestamp
 * orders like the instant it names).
 */
module Keys {

  /** One component of a sort-key tuple. */
  datatype KeyPart = Num(n: int) | Text(s: string)

  /** A sort-key tuple such as `(-score, created_at)`. */
  type SortKey = seq<KeyPart>

  /** Python's `a <= b` on `str`: lexicographic by code point, a proper prefix first. */
  predicate StrLe(a: string, b: string)
  {
    if a == [] then true
    else if b == [] then false
    else if a[0] != b[0] then a[0] < b[0]
    else StrLe(a[1..], b[1..])
  }

  /**
   * Strict order on tuple components. Python raises TypeError when it has to
   * compare an `int` with a `str`; every key built by the rankers has the same
   * shape, so that comparison never happens and numbers are simply put first.
   */
  predicate PartLt(x: KeyPart, y: KeyPart)
  {
    match (x, y)
    case (Num(m), Num(n)) => m < n
    case (Text(s), Text(t)) => s != t && StrLe(s, t)
    case (Num(_), Text(_)) => true
    case (Text(_), Num(_)) => false
  }

  /** Python's `a <= b` on tuples: the first differing component decides, a proper prefix first. */
  predicate KeyLe(a: SortKey, b: SortKey)
  {
    if a == [] then true
    else if b == [] then false
    else if a[0] != b[0] then PartLt(a[0], b[0])
    else KeyLe(a[1..], b[1..])
  }

  /** Python's `a < b` on tuples, the only comparison `list.sort` makes. */
  predicate KeyLt(a: SortKey, b: SortKey)
  {
    !KeyLe(b, a)
  }

  lemma {:induction false} StrLeReflexive(a: string)
    ensures StrLe(a, a)
  {
    if a != [] {
      StrLeReflexive(a[1..]);
    }
  }

  lemma {:induction false} StrLeTotal(a: string, b: string)
    ensures StrLe(a, b) || StrLe(b, a)
  {
    if a != [] && b != [] && a[0] == b[0] {
      StrLeTotal(a[1..], b[1..]);
    }
  }

  lemma {:induction false} StrLeAntisymmetric(a: string, b: string)
    requires StrLe(a, b) && StrLe(b, a)
    ensures a == b
  {
    if a != [] && b != [] {
      StrLeAntisymmetric(a[1..], b[1..]);
      assert a == [a[0]] + a[1..] && b == [b[0]] + b[1..];
    }
  }

  lemma {:induction false} StrLeTransitive(a: string, b: string, c: string)
    requires StrLe(a, b) && StrLe(b, c)
    ensures StrLe(a, c)
  {
    if a != [] && b != [] && c != [] && a[0] == b[0] && b[0] == c[0] {
      StrLeTransitive(a[1..], b[1..], c[1..]);
    }
  }

  lemma PartLtIsStrictTotal(x: KeyPart, y: KeyPart, z: KeyPart)
    ensures !PartLt(x, x)
    ensures x != y ==> PartLt(x, y) || PartLt(y, x)
    ensures PartLt(x, y) && PartLt(y, z) ==> PartLt(x, z)
  {
    if x.Text? && y.Text? && x != y {
      StrLeTotal(x.s, y.s);
    }
    if x.Text? && y.Text? && z.Text? && PartLt(x, y) && PartLt(y, z) {
      StrLeTransitive(x.s, y.s, z.s);
      if x.s == z.s {
        StrLeAntisymmetric(x.s, y.s);
      }
    }
  }

  lemma {:induction false} KeyLeReflexive(a: SortKey)
    ensures KeyLe(a, a)
  {
    if a != [] {
      KeyLeReflexive(a[1..]);
    }
  }

  lemma {:induction false} KeyLeTotal(a: SortKey, b: SortKey)
    ensures KeyLe(a, b) || KeyLe(b, a)
  {
    if a != [] && b != [] {
      if a[0] == b[0] {
        KeyLeTotal(a[1..], b[1..]);
      } else {
        PartLtIsStrictTotal(a[0], b[0], b[0]);
      }
    }
  }

  lemma {:induction false} KeyLeAntisymmetric(a: SortKey, b: SortKey)
    requires KeyLe(a, b) && KeyLe(b, a)
    ensures a == b
  {
    if a != [] && b != [] {
      if a[0] == b[0] {
        KeyLeAntisymmetric(a[1..], b[1..]);
        assert a == [a[0]] + a[1..] && b == [b[0]] + b[1..];
      } else {
        PartLtIsStrictTotal(a[0], b[0], a[0]);
      }
    }
  }

  lemma {:induction false} KeyLeTransitive(a: SortKey, b: SortKey, c: SortKey)
    requires KeyLe(a, b) && KeyLe(b, c)
    ensures KeyLe(a, c)
  {
    if a != [] && b != [] && c != [] {
      PartLtIsStrictTotal(a[0], b[0], c[0]);
      if a[0] == b[0] && b[0] == c[0] {
        KeyLeTransitive(a[1..], b[1..], c[1..]);
      }
    }
  }

  /** `<` on tuples is the strict part of `<=`: exactly one of `a < b`, `a == b`, `b < a` holds. */
  lemma KeyLtTrichotomy(a: SortKey, b: SortKey)
    ensures KeyLt(a, b) <==> KeyLe(a, b) && a != b
    ensures KeyLt(a, b) || a == b || KeyLt(b, a)
  {
    KeyLeReflexive(a);
    KeyLeTotal(a, b);
    if KeyLe(a, b) && KeyLe(b, a) {
      KeyLeAntisymmetric(a, b);
    }
  }

  /** Tuples that start with components `x` and `y` compare by those first, then by the rest. */
  lemma ConsOrder(x: KeyPart, a: SortKey, y: KeyPart, b: SortKey)
    ensures KeyLe([x] + a, [y] + b) <==> (PartLt(x, y) || (x == y && KeyLe(a, b)))
  {
    assert ([x] + a)[1..] == a && ([y] + b)[1..] == b;
  }

  /** A two-component key `(int, str)` compares first by the number, then by the string. */
  lemma PairOrder(m: int, s: string, n: int, t: string)
    ensures KeyLe([Num(m), Text(s)], [Num(n), Text(t)]) <==> m < n || (m == n && StrLe(s, t))
  {
    var a, b := [Num(m), Text(s)], [Num(n), Text(t)];
    if m == n {
      assert a[1..] == [Text(s)] && b[1..] == [Text(t)];
      assert KeyLe(a, b) == KeyLe([Text(s)], [Text(t)]);
      if s == t {
        StrLeReflexive(s);
        KeyLeReflexive([Text(s)]);
      }
    }
  }
}
