/** Go's `<` on strings: lexicographic comparison, a proper prefix ordering first.
    Characters are compared by code point, which orders well-formed UTF-8 exactly
    as Go's byte-wise comparison does. */
module KeyOrder {
  import opened WhanauTypes

  /** `a < b` on Go strings. Nothing sorts below the empty string, and a proper
      prefix sorts before the longer string. */
  predicate KeyLess(a: KeyType, b: KeyType)
    ensures KeyLess(a, b) ==> |b| > 0
    ensures |a| < |b| && a == b[..|a|] ==> KeyLess(a, b)
    decreases |a|
  {
    if |b| == 0 then false
    else if |a| == 0 then true
    else if a[0] != b[0] then a[0] < b[0]
    else KeyLess(a[1..], b[1..])
  }

  /** `a <= b`, the relation a sorted table is non-decreasing in. */
  predicate KeyLe(a: KeyType, b: KeyType) {
    !KeyLess(b, a)
  }

  lemma {:induction false} KeyLessIrreflexive(a: KeyType)
    ensures !KeyLess(a, a)
    decreases |a|
  {
    if |a| > 0 {
      KeyLessIrreflexive(a[1..]);
    }
  }

  lemma {:induction false} KeyLessAsymmetric(a: KeyType, b: KeyType)
    requires KeyLess(a, b)
    ensures !KeyLess(b, a)
    decreases |a|
  {
    if |a| > 0 && a[0] == b[0] {
      KeyLessAsymmetric(a[1..], b[1..]);
    }
  }

  lemma {:induction false} KeyLessTransitive(a: KeyType, b: KeyType, c: KeyType)
    requires KeyLess(a, b) && KeyLess(b, c)
    ensures KeyLess(a, c)
    decreases |a|
  {
    if |a| > 0 && a[0] == b[0] && b[0] == c[0] {
      KeyLessTransitive(a[1..], b[1..], c[1..]);
    }
  }

  /** Any two distinct keys are ordered one way or the other. */
  lemma {:induction false} KeyLessTotal(a: KeyType, b: KeyType)
    requires a != b
    ensures KeyLess(a, b) || KeyLess(b, a)
    decreases |a|
  {
    if |a| > 0 && |b| > 0 && a[0] == b[0] {
      assert a == [a[0]] + a[1..] && b == [b[0]] + b[1..];
      KeyLessTotal(a[1..], b[1..]);
    }
  }

  /** `<=` is transitive; this is what lets a table sorted pairwise be built one insertion at a time. */
  lemma KeyLeTransitive(a: KeyType, b: KeyType, c: KeyType)
    requires KeyLe(a, b) && KeyLe(b, c)
    ensures KeyLe(a, c)
  {
    if KeyLess(c, a) {
      if a == b {
      } else {
        KeyLessTotal(a, b);
        KeyLessTransitive(c, a, b);
      }
    }
  }

  /** `<=` in both directions means the keys are equal. */
  lemma KeyLeAntisymmetric(a: KeyType, b: KeyType)
    requires KeyLe(a, b) && KeyLe(b, a)
    ensures a == b
  {
    if a != b {
      KeyLessTotal(a, b);
    }
  }
}
