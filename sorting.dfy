/** The in-place table sorts `ByFinger(FingerId).Sort` and `By(RecordKey).Sort`:
    one generic sort over a slice, ordered by a key drawn from each element. */
module Sorting {
  import opened WhanauTypes
  import opened KeyOrder

  /** Every element's key is at most every later element's key. */
  ghost predicate SortedBy<T>(s: seq<T>, key: T -> KeyType) {
    forall p, q :: 0 <= p < q < |s| ==> KeyLe(key(s[p]), key(s[q]))
  }

  /** Sorts `a` in place so that its keys never decrease; the elements are only rearranged. */
  method SortBy<T>(a: array<T>, key: T -> KeyType)
    modifies a
    ensures SortedBy(a[..], key)
    ensures multiset(a[..]) == multiset(old(a[..]))
  {
    var i := 0;
    while i < a.Length
      invariant 0 <= i <= a.Length
      invariant SortedBy(a[..i], key)
      invariant multiset(a[..]) == multiset(old(a[..]))
    {
      InsertLast(a, i, key);
      i := i + 1;
    }
    assert a[..a.Length] == a[..];
  }

  /** Exchanges the elements at positions `i` and `j`. */
  method Swap<T>(a: array<T>, i: nat, j: nat)
    requires i < j < a.Length
    modifies a
    ensures a[..] == old(a[..])[i := old(a[j])][j := old(a[i])]
    ensures multiset(a[..]) == multiset(old(a[..]))
  {
    a[i], a[j] := a[j], a[i];
  }

  /** Moves `a[i]` left into the sorted prefix `a[..i]`, leaving `a[..i+1]` sorted. */
  method InsertLast<T>(a: array<T>, i: nat, key: T -> KeyType)
    requires i < a.Length
    requires SortedBy(a[..i], key)
    modifies a
    ensures SortedBy(a[..i + 1], key)
    ensures multiset(a[..]) == multiset(old(a[..]))
    ensures a[i + 1..] == old(a[i + 1..])
  {
    var j := i;
    while j > 0 && KeyLess(key(a[j]), key(a[j - 1]))
      invariant 0 <= j <= i
      invariant multiset(a[..]) == multiset(old(a[..]))
      invariant a[i + 1..] == old(a[i + 1..])
      invariant forall p, q :: 0 <= p < q <= i && p != j && q != j ==> KeyLe(key(a[p]), key(a[q]))
      invariant forall q :: j < q <= i ==> KeyLess(key(a[j]), key(a[q]))
    {
      Swap(a, j - 1, j);
      j := j - 1;
    }
    forall p, q | 0 <= p < q <= i
      ensures KeyLe(key(a[p]), key(a[q]))
    {
      if q == j && p < j - 1 {
        KeyLeTransitive(key(a[p]), key(a[j - 1]), key(a[j]));
      } else if p == j {
        KeyLessAsymmetric(key(a[p]), key(a[q]));
      }
    }
  }

  /** The keys of a table, in table order. */
  function Keys<T>(s: seq<T>, key: T -> KeyType): seq<KeyType> {
    seq(|s|, i requires 0 <= i < |s| => key(s[i]))
  }

  /** Dropping one element keeps a table sorted. */
  lemma SortedWithout<T>(s: seq<T>, j: nat, key: T -> KeyType)
    requires j < |s| && SortedBy(s, key)
    ensures SortedBy(s[..j] + s[j + 1..], key)
  {
    var r := s[..j] + s[j + 1..];
    forall p, q | 0 <= p < q < |r|
      ensures KeyLe(key(r[p]), key(r[q]))
    {
      var p' := if p < j then p else p + 1;
      var q' := if q < j then q else q + 1;
      assert r[p] == s[p'] && r[q] == s[q'];
    }
  }

  /** Removing the element at `j` removes exactly one copy of it. */
  lemma MultisetWithout<T>(s: seq<T>, j: nat)
    requires j < |s|
    ensures multiset(s[..j] + s[j + 1..]) == multiset(s) - multiset{s[j]}
  {
    assert s == s[..j] + [s[j]] + s[j + 1..];
  }

  /** Sorted tables with the same contents start with the same key. */
  lemma FirstKeysAgree<T>(s1: seq<T>, s2: seq<T>, key: T -> KeyType)
    requires SortedBy(s1, key) && SortedBy(s2, key)
    requires |s1| > 0 && multiset(s1) == multiset(s2)
    ensures |s2| > 0 && key(s1[0]) == key(s2[0])
  {
    assert s1[0] in multiset(s2);
    var j :| 0 <= j < |s2| && s2[j] == s1[0];
    assert s2[0] in multiset(s1);
    var i :| 0 <= i < |s1| && s1[i] == s2[0];
    KeyLessIrreflexive(key(s1[0]));
    KeyLessIrreflexive(key(s2[0]));
    assert KeyLe(key(s1[0]), key(s1[i]));
    assert KeyLe(key(s2[0]), key(s2[j]));
    KeyLeAntisymmetric(key(s1[0]), key(s2[0]));
  }

  /** In a sorted table whose first and `j`-th keys agree, taking out entry `j`
      and putting its key back at the front leaves the key sequence unchanged. */
  lemma KeysWithout<T>(s: seq<T>, j: nat, key: T -> KeyType)
    requires j < |s| && SortedBy(s, key) && key(s[j]) == key(s[0])
    ensures Keys(s, key) == [key(s[j])] + Keys(s[..j] + s[j + 1..], key)
  {
    var k := key(s[j]);
    var rest := s[..j] + s[j + 1..];
    forall m | 0 < m < j
      ensures key(s[m]) == k
    {
      KeyLeAntisymmetric(key(s[m]), k);
    }
    forall m | 0 <= m < |s|
      ensures Keys(s, key)[m] == ([k] + Keys(rest, key))[m]
    {
      if m > 0 {
        if m - 1 < j {
          assert rest[m - 1] == s[m - 1];
        } else {
          assert rest[m - 1] == s[m];
        }
      }
    }
  }

  /** Finds the first entry of `s1` in `s2`; without those two entries the tables
      still have the same contents. */
  lemma MatchFirst<T>(s1: seq<T>, s2: seq<T>) returns (j: nat)
    requires |s1| > 0 && multiset(s1) == multiset(s2)
    ensures j < |s2| && s2[j] == s1[0]
    ensures multiset(s1[1..]) == multiset(s2[..j] + s2[j + 1..])
  {
    assert s1[0] in multiset(s2);
    j :| 0 <= j < |s2| && s2[j] == s1[0];
    MultisetWithout(s2, j);
    MultisetWithout(s1, 0);
    assert s1[..0] + s1[1..] == s1[1..];
  }

  /** Both tables stay sorted without their first entry and its match. */
  lemma SortedTails<T>(s1: seq<T>, s2: seq<T>, j: nat, key: T -> KeyType)
    requires SortedBy(s1, key) && SortedBy(s2, key) && 0 < |s1| && j < |s2|
    ensures SortedBy(s1[1..], key) && SortedBy(s2[..j] + s2[j + 1..], key)
  {
    SortedWithout(s2, j, key);
    SortedWithout(s1, 0, key);
    assert s1[..0] + s1[1..] == s1[1..];
  }

  /** A table's keys are its first key followed by the keys of the rest. */
  lemma KeysCons<T>(s: seq<T>, key: T -> KeyType)
    requires |s| > 0
    ensures Keys(s, key) == [key(s[0])] + Keys(s[1..], key)
  {
  }

  /** Two sorted rearrangements of the same table list the same keys in the same
      order: how entries with equal keys end up is the only freedom a sort has. */
  lemma {:induction false} SortedPermutationsShareKeys<T>(s1: seq<T>, s2: seq<T>, key: T -> KeyType)
    requires SortedBy(s1, key) && SortedBy(s2, key)
    requires multiset(s1) == multiset(s2)
    ensures Keys(s1, key) == Keys(s2, key)
    decreases |s1|
  {
    if |s1| == 0 {
      assert |multiset(s2)| == 0;
    } else {
      var j := MatchFirst(s1, s2);
      var rest := s2[..j] + s2[j + 1..];
      assert Keys(s2, key) == [key(s1[0])] + Keys(rest, key) by {
        FirstKeysAgree(s1, s2, key);
        KeysWithout(s2, j, key);
      }
      assert Keys(s1[1..], key) == Keys(rest, key) by {
        SortedTails(s1, s2, j, key);
        SortedPermutationsShareKeys(s1[1..], rest, key);
      }
      KeysCons(s1, key);
    }
  }
}
