/** Sequence helpers for the order-preserving, duplicate-free lists the
    source builds with `push` guarded by `includes`. */
module Seqs {

  predicate NoDup<T(==)>(s: seq<T>) {
    forall i, j :: 0 <= i < j < |s| ==> s[i] != s[j]
  }

  /** `if (!acc.includes(x)) acc.push(x)`. */
  function AddIfAbsent<T(==)>(acc: seq<T>, x: T): seq<T> {
    if x in acc then acc else acc + [x]
  }

  /** The first occurrences of the elements of `s`, in order. */
  function Dedup<T(==)>(s: seq<T>): seq<T>
    decreases |s|
  {
    if s == [] then [] else AddIfAbsent(Dedup(s[..|s| - 1]), s[|s| - 1])
  }

  /** How many elements of `s` equal `x`. */
  function Occurrences<T(==)>(s: seq<T>, x: T): nat
    decreases |s|
  {
    if s == [] then 0
    else Occurrences(s[..|s| - 1], x) + (if s[|s| - 1] == x then 1 else 0)
  }

  /** Two duplicate-free sequences with no element in common concatenate
      to a duplicate-free sequence. */
  lemma NoDupConcat<T>(a: seq<T>, b: seq<T>)
    requires NoDup(a) && NoDup(b)
    requires forall i :: 0 <= i < |a| ==> a[i] !in b
    ensures NoDup(a + b)
  {
    var s := a + b;
    forall i, j | 0 <= i < j < |s| ensures s[i] != s[j] {
      if i < |a| && |a| <= j {
        assert s[j] == b[j - |a|];
      }
    }
  }

  /** Three duplicate-free sequences, pairwise without common elements,
      concatenate to a duplicate-free sequence. */
  lemma NoDupConcat3<T>(a: seq<T>, b: seq<T>, c: seq<T>)
    requires NoDup(a) && NoDup(b) && NoDup(c)
    requires forall i :: 0 <= i < |a| ==> a[i] !in b && a[i] !in c
    requires forall i :: 0 <= i < |b| ==> b[i] !in c
    ensures NoDup(a + b + c)
  {
    NoDupConcat(a, b);
    var ab := a + b;
    forall i | 0 <= i < |ab| ensures ab[i] !in c {
      if i >= |a| {
        assert ab[i] == b[i - |a|];
      }
    }
    NoDupConcat(ab, c);
  }

  lemma AddIfAbsentNoDup<T>(acc: seq<T>, x: T)
    requires NoDup(acc)
    ensures NoDup(AddIfAbsent(acc, x))
  {
  }

  lemma {:induction false} DedupMembers<T>(s: seq<T>)
    ensures forall x :: x in Dedup(s) <==> x in s
  {
    if s != [] {
      var s' := s[..|s| - 1];
      DedupMembers(s');
      assert s == s' + [s[|s| - 1]];
    }
  }

  lemma {:induction false} DedupNoDup<T>(s: seq<T>)
    ensures NoDup(Dedup(s))
  {
    if s != [] {
      DedupNoDup(s[..|s| - 1]);
    }
  }

  /** A list without duplicates is its own first-occurrence list. */
  lemma {:induction false} DedupOfNoDup<T>(s: seq<T>)
    requires NoDup(s)
    ensures Dedup(s) == s
  {
    if s != [] {
      var s' := s[..|s| - 1];
      DedupOfNoDup(s');
      assert s[|s| - 1] !in s';
      assert s == s' + [s[|s| - 1]];
    }
  }

  /** Every element of `s` occurs at least once in it. */
  lemma {:induction false} OccurrencesPositive<T>(s: seq<T>, x: T)
    ensures x in s <==> Occurrences(s, x) > 0
  {
    if s != [] {
      var s' := s[..|s| - 1];
      OccurrencesPositive(s', x);
      assert s == s' + [s[|s| - 1]];
    }
  }
}
