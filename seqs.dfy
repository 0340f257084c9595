/**
 * Sequence notions behind the browse page's `filter` and `new Set(...)`:
 * subsequences, distinctness, and de-duplication in first-occurrence order.
 */
module Seqs {

  /** `a` can be obtained from `b` by deleting elements, keeping the order of the rest. */
  predicate IsSubseq<T(==)>(a: seq<T>, b: seq<T>)
    decreases |b|
  {
    a == [] || (b != [] && ((a[0] == b[0] && IsSubseq(a[1..], b[1..])) || IsSubseq(a, b[1..])))
  }

  /** No element occurs twice. */
  predicate Distinct<T(==)>(s: seq<T>) {
    forall i, j :: 0 <= i < j < |s| ==> s[i] != s[j]
  }

  /** The index of the first occurrence of `x` in `s`. */
  function FirstIndex<T(==)>(s: seq<T>, x: T): (k: nat)
    requires x in s
    ensures k < |s| && s[k] == x && x !in s[..k]
  {
    if s[0] == x then 0 else 1 + FirstIndex(s[1..], x)
  }

  /**
   * The elements of `s` not in `seen`, each kept at its first occurrence only;
   * this is the iteration order of a JavaScript `Set` built from `s`.
   */
  function DedupFrom<T(==)>(s: seq<T>, seen: set<T>): (r: seq<T>)
    ensures forall x :: x in r ==> x in s && x !in seen
  {
    if s == [] then []
    else if s[0] in seen then DedupFrom(s[1..], seen)
    else [s[0]] + DedupFrom(s[1..], seen + {s[0]})
  }

  /** `[...new Set(s)]`. */
  function Dedup<T(==)>(s: seq<T>): seq<T> {
    DedupFrom(s, {})
  }

  /** `DedupFrom` keeps exactly the elements of `s` that are not in `seen`. */
  lemma {:induction false} DedupFromMembers<T>(s: seq<T>, seen: set<T>)
    ensures forall x :: x in DedupFrom(s, seen) <==> x in s && x !in seen
  {
    if s != [] {
      if s[0] in seen {
        DedupFromMembers(s[1..], seen);
      } else {
        DedupFromMembers(s[1..], seen + {s[0]});
      }
    }
  }

  /** `DedupFrom` keeps each element at most once. */
  lemma {:induction false} DedupFromDistinct<T>(s: seq<T>, seen: set<T>)
    ensures Distinct(DedupFrom(s, seen))
  {
    if s != [] {
      if s[0] in seen {
        DedupFromDistinct(s[1..], seen);
      } else {
        var tail := DedupFrom(s[1..], seen + {s[0]});
        DedupFromDistinct(s[1..], seen + {s[0]});
        DedupFromMembers(s[1..], seen + {s[0]});
        assert s[0] !in tail;
        var r := [s[0]] + tail;
        forall i, j | 0 <= i < j < |r| ensures r[i] != r[j] {
          assert r[j] == tail[j - 1];
        }
      }
    }
  }

  /** `DedupFrom` only deletes elements: the rest keep their order. */
  lemma {:induction false} DedupFromSubseq<T>(s: seq<T>, seen: set<T>)
    ensures IsSubseq(DedupFrom(s, seen), s)
  {
    if s != [] {
      if s[0] in seen {
        DedupFromSubseq(s[1..], seen);
      } else {
        var tail := DedupFrom(s[1..], seen + {s[0]});
        DedupFromSubseq(s[1..], seen + {s[0]});
        assert ([s[0]] + tail)[1..] == tail;
      }
    }
  }

  /** `DedupFrom` lists its elements in the order of their first occurrence in `s`. */
  lemma {:induction false} DedupFromOrder<T>(s: seq<T>, seen: set<T>)
    ensures forall i, j :: 0 <= i < j < |DedupFrom(s, seen)| ==>
              FirstIndex(s, DedupFrom(s, seen)[i]) < FirstIndex(s, DedupFrom(s, seen)[j])
  {
    if s != [] {
      var r := DedupFrom(s, seen);
      if s[0] in seen {
        var tail := DedupFrom(s[1..], seen);
        DedupFromOrder(s[1..], seen);
        DedupFromMembers(s[1..], seen);
        forall i, j | 0 <= i < j < |r| ensures FirstIndex(s, r[i]) < FirstIndex(s, r[j]) {
          assert r[i] in tail && r[j] in tail;
          FirstIndexTail(s, r[i]);
          FirstIndexTail(s, r[j]);
        }
      } else {
        var tail := DedupFrom(s[1..], seen + {s[0]});
        DedupFromOrder(s[1..], seen + {s[0]});
        DedupFromMembers(s[1..], seen + {s[0]});
        forall i, j | 0 <= i < j < |r| ensures FirstIndex(s, r[i]) < FirstIndex(s, r[j]) {
          assert r[j] == tail[j - 1];
          FirstIndexTail(s, r[j]);
          if i > 0 {
            assert r[i] == tail[i - 1];
            FirstIndexTail(s, r[i]);
          }
        }
      }
    }
  }

  /** Past a different head, the first occurrence moves one place. */
  lemma FirstIndexTail<T>(s: seq<T>, x: T)
    requires x in s && s[0] != x
    ensures x in s[1..] && FirstIndex(s, x) == 1 + FirstIndex(s[1..], x)
  {
  }

  /** What `Dedup` keeps: every element of `s` once, in first-occurrence order, as a subsequence. */
  lemma DedupSpec<T>(s: seq<T>)
    ensures forall x :: x in Dedup(s) <==> x in s
    ensures Distinct(Dedup(s))
    ensures IsSubseq(Dedup(s), s)
    ensures forall i, j :: 0 <= i < j < |Dedup(s)| ==> FirstIndex(s, Dedup(s)[i]) < FirstIndex(s, Dedup(s)[j])
  {
    DedupFromMembers(s, {});
    DedupFromDistinct(s, {});
    DedupFromSubseq(s, {});
    DedupFromOrder(s, {});
  }
}
