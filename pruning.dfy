/** The age cut-off both scheduled clean-up jobs apply: a document (a chat
    message, a post) is removed when its `createdAt` is strictly before the
    cut-off (`{ createdAt: { $lt: cutoff } }`) and kept otherwise. */
module Pruning {

  /** One day in milliseconds. */
  const DayMs: int := 24 * 60 * 60 * 1000

  /** The documents whose `createdAt` is at or after `cutoff`, in their stored order. */
  function KeepSince<T(==,!new)>(xs: seq<T>, createdAt: T -> int, cutoff: int): (r: seq<T>)
    ensures |r| <= |xs|
    ensures forall x :: x in r ==> x in xs && createdAt(x) >= cutoff
  {
    if xs == [] then []
    else
      (if createdAt(xs[0]) >= cutoff then [xs[0]] else []) + KeepSince(xs[1..], createdAt, cutoff)
  }

  /** Exactly the documents before the cut-off are removed: every document at or
      after it survives with its multiplicity, every earlier one is gone. */
  lemma {:induction false} KeepSinceExact<T(!new)>(xs: seq<T>, createdAt: T -> int, cutoff: int)
    ensures forall x :: multiset(KeepSince(xs, createdAt, cutoff))[x] ==
                          if createdAt(x) >= cutoff then multiset(xs)[x] else 0
  {
    if xs != [] {
      KeepSinceExact(xs[1..], createdAt, cutoff);
      assert xs == [xs[0]] + xs[1..];
    }
  }

  /** Removal is elementwise: pruning a concatenation prunes each part in place,
      so the survivors keep their relative order. */
  lemma {:induction false} KeepSinceAppend<T(!new)>(a: seq<T>, b: seq<T>, createdAt: T -> int, cutoff: int)
    ensures KeepSince(a + b, createdAt, cutoff) == KeepSince(a, createdAt, cutoff) + KeepSince(b, createdAt, cutoff)
  {
    if a != [] {
      assert (a + b)[0] == a[0] && (a + b)[1..] == a[1..] + b;
      KeepSinceAppend(a[1..], b, createdAt, cutoff);
    } else {
      assert a + b == b;
    }
  }

  /** A document at or after the cut-off is kept at its place. */
  lemma {:induction false} KeepSinceKeepsRecent<T(!new)>(xs: seq<T>, createdAt: T -> int, cutoff: int)
    requires forall x :: x in xs ==> createdAt(x) >= cutoff
    ensures KeepSince(xs, createdAt, cutoff) == xs
  {
    if xs != [] {
      KeepSinceKeepsRecent(xs[1..], createdAt, cutoff);
    }
  }

  /** Running the job again with the same cut-off removes nothing more. */
  lemma KeepSinceIdempotent<T(!new)>(xs: seq<T>, createdAt: T -> int, cutoff: int)
    ensures KeepSince(KeepSince(xs, createdAt, cutoff), createdAt, cutoff) == KeepSince(xs, createdAt, cutoff)
  {
    KeepSinceKeepsRecent(KeepSince(xs, createdAt, cutoff), createdAt, cutoff);
  }
}
