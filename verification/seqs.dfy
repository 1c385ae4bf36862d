/** Order-preserving selection and first-occurrence de-duplication over sequences:
    the two sequence operations the data-frame pipeline is built from. */
module Seqs {

  /** No element occurs twice. */
  predicate NoDups<T(==,!new)>(xs: seq<T>) {
    forall i, j :: 0 <= i < j < |xs| ==> xs[i] != xs[j]
  }

  /** The set of elements of a sequence. */
  function Elems<T(==,!new)>(xs: seq<T>): set<T> {
    set x | x in xs
  }

  /** The elements of `xs` that satisfy `keep`, in their original order: a boolean-mask
      selection of rows, which never reorders them. */
  function Select<T(==,!new)>(xs: seq<T>, keep: T -> bool): (out: seq<T>)
    ensures |out| <= |xs|
    ensures forall x :: x in out <==> x in xs && keep(x)
  {
    if |xs| == 0 then []
    else if keep(xs[0]) then [xs[0]] + Select(xs[1..], keep)
    else Select(xs[1..], keep)
  }

  /** Selecting from a sequence without repeats yields one without repeats. */
  lemma {:induction false} SelectNoDups<T(!new)>(xs: seq<T>, keep: T -> bool)
    requires NoDups(xs)
    ensures NoDups(Select(xs, keep))
  {
    if |xs| > 0 {
      assert NoDups(xs[1..]) by {
        forall i, j | 0 <= i < j < |xs[1..]|
          ensures xs[1..][i] != xs[1..][j]
        {
          assert xs[1..][i] == xs[i + 1] && xs[1..][j] == xs[j + 1];
        }
      }
      SelectNoDups(xs[1..], keep);
    }
  }

  /** A mask that keeps every element leaves the sequence unchanged. */
  lemma {:induction false} SelectAll<T(!new)>(xs: seq<T>, keep: T -> bool)
    requires forall x :: x in xs ==> keep(x)
    ensures Select(xs, keep) == xs
  {
    if |xs| > 0 {
      assert forall x :: x in xs[1..] ==> x in xs;
      SelectAll(xs[1..], keep);
    }
  }

  /** Selection distributes over concatenation. */
  lemma {:induction false} SelectAppend<T(!new)>(a: seq<T>, b: seq<T>, keep: T -> bool)
    ensures Select(a + b, keep) == Select(a, keep) + Select(b, keep)
  {
    if |a| == 0 {
      assert a + b == b;
    } else {
      assert (a + b)[0] == a[0];
      assert (a + b)[1..] == a[1..] + b;
      SelectAppend(a[1..], b, keep);
    }
  }

  /** Two masks that agree on every element select the same elements. */
  lemma {:induction false} SelectSameMask<T(!new)>(xs: seq<T>, p: T -> bool, q: T -> bool)
    requires forall x :: x in xs ==> p(x) == q(x)
    ensures Select(xs, p) == Select(xs, q)
  {
    if |xs| > 0 {
      assert forall x :: x in xs[1..] ==> x in xs;
      SelectSameMask(xs[1..], p, q);
    }
  }

  /** Two successive selections are one selection by the conjunction of their masks.
      The masks need only agree on the elements of `xs`. */
  lemma {:induction false} SelectFuse<T(!new)>(xs: seq<T>, p: T -> bool, q: T -> bool, pq: T -> bool)
    requires forall x :: x in xs ==> pq(x) == (p(x) && q(x))
    ensures Select(Select(xs, p), q) == Select(xs, pq)
  {
    if |xs| > 0 {
      assert forall x :: x in xs[1..] ==> x in xs;
      SelectFuse(xs[1..], p, q, pq);
    }
  }

  /** First-occurrence de-duplication of `xs`, treating every element of `seen` as
      already emitted. */
  function DedupFrom<T(==,!new)>(xs: seq<T>, seen: set<T>): (out: seq<T>)
    ensures |out| <= |xs|
    ensures NoDups(out)
    ensures forall x :: x in out <==> x in xs && x !in seen
  {
    if |xs| == 0 then []
    else if xs[0] in seen then DedupFrom(xs[1..], seen)
    else
      var rest := DedupFrom(xs[1..], seen + {xs[0]});
      assert xs[0] !in rest;
      [xs[0]] + rest
  }

  /** First-occurrence de-duplication (`unique()`, `drop_duplicates()`). */
  function Dedup<T(==,!new)>(xs: seq<T>): (out: seq<T>)
    ensures |out| <= |xs|
    ensures NoDups(out)
    ensures forall x :: x in out <==> x in xs
  {
    DedupFrom(xs, {})
  }

  /** Selecting after de-duplication is de-duplicating after selecting: the mask judges
      each element on its own, so it keeps exactly the first occurrences it would have
      kept. The two `seen` sets need only agree on the elements the mask keeps. */
  lemma {:induction false} SelectDedupFrom<T(!new)>(xs: seq<T>, keep: T -> bool, seen: set<T>, seenKept: set<T>)
    requires forall x :: keep(x) ==> (x in seen <==> x in seenKept)
    ensures Select(DedupFrom(xs, seen), keep) == DedupFrom(Select(xs, keep), seenKept)
  {
    if |xs| > 0 {
      var x := xs[0];
      if x in seen {
        SelectDedupFrom(xs[1..], keep, seen, seenKept);
      } else if keep(x) {
        SelectDedupFrom(xs[1..], keep, seen + {x}, seenKept + {x});
      } else {
        SelectDedupFrom(xs[1..], keep, seen + {x}, seenKept);
      }
    }
  }

  /** A mask applied to the first occurrences keeps the first occurrences of what the
      mask keeps. */
  lemma SelectDedup<T(!new)>(xs: seq<T>, keep: T -> bool)
    ensures Select(Dedup(xs), keep) == Dedup(Select(xs, keep))
  {
    SelectDedupFrom(xs, keep, {}, {});
  }

  /** De-duplicating a concatenation: the second part only contributes what the first
      part has not already produced. */
  lemma {:induction false} DedupFromAppend<T(!new)>(a: seq<T>, b: seq<T>, seen: set<T>)
    ensures DedupFrom(a + b, seen) == DedupFrom(a, seen) + DedupFrom(b, seen + Elems(a))
  {
    if |a| == 0 {
      assert a + b == b;
      assert Elems(a) == {};
      assert seen + Elems(a) == seen;
    } else {
      assert (a + b)[0] == a[0];
      assert (a + b)[1..] == a[1..] + b;
      assert Elems(a) == {a[0]} + Elems(a[1..]) by {
        assert a == [a[0]] + a[1..];
      }
      if a[0] in seen {
        DedupFromAppend(a[1..], b, seen);
        assert seen + Elems(a[1..]) == seen + Elems(a);
      } else {
        DedupFromAppend(a[1..], b, seen + {a[0]});
        assert seen + {a[0]} + Elems(a[1..]) == seen + Elems(a);
      }
    }
  }

  /** A sequence without repeats, none of whose elements were seen, is left unchanged. */
  lemma {:induction false} DedupFromDistinct<T(!new)>(xs: seq<T>, seen: set<T>)
    requires NoDups(xs)
    requires forall x :: x in xs ==> x !in seen
    ensures DedupFrom(xs, seen) == xs
  {
    if |xs| > 0 {
      assert NoDups(xs[1..]) by {
        forall i, j | 0 <= i < j < |xs[1..]|
          ensures xs[1..][i] != xs[1..][j]
        {
          assert xs[1..][i] == xs[i + 1] && xs[1..][j] == xs[j + 1];
        }
      }
      DedupFromDistinct(xs[1..], seen + {xs[0]});
    }
  }

  /** De-duplicating a sequence that starts with a repeat-free prefix keeps that prefix
      as it is. */
  lemma DedupPrefix<T(!new)>(a: seq<T>, rest: seq<T>)
    requires NoDups(a)
    ensures Dedup(a + rest) == a + DedupFrom(rest, Elems(a))
  {
    DedupFromAppend(a, rest, {});
    DedupFromDistinct(a, {});
    assert {} + Elems(a) == Elems(a);
  }

  /** The sequential reading of first-occurrence de-duplication: scanning left to right,
      an element is appended exactly when it has not been seen before. */
  lemma DedupSnoc<T(!new)>(xs: seq<T>, x: T)
    ensures Dedup(xs + [x]) == if x in xs then Dedup(xs) else Dedup(xs) + [x]
  {
    DedupFromAppend(xs, [x], {});
    assert {} + Elems(xs) == Elems(xs);
    assert [x][1..] == [];
  }

  /** The row-by-row de-duplication loop: the name list keeps each name where it first
      appears and drops every later repeat. */
  method DropDuplicates<T(==,!new)>(xs: seq<T>) returns (out: seq<T>)
    ensures out == Dedup(xs)
    ensures NoDups(out)
    ensures forall x :: x in out <==> x in xs
  {
    out := [];
    var seen: set<T> := {};
    for i := 0 to |xs|
      invariant out == Dedup(xs[..i])
      invariant seen == Elems(xs[..i])
    {
      assert xs[..i + 1] == xs[..i] + [xs[i]];
      assert Elems(xs[..i + 1]) == Elems(xs[..i]) + {xs[i]};
      DedupSnoc(xs[..i], xs[i]);
      if xs[i] !in seen {
        out := out + [xs[i]];
        seen := seen + {xs[i]};
      }
    }
    assert xs[..|xs|] == xs;
  }

  /** A sequence without repeats all of whose elements equal `x`, and that holds `x`,
      is `[x]`. */
  lemma SingletonOfNoDups<T(!new)>(xs: seq<T>, x: T)
    requires NoDups(xs)
    requires x in xs
    requires forall y :: y in xs ==> y == x
    ensures xs == [x]
  {
    assert xs[0] in xs;
    if |xs| > 1 {
      IndexIsElement(xs, 1);
      assert false;
    }
  }

  /** An in-range element of a sequence is one of its elements. */
  lemma IndexIsElement<T>(xs: seq<T>, i: int)
    ensures 0 <= i < |xs| ==> xs[i] in xs
  {
  }
}
