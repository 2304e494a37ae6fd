/** Sequence operations shared by the search engine, the refinement panel and
    the search form: the JavaScript array idioms the UI code is built from
    (filter, append-or-remove toggles, insertion-ordered sets, join). */
module Seqs {

  /** `xs.filter(p)`: the elements of xs that satisfy p, in their original order. */
  function Filter<T(!new)>(p: T -> bool, xs: seq<T>): (r: seq<T>)
    ensures |r| <= |xs|
    ensures forall x :: x in r <==> x in xs && p(x)
  {
    if xs == [] then []
    else
      var rest := Filter(p, xs[1..]);
      assert forall x :: x in xs <==> x == xs[0] || x in xs[1..];
      if p(xs[0]) then [xs[0]] + rest else rest
  }

  /** r can be obtained from xs by deleting elements (order is kept). */
  predicate SubseqOf<T(==,!new)>(r: seq<T>, xs: seq<T>)
    decreases |xs|
  {
    r == [] || (xs != [] && ((r[0] == xs[0] && SubseqOf(r[1..], xs[1..])) || SubseqOf(r, xs[1..])))
  }

  /** Filtering only deletes: the result is a subsequence of the input. */
  lemma {:induction false} FilterIsSubseq<T(!new)>(p: T -> bool, xs: seq<T>)
    ensures SubseqOf(Filter(p, xs), xs)
  {
    if xs != [] {
      FilterIsSubseq(p, xs[1..]);
    }
  }

  /** Filtering keeps every copy of a satisfying element and no copy of any other. */
  lemma {:induction false} FilterMultiplicity<T(!new)>(p: T -> bool, xs: seq<T>, x: T)
    ensures multiset(Filter(p, xs))[x] == if p(x) then multiset(xs)[x] else 0
  {
    if xs != [] {
      FilterMultiplicity(p, xs[1..], x);
      assert xs == [xs[0]] + xs[1..];
    }
  }

  /** Filtering distributes over concatenation. */
  lemma {:induction false} FilterAppend<T(!new)>(p: T -> bool, xs: seq<T>, ys: seq<T>)
    ensures Filter(p, xs + ys) == Filter(p, xs) + Filter(p, ys)
  {
    if xs == [] {
      assert xs + ys == ys;
    } else {
      var zs := xs + ys;
      assert zs[0] == xs[0] && zs[1..] == xs[1..] + ys;
      FilterAppend(p, xs[1..], ys);
      var head := if p(xs[0]) then [xs[0]] else [];
      calc {
        Filter(p, zs);
        head + Filter(p, xs[1..] + ys);
        head + (Filter(p, xs[1..]) + Filter(p, ys));
        (head + Filter(p, xs[1..])) + Filter(p, ys);
      }
    }
  }

  /** One step of the filter, at position i: keep xs[i] exactly when it passes. */
  lemma FilterStep<T(!new)>(p: T -> bool, xs: seq<T>, i: nat)
    requires i < |xs|
    ensures Filter(p, xs[i..]) == (if p(xs[i]) then [xs[i]] else []) + Filter(p, xs[i + 1..])
  {
    assert xs[i..][0] == xs[i] && xs[i..][1..] == xs[i + 1..];
  }

  /** A filter that every element passes returns its input unchanged. */
  lemma {:induction false} FilterKeepsAll<T(!new)>(p: T -> bool, xs: seq<T>)
    requires forall i :: 0 <= i < |xs| ==> p(xs[i])
    ensures Filter(p, xs) == xs
  {
    if xs != [] {
      FilterKeepsAll(p, xs[1..]);
    }
  }

  /** Two predicates that agree on every element select the same elements. */
  lemma {:induction false} FilterAgree<T(!new)>(p: T -> bool, q: T -> bool, xs: seq<T>)
    requires forall i :: 0 <= i < |xs| ==> p(xs[i]) == q(xs[i])
    ensures Filter(p, xs) == Filter(q, xs)
  {
    if xs != [] {
      FilterAgree(p, q, xs[1..]);
    }
  }

  /** A filter that no element passes returns nothing. */
  lemma {:induction false} FilterNone<T(!new)>(p: T -> bool, xs: seq<T>)
    requires forall i :: 0 <= i < |xs| ==> !p(xs[i])
    ensures Filter(p, xs) == []
  {
    if xs != [] {
      FilterNone(p, xs[1..]);
    }
  }

  /** A filter that only the first element passes returns that element alone. */
  lemma FilterFirstOnly<T(!new)>(p: T -> bool, xs: seq<T>)
    requires xs != [] && p(xs[0])
    requires forall i :: 0 < i < |xs| ==> !p(xs[i])
    ensures Filter(p, xs) == [xs[0]]
  {
    FilterNone(p, xs[1..]);
  }

  /** `xs.filter(a => a !== v)`: unchecking a box removes every occurrence of v. */
  function Without<T(==,!new)>(xs: seq<T>, v: T): (r: seq<T>)
  {
    Filter(x => x != v, xs)
  }

  /** Removal deletes exactly the copies of v: nothing else is dropped and the order is kept. */
  lemma WithoutSpec<T(!new)>(xs: seq<T>, v: T)
    ensures v !in Without(xs, v)
    ensures forall w :: w != v ==> multiset(Without(xs, v))[w] == multiset(xs)[w]
    ensures SubseqOf(Without(xs, v), xs)
  {
    forall w | w != v
      ensures multiset(Without(xs, v))[w] == multiset(xs)[w]
    {
      FilterMultiplicity(x => x != v, xs, w);
    }
    FilterIsSubseq(x => x != v, xs);
  }

  /** Removing a value that does not occur changes nothing. */
  lemma WithoutAbsent<T(!new)>(xs: seq<T>, v: T)
    requires v !in xs
    ensures Without(xs, v) == xs
  {
    FilterKeepsAll(x => x != v, xs);
  }

  /** A checkbox handler: checking appends v, unchecking removes every copy of v. */
  function Check<T(==,!new)>(xs: seq<T>, v: T, checked: bool): (r: seq<T>)
    ensures checked ==> r == xs + [v]
    ensures !checked ==> v !in r && forall w :: w != v ==> (w in r <==> w in xs)
    ensures !checked ==> r == Without(xs, v)
  {
    if checked then xs + [v] else Without(xs, v)
  }

  /** Checking a box and unchecking it again leaves the list as if v had been removed. */
  lemma CheckThenUncheck<T(!new)>(xs: seq<T>, v: T)
    ensures Check(Check(xs, v, true), v, false) == Without(xs, v)
  {
    FilterAppend(x => x != v, xs, [v]);
    assert Filter(x => x != v, [v]) == [];
  }

  /** A toggle button: remove v when present, append it otherwise. */
  function Toggle<T(==,!new)>(xs: seq<T>, v: T): (r: seq<T>)
    ensures (v in r) == (v !in xs)
    ensures forall w :: w != v ==> (w in r <==> w in xs)
    ensures v in xs ==> r == Without(xs, v)
    ensures v !in xs ==> r == xs + [v]
  {
    if v in xs then Without(xs, v) else xs + [v]
  }

  /** Toggling twice restores membership of every value. */
  lemma ToggleTwiceMembership<T(!new)>(xs: seq<T>, v: T, w: T)
    ensures w in Toggle(Toggle(xs, v), v) <==> w in xs
  {
  }

  /** Toggling a value that was absent twice restores the list exactly. */
  lemma ToggleTwiceAbsent<T(!new)>(xs: seq<T>, v: T)
    requires v !in xs
    ensures Toggle(Toggle(xs, v), v) == xs
  {
    assert v in xs + [v];
    FilterAppend(x => x != v, xs, [v]);
    assert Filter(x => x != v, [v]) == [];
    WithoutAbsent(xs, v);
  }

  /** No element occurs twice. */
  predicate NoDuplicates<T(==,!new)>(s: seq<T>)
  {
    forall i, j :: 0 <= i < j < |s| ==> s[i] != s[j]
  }

  /** `Array.from(new Set(xs))`: the distinct elements of xs in order of first occurrence.
      Defined from the end, the way a loop adding to a Set builds it. */
  function Dedup<T(==,!new)>(xs: seq<T>): (r: seq<T>)
    ensures forall x :: x in r <==> x in xs
    ensures NoDuplicates(r)
  {
    if xs == [] then []
    else
      var init := xs[..|xs| - 1];
      var last := xs[|xs| - 1];
      var d := Dedup(init);
      assert forall x :: x in xs <==> x in init || x == last by {
        assert xs == init + [last];
      }
      if last in d then d else d + [last]
  }

  /** Position of the first occurrence of x in xs. */
  function FirstIndex<T(==,!new)>(xs: seq<T>, x: T): (k: nat)
    requires x in xs
    ensures k < |xs| && xs[k] == x && x !in xs[..k]
  {
    if xs[0] == x then 0 else 1 + FirstIndex(xs[1..], x)
  }

  /** The first occurrence in a prefix is the first occurrence in the whole sequence. */
  lemma {:induction false} FirstIndexPrefix<T(!new)>(xs: seq<T>, ys: seq<T>, x: T)
    requires x in xs
    ensures x in xs + ys && FirstIndex(xs + ys, x) == FirstIndex(xs, x)
  {
    if xs[0] != x {
      assert (xs + ys)[1..] == xs[1..] + ys;
      FirstIndexPrefix(xs[1..], ys, x);
    }
  }

  /** Appending a new element: its first occurrence is at the end. */
  lemma {:induction false} FirstIndexLast<T(!new)>(xs: seq<T>, x: T)
    requires x !in xs
    ensures FirstIndex(xs + [x], x) == |xs|
  {
    if xs != [] {
      assert (xs + [x])[1..] == xs[1..] + [x];
      FirstIndexLast(xs[1..], x);
    }
  }

  /** Dedup lists elements in the order of their first occurrence in the input. */
  lemma {:induction false} DedupFirstOccurrenceOrder<T(!new)>(xs: seq<T>)
    ensures forall i, j :: 0 <= i < j < |Dedup(xs)| ==>
      FirstIndex(xs, Dedup(xs)[i]) < FirstIndex(xs, Dedup(xs)[j])
  {
    if xs != [] {
      var init := xs[..|xs| - 1];
      var last := xs[|xs| - 1];
      assert xs == init + [last];
      DedupFirstOccurrenceOrder(init);
      var d := Dedup(init);
      forall y | y in d
        ensures FirstIndex(xs, y) == FirstIndex(init, y)
      {
        FirstIndexPrefix(init, [last], y);
      }
      if last !in d {
        FirstIndexLast(init, last);
      }
    }
  }

  /** `xs.join(sep)`. */
  function Join(xs: seq<string>, sep: string): (r: string)
    ensures |xs| == 1 ==> r == xs[0]
    ensures |xs| == 0 ==> r == ""
  {
    if |xs| == 0 then ""
    else if |xs| == 1 then xs[0]
    else xs[0] + sep + Join(xs[1..], sep)
  }

  /** The inverse of Join: cut s at every occurrence of sep. */
  function Split(s: string, sep: string): (r: seq<string>)
    requires |sep| > 0
    ensures |r| >= 1
    decreases |s|
  {
    if |s| < |sep| then [s]
    else if s[..|sep|] == sep then [""] + Split(s[|sep|..], sep)
    else
      var rest := Split(s[1..], sep);
      [[s[0]] + rest[0]] + rest[1..]
  }

  /** A text that cannot start a separator is one piece. */
  lemma {:induction false} SplitNoSeparator(x: string, sep: string)
    requires |sep| > 0 && sep[0] !in x
    ensures Split(x, sep) == [x]
  {
    if |x| >= |sep| {
      assert x[0] != sep[0];
      SplitNoSeparator(x[1..], sep);
      assert [x[0]] + x[1..] == x;
    }
  }

  /** The first piece ends at the first separator. */
  lemma {:induction false} SplitAtSeparator(x: string, sep: string, rest: string)
    requires |sep| > 0 && sep[0] !in x
    ensures Split(x + sep + rest, sep) == [x] + Split(rest, sep)
  {
    var s := x + sep + rest;
    if x == [] {
      assert s == sep + rest;
      assert s[..|sep|] == sep;
      assert s[|sep|..] == rest;
    } else {
      assert s[0] == x[0] != sep[0];
      assert s[..|sep|] != sep;
      assert s[1..] == x[1..] + sep + rest;
      SplitAtSeparator(x[1..], sep, rest);
      assert [x[0]] + x[1..] == x;
    }
  }

  /** Joining a non-empty list whose items do not contain the separator's first
      character loses nothing: splitting gives the items back. */
  lemma {:induction false} SplitJoin(xs: seq<string>, sep: string)
    requires |xs| > 0 && |sep| > 0
    requires forall i :: 0 <= i < |xs| ==> sep[0] !in xs[i]
    ensures Split(Join(xs, sep), sep) == xs
  {
    if |xs| == 1 {
      SplitNoSeparator(xs[0], sep);
    } else {
      SplitJoin(xs[1..], sep);
      SplitAtSeparator(xs[0], sep, Join(xs[1..], sep));
      assert [xs[0]] + xs[1..] == xs;
    }
  }
}
