/** The array methods the stores and pages use: `filter`, `map` with a per-element choice, `slice`. */
module Seqs {
  import opened Wrappers

  /** `sub` is `xs` with some elements left out: what remains keeps its order. */
  ghost predicate IsSubsequence<T>(sub: seq<T>, xs: seq<T>)
    decreases |xs|
  {
    sub == [] || (xs != [] && ((sub[0] == xs[0] && IsSubsequence(sub[1..], xs[1..])) || IsSubsequence(sub, xs[1..])))
  }

  /** Every sequence is a subsequence of itself. */
  lemma {:induction false} SubsequenceOfItself<T>(xs: seq<T>)
    ensures IsSubsequence(xs, xs)
    decreases |xs|
  {
    if xs != [] {
      SubsequenceOfItself(xs[1..]);
    }
  }

  /** `xs.filter(keep)`: the elements that pass, in their original order. */
  function Filter<T>(xs: seq<T>, keep: T -> bool): (r: seq<T>)
    ensures |r| <= |xs|
    ensures forall i :: 0 <= i < |r| ==> r[i] in xs && keep(r[i])
    ensures forall i :: 0 <= i < |xs| && keep(xs[i]) ==> xs[i] in r
    ensures multiset(r) <= multiset(xs)
  {
    if xs == [] then []
    else
      assert xs == [xs[0]] + xs[1..];
      (if keep(xs[0]) then [xs[0]] else []) + Filter(xs[1..], keep)
  }

  /** The filter keeps the survivors in their original order. */
  lemma {:induction false} FilterInOrder<T>(xs: seq<T>, keep: T -> bool)
    ensures IsSubsequence(Filter(xs, keep), xs)
    decreases |xs|
  {
    if xs != [] {
      FilterInOrder(xs[1..], keep);
      var rest := Filter(xs[1..], keep);
      if keep(xs[0]) {
        assert Filter(xs, keep) == [xs[0]] + rest;
        assert ([xs[0]] + rest)[1..] == rest;
      } else {
        assert Filter(xs, keep) == rest;
      }
    }
  }

  /** The elements of a filtered sequence are exactly the kept elements of the original. */
  lemma FilterMembers<T>(xs: seq<T>, keep: T -> bool)
    ensures forall x :: x in Filter(xs, keep) <==> x in xs && keep(x)
  {
    var r := Filter(xs, keep);
    forall x | x in xs && keep(x) ensures x in r {
      var i :| 0 <= i < |xs| && xs[i] == x;
    }
  }

  /** Filtering commutes with concatenation, so the kept elements stay in their relative order. */
  lemma {:induction false} FilterConcat<T>(a: seq<T>, b: seq<T>, keep: T -> bool)
    ensures Filter(a + b, keep) == Filter(a, keep) + Filter(b, keep)
  {
    if a == [] {
      assert a + b == b;
    } else {
      assert (a + b)[1..] == a[1..] + b;
      FilterConcat(a[1..], b, keep);
    }
  }

  /** A filter that every element passes changes nothing. */
  lemma {:induction false} FilterKeepsAll<T>(xs: seq<T>, keep: T -> bool)
    requires forall i :: 0 <= i < |xs| ==> keep(xs[i])
    ensures Filter(xs, keep) == xs
  {
    if xs != [] {
      FilterKeepsAll(xs[1..], keep);
    }
  }

  /** A filter that no element passes leaves nothing. */
  lemma {:induction false} FilterDropsAll<T>(xs: seq<T>, keep: T -> bool)
    requires forall i :: 0 <= i < |xs| ==> !keep(xs[i])
    ensures Filter(xs, keep) == []
  {
    if xs != [] {
      FilterDropsAll(xs[1..], keep);
    }
  }

  /** Filtering a list whose front all passes and whose back all fails gives the front. */
  lemma FilterSplit<T>(front: seq<T>, back: seq<T>, keep: T -> bool)
    requires forall i :: 0 <= i < |front| ==> keep(front[i])
    requires forall i :: 0 <= i < |back| ==> !keep(back[i])
    ensures Filter(front + back, keep) == front
  {
    FilterConcat(front, back, keep);
    FilterKeepsAll(front, keep);
    FilterDropsAll(back, keep);
    assert front + [] == front;
  }

  /** Filtering a list whose front all fails and whose back all passes gives the back. */
  lemma FilterSplitBack<T>(front: seq<T>, back: seq<T>, keep: T -> bool)
    requires forall i :: 0 <= i < |front| ==> !keep(front[i])
    requires forall i :: 0 <= i < |back| ==> keep(back[i])
    ensures Filter(front + back, keep) == back
  {
    FilterConcat(front, back, keep);
    FilterKeepsAll(back, keep);
    FilterDropsAll(front, keep);
    assert [] + back == back;
  }

  /** Appending an element the filter drops to a list it keeps whole, then filtering, gives the list back. */
  lemma FilterDropsAppended<T>(xs: seq<T>, x: T, keep: T -> bool)
    requires forall i :: 0 <= i < |xs| ==> keep(xs[i])
    requires !keep(x)
    ensures Filter(xs + [x], keep) == xs
  {
    FilterConcat(xs, [x], keep);
    FilterKeepsAll(xs, keep);
    assert Filter([x], keep) == [] by {
      assert [x][1..] == [];
    }
  }

  /** Filtering twice with the same test is filtering once. */
  lemma FilterIdempotent<T>(xs: seq<T>, keep: T -> bool)
    ensures Filter(Filter(xs, keep), keep) == Filter(xs, keep)
  {
    var r := Filter(xs, keep);
    forall i | 0 <= i < |r| ensures keep(r[i]) {
      assert r[i] in r;
    }
    FilterKeepsAll(r, keep);
  }

  /** How many elements pass `keep`. */
  function Count<T>(xs: seq<T>, keep: T -> bool): (n: nat)
    ensures n <= |xs|
    ensures n == |Filter(xs, keep)|
  {
    if xs == [] then 0 else (if keep(xs[0]) then 1 else 0) + Count(xs[1..], keep)
  }

  /** An ordered selection of passing elements has at most as many elements as pass. */
  lemma {:induction false} KeptSubsequenceBound<T>(sub: seq<T>, xs: seq<T>, keep: T -> bool)
    ensures IsSubsequence(sub, xs) && (forall i :: 0 <= i < |sub| ==> keep(sub[i])) ==> |sub| <= Count(xs, keep)
    decreases |xs|
  {
    if sub != [] && xs != [] {
      KeptSubsequenceBound(sub[1..], xs[1..], keep);
      KeptSubsequenceBound(sub, xs[1..], keep);
      assert forall i :: 0 <= i < |sub| - 1 ==> sub[1..][i] == sub[i + 1];
    }
  }

  /** Sequences that agree on their first element and on the rest are equal. */
  lemma SameHeadAndTail<T>(a: seq<T>, b: seq<T>)
    requires a != [] && b != [] && a[0] == b[0] && a[1..] == b[1..]
    ensures a == b
  {
    assert a == [a[0]] + a[1..] && b == [b[0]] + b[1..];
  }

  /** A passing element at the head of `xs` opens every ordered selection that leaves no passing element out. */
  lemma KeptSubsequenceHead<T>(sub: seq<T>, xs: seq<T>, keep: T -> bool)
    requires xs != [] && sub != [] && keep(xs[0])
    requires IsSubsequence(sub, xs) && (forall i :: 0 <= i < |sub| ==> keep(sub[i])) && |sub| == Count(xs, keep)
    ensures sub[0] == xs[0] && IsSubsequence(sub[1..], xs[1..])
    ensures (forall i :: 0 <= i < |sub[1..]| ==> keep(sub[1..][i])) && |sub[1..]| == Count(xs[1..], keep)
  {
    KeptSubsequenceBound(sub, xs[1..], keep);
    assert forall i :: 0 <= i < |sub| - 1 ==> sub[1..][i] == sub[i + 1];
  }

  /** A failing element at the head of `xs` is in no ordered selection of passing elements. */
  lemma KeptSubsequenceSkip<T>(sub: seq<T>, xs: seq<T>, keep: T -> bool)
    requires xs != [] && !keep(xs[0])
    requires IsSubsequence(sub, xs) && (forall i :: 0 <= i < |sub| ==> keep(sub[i])) && |sub| == Count(xs, keep)
    ensures IsSubsequence(sub, xs[1..]) && |sub| == Count(xs[1..], keep)
  {
  }

  /** Two ordered selections of passing elements that leave none out are the same. */
  lemma {:induction false} KeptSubsequenceUnique<T>(a: seq<T>, b: seq<T>, xs: seq<T>, keep: T -> bool)
    requires IsSubsequence(a, xs) && (forall i :: 0 <= i < |a| ==> keep(a[i])) && |a| == Count(xs, keep)
    requires IsSubsequence(b, xs) && (forall i :: 0 <= i < |b| ==> keep(b[i])) && |b| == Count(xs, keep)
    ensures a == b
    decreases |xs|
  {
    if xs != [] && a != [] {
      if keep(xs[0]) {
        KeptSubsequenceHead(a, xs, keep);
        KeptSubsequenceHead(b, xs, keep);
        KeptSubsequenceUnique(a[1..], b[1..], xs[1..], keep);
        SameHeadAndTail(a, b);
      } else {
        KeptSubsequenceSkip(a, xs, keep);
        KeptSubsequenceSkip(b, xs, keep);
        KeptSubsequenceUnique(a, b, xs[1..], keep);
      }
    }
  }

  /**
   * The filter's result is the only ordered selection of passing elements
   * that leaves none out: order, membership and count together pin it down.
   */
  lemma KeptSubsequenceIsFilter<T>(sub: seq<T>, xs: seq<T>, keep: T -> bool)
    requires IsSubsequence(sub, xs)
    requires forall i :: 0 <= i < |sub| ==> keep(sub[i])
    requires |sub| == Count(xs, keep)
    ensures sub == Filter(xs, keep)
  {
    var r := Filter(xs, keep);
    FilterInOrder(xs, keep);
    KeptSubsequenceUnique(sub, r, xs, keep);
  }

  /**
   * `sub` is exactly the elements of `xs` that pass `keep`: all of them pass,
   * they keep their order, and none that passes is left out.
   */
  ghost predicate IsSelection<T>(sub: seq<T>, xs: seq<T>, keep: T -> bool)
  {
    IsSubsequence(sub, xs) && (forall i :: 0 <= i < |sub| ==> keep(sub[i])) && |sub| == Count(xs, keep)
  }

  /** The filter selects; with `KeptSubsequenceIsFilter`, a selection is the filter. */
  lemma FilterIsSelection<T>(xs: seq<T>, keep: T -> bool)
    ensures IsSelection(Filter(xs, keep), xs, keep)
  {
    FilterInOrder(xs, keep);
  }

  /** Nothing is counted exactly when no element passes. */
  lemma {:induction false} CountZeroIff<T>(xs: seq<T>, keep: T -> bool)
    ensures Count(xs, keep) == 0 <==> forall i :: 0 <= i < |xs| ==> !keep(xs[i])
  {
    if xs != [] {
      CountZeroIff(xs[1..], keep);
      assert forall i :: 1 <= i < |xs| ==> xs[i] == xs[1..][i - 1];
    }
  }

  /** Elements that fail `hit` are exactly those that pass its complement `miss`. */
  lemma {:induction false} CountComplement<T>(xs: seq<T>, hit: T -> bool, miss: T -> bool)
    requires forall x :: miss(x) == !hit(x)
    ensures |Filter(xs, miss)| == |xs| - Count(xs, hit)
  {
    if xs != [] {
      CountComplement(xs[1..], hit, miss);
    }
  }

  /** `xs.map(x => hit(x) ? f(x) : x)`. */
  function MapWhere<T>(xs: seq<T>, hit: T -> bool, f: T -> T): (r: seq<T>)
    ensures |r| == |xs|
    ensures forall i :: 0 <= i < |xs| ==> r[i] == if hit(xs[i]) then f(xs[i]) else xs[i]
  {
    seq(|xs|, i requires 0 <= i < |xs| => if hit(xs[i]) then f(xs[i]) else xs[i])
  }

  /** A per-element rewrite that can only turn a counted element into an uncounted one never raises the count. */
  lemma {:induction false} CountMapWhereNoMore<T>(xs: seq<T>, hit: T -> bool, f: T -> T, counted: T -> bool)
    requires forall x :: hit(x) && counted(f(x)) ==> counted(x)
    ensures Count(MapWhere(xs, hit, f), counted) <= Count(xs, counted)
  {
    if xs != [] {
      assert MapWhere(xs, hit, f)[1..] == MapWhere(xs[1..], hit, f);
      CountMapWhereNoMore(xs[1..], hit, f, counted);
    }
  }

  /** `xs.find(p)`: the first element that passes, if any. */
  function Find<T>(xs: seq<T>, p: T -> bool): (r: Option<T>)
    ensures r.Some? ==> r.value in xs && p(r.value)
    ensures r.None? <==> forall i :: 0 <= i < |xs| ==> !p(xs[i])
  {
    if xs == [] then None
    else if p(xs[0]) then Some(xs[0])
    else Find(xs[1..], p)
  }

  /** What `Find` returns is the first passing element: everything before it fails. */
  lemma {:induction false} FindIsFirst<T>(xs: seq<T>, p: T -> bool)
    ensures Find(xs, p).Some? ==>
      exists i :: 0 <= i < |xs| && xs[i] == Find(xs, p).value && forall j :: 0 <= j < i ==> !p(xs[j])
  {
    if xs != [] && !p(xs[0]) {
      FindIsFirst(xs[1..], p);
      var r := Find(xs[1..], p);
      if r.Some? {
        var i :| 0 <= i < |xs| - 1 && xs[1..][i] == r.value && forall j :: 0 <= j < i ==> !p(xs[1..][j]);
        assert xs[i + 1] == r.value;
        forall j | 0 <= j < i + 1 ensures !p(xs[j]) {
          if j > 0 { assert xs[j] == xs[1..][j - 1]; }
        }
      }
    } else if xs != [] {
      assert xs[0] == Find(xs, p).value;
    }
  }

  /** `xs.map(f)`. */
  function Map<T, U>(xs: seq<T>, f: T -> U): (r: seq<U>)
    ensures |r| == |xs|
    ensures forall i :: 0 <= i < |xs| ==> r[i] == f(xs[i])
  {
    seq(|xs|, i requires 0 <= i < |xs| => f(xs[i]))
  }

  /** The index `Array.prototype.slice` uses for a start or end argument. */
  function SliceIndex(k: int, len: nat): (i: nat)
    ensures i <= len
    ensures 0 <= k <= len ==> i == k
  {
    if k < 0 then (if len + k < 0 then 0 else len + k) else if k > len then len else k
  }

  /** `xs.slice(start, end)`: negative positions count from the end, out-of-range ones are clamped. */
  function Slice<T>(xs: seq<T>, start: int, end: int): (r: seq<T>)
    ensures |r| <= |xs|
    ensures 0 <= start <= end <= |xs| ==> r == xs[start..end]
  {
    var i := SliceIndex(start, |xs|);
    var j := SliceIndex(end, |xs|);
    if i < j then xs[i..j] else []
  }

  /** `xs.slice(0, n)` for `n >= 0`: the first `n` elements, or all of them. */
  function Take<T>(xs: seq<T>, n: nat): (r: seq<T>)
    ensures |r| == if n < |xs| then n else |xs|
    ensures r <= xs
  {
    Slice(xs, 0, n)
  }
}
