/**
 * Generic collection helpers shared by the screens: an Option type, the
 * `Array.prototype.filter` and `Array.prototype.slice` operations the
 * screens apply to their lists, and the page arithmetic of the tables.
 */
module Common {

  datatype Option<+T> = None | Some(value: T) {
    /** `x || fallback` for an optional value. */
    function GetOr(default: T): T {
      match this
      case Some(v) => v
      case None => default
    }
  }

  /** The MUI palette names the status chips use. */
  datatype Color = Default | Primary | Info | Success | Warning | Error

  /** A toast shown to the operator. */
  datatype Notice = Succeeded(message: string) | Failed(message: string)

  function Min(a: int, b: int): int { if a <= b then a else b }

  lemma EmptyAppend<T>(a: seq<T>)
    ensures [] + a == a && a + [] == a
  {
  }

  /** Slicing a suffix is slicing the whole sequence further on. */
  lemma SuffixSlices<T>(s: seq<T>, i: nat, k: nat)
    requires i + k <= |s|
    ensures s[i..][..k] == s[i..i + k] && s[i..][k..] == s[i + k..]
  {
  }

  lemma AppendAssoc<T>(a: seq<T>, b: seq<T>, c: seq<T>)
    ensures a + b + c == a + (b + c)
  {
  }

  /** `a` can be obtained from `b` by deleting elements. */
  predicate IsSubsequence<T(==)>(a: seq<T>, b: seq<T>)
    decreases |b|
  {
    a == [] || (b != [] && ((a[0] == b[0] && IsSubsequence(a[1..], b[1..])) || IsSubsequence(a, b[1..])))
  }

  lemma {:induction false} SubsequenceTrans<T>(a: seq<T>, b: seq<T>, c: seq<T>)
    requires IsSubsequence(a, b) && IsSubsequence(b, c)
    ensures IsSubsequence(a, c)
    decreases |c|
  {
    if a != [] {
      if IsSubsequence(b, c[1..]) {
        SubsequenceTrans(a, b, c[1..]);
      } else if a[0] == b[0] && IsSubsequence(a[1..], b[1..]) {
        SubsequenceTrans(a[1..], b[1..], c[1..]);
      } else {
        SubsequenceTrans(a, b[1..], c[1..]);
      }
    }
  }

  /** `xs.filter(keep)`: the elements of `xs` that satisfy `keep`, in their original order. */
  function Filter<T(==)>(xs: seq<T>, keep: T -> bool): (r: seq<T>)
    ensures |r| <= |xs|
  {
    if xs == [] then []
    else if keep(xs[0]) then [xs[0]] + Filter(xs[1..], keep)
    else Filter(xs[1..], keep)
  }

  /** The kept elements keep their order. */
  lemma {:induction false} FilterSubsequence<T>(xs: seq<T>, keep: T -> bool)
    ensures IsSubsequence(Filter(xs, keep), xs)
  {
    if xs != [] {
      FilterSubsequence(xs[1..], keep);
      if keep(xs[0]) {
        assert Filter(xs, keep)[1..] == Filter(xs[1..], keep);
      }
    }
  }

  /** An element is kept exactly when it is in the list and satisfies the predicate. */
  lemma {:induction false} FilterMembers<T>(xs: seq<T>, keep: T -> bool)
    ensures forall x :: x in Filter(xs, keep) <==> x in xs && keep(x)
  {
    if xs != [] {
      FilterMembers(xs[1..], keep);
      assert xs == [xs[0]] + xs[1..];
    }
  }

  /** Every kept element is kept as many times as it occurs, and every other one not at all. */
  lemma {:induction false} FilterCounts<T>(xs: seq<T>, keep: T -> bool)
    ensures forall x :: multiset(Filter(xs, keep))[x] == if keep(x) then multiset(xs)[x] else 0
  {
    if xs != [] {
      FilterCounts(xs[1..], keep);
      assert xs == [xs[0]] + xs[1..];
      assert multiset(xs) == multiset([xs[0]]) + multiset(xs[1..]);
      if keep(xs[0]) {
        assert multiset(Filter(xs, keep)) == multiset([xs[0]]) + multiset(Filter(xs[1..], keep));
      }
    }
  }

  /** Filtering twice is filtering once by the conjunction of both predicates. */
  lemma {:induction false} FilterTwice<T>(xs: seq<T>, p: T -> bool, q: T -> bool, both: T -> bool)
    requires forall i :: 0 <= i < |xs| ==> both(xs[i]) == (p(xs[i]) && q(xs[i]))
    ensures Filter(Filter(xs, p), q) == Filter(xs, both)
  {
    if xs != [] {
      FilterTwice(xs[1..], p, q, both);
      if p(xs[0]) {
        assert Filter(xs, p) == [xs[0]] + Filter(xs[1..], p);
        assert ([xs[0]] + Filter(xs[1..], p))[1..] == Filter(xs[1..], p);
      }
    }
  }

  /** Two predicates that agree on every element keep the same elements. */
  lemma {:induction false} FilterSame<T>(xs: seq<T>, p: T -> bool, q: T -> bool)
    requires forall i :: 0 <= i < |xs| ==> p(xs[i]) == q(xs[i])
    ensures Filter(xs, p) == Filter(xs, q)
  {
    if xs != [] {
      FilterSame(xs[1..], p, q);
    }
  }

  /** A predicate that holds of every element keeps the list as it is. */
  lemma {:induction false} FilterAll<T>(xs: seq<T>, keep: T -> bool)
    requires forall i :: 0 <= i < |xs| ==> keep(xs[i])
    ensures Filter(xs, keep) == xs
  {
    if xs != [] {
      FilterAll(xs[1..], keep);
    }
  }

  /** `xs.findIndex(p)`, as an optional index: the first element satisfying `p`. */
  function FindFirst<T>(xs: seq<T>, p: T -> bool): (r: Option<nat>)
    ensures r.Some? ==> r.value < |xs| && p(xs[r.value]) && forall j :: 0 <= j < r.value ==> !p(xs[j])
    ensures r.None? ==> forall j :: 0 <= j < |xs| ==> !p(xs[j])
  {
    if xs == [] then None
    else if p(xs[0]) then Some(0)
    else match FindFirst(xs[1..], p)
      case None => None
      case Some(i) => Some(i + 1)
  }

  /**
   * `xs.slice(start, end)` for non-negative bounds: both bounds are clamped
   * to the length, and a start past the end gives the empty list.
   */
  function Slice<T>(xs: seq<T>, start: nat, end: nat): (r: seq<T>)
    ensures |r| == if Min(start, |xs|) <= Min(end, |xs|) then Min(end, |xs|) - Min(start, |xs|) else 0
    ensures forall k :: 0 <= k < |r| ==> start + k < |xs| && r[k] == xs[start + k]
  {
    var lo := Min(start, |xs|);
    var hi := Min(end, |xs|);
    if lo <= hi then xs[lo..hi] else []
  }

  /** `r` is page `page` of `xs`: at most `rowsPerPage` rows, the `k`-th being row `page * rowsPerPage + k`. */
  ghost predicate IsPageOf<T>(r: seq<T>, xs: seq<T>, page: nat, rowsPerPage: nat) {
    && |r| <= rowsPerPage
    && forall k :: 0 <= k < |r| ==> page * rowsPerPage + k < |xs| && r[k] == xs[page * rowsPerPage + k]
  }

  /** The rows a table shows on page `page` with `rowsPerPage` rows per page. */
  function Page<T>(xs: seq<T>, page: nat, rowsPerPage: nat): (r: seq<T>)
    ensures IsPageOf(r, xs, page, rowsPerPage)
  {
    Slice(xs, page * rowsPerPage, page * rowsPerPage + rowsPerPage)
  }

  /** Every row of the list appears on exactly the page its index determines. */
  lemma PageShowsEveryRow<T>(xs: seq<T>, rowsPerPage: nat, i: nat)
    requires rowsPerPage > 0 && i < |xs|
    ensures var p := Page(xs, i / rowsPerPage, rowsPerPage);
            i % rowsPerPage < |p| && p[i % rowsPerPage] == xs[i]
  {
    var q, k := i / rowsPerPage, i % rowsPerPage;
    assert q * rowsPerPage + k == i;
    assert q * rowsPerPage + rowsPerPage > i;
  }

  /** The number of pages the pagination control offers for `n` rows. */
  function PageCount(n: nat, rowsPerPage: nat): nat
    requires rowsPerPage > 0
  {
    (n + rowsPerPage - 1) / rowsPerPage
  }

  /** Concatenating pages `first` .. `stop - 1`. */
  function Pages<T>(xs: seq<T>, first: nat, stop: nat, rowsPerPage: nat): seq<T>
    decreases stop - first
  {
    if first >= stop then [] else Page(xs, first, rowsPerPage) + Pages(xs, first + 1, stop, rowsPerPage)
  }

  /** Reading the pages one after the other gives back the whole list, in order. */
  lemma PagesConcatenate<T>(xs: seq<T>, rowsPerPage: nat)
    requires rowsPerPage > 0
    ensures Pages(xs, 0, PageCount(|xs|, rowsPerPage), rowsPerPage) == xs
  {
    var n := PageCount(|xs|, rowsPerPage);
    assert n * rowsPerPage >= |xs| by {
      var r := (|xs| + rowsPerPage - 1) % rowsPerPage;
      assert n * rowsPerPage + r == |xs| + rowsPerPage - 1;
    }
    PagesFrom(xs, 0, n, rowsPerPage, 0);
  }

  /** Pages `first` .. `stop - 1` hold everything from `start`, the first row of page `first`, on. */
  lemma {:induction false} PagesFrom<T>(xs: seq<T>, first: nat, stop: nat, rowsPerPage: nat, start: nat)
    requires rowsPerPage > 0 && first <= stop && start == first * rowsPerPage
    requires stop * rowsPerPage >= |xs|
    ensures Pages(xs, first, stop, rowsPerPage) == xs[Min(start, |xs|)..]
    decreases stop - first
  {
    if first < stop {
      var end := start + rowsPerPage;
      MulSucc(first, rowsPerPage);
      PagesFrom(xs, first + 1, stop, rowsPerPage, end);
      var lo, hi := Min(start, |xs|), Min(end, |xs|);
      assert Page(xs, first, rowsPerPage) == xs[lo..hi];
      SliceSplit(xs, lo, hi);
    }
  }

  lemma MulSucc(a: nat, b: nat)
    ensures (a + 1) * b == a * b + b
  {
  }

  lemma SliceSplit<T>(xs: seq<T>, lo: nat, hi: nat)
    requires lo <= hi <= |xs|
    ensures xs[lo..hi] + xs[hi..] == xs[lo..]
  {
  }
}
