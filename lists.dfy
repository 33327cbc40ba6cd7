/** The array operations the pages use: `filter`, `find`, `slice(0, k)`. */
module Lists {
  import opened Options

  /** `xs.filter(keep)`: exactly the elements that pass, each as often as
      it occurs in `xs`. Their relative order is the one they had in `xs`
      (see FilterAppend). */
  function Filter<T(!new)>(xs: seq<T>, keep: T -> bool): (r: seq<T>)
    ensures |r| <= |xs|
    ensures forall x :: x in r <==> x in xs && keep(x)
    ensures forall x :: multiset(r)[x] == if keep(x) then multiset(xs)[x] else 0
  {
    if xs == [] then []
    else
      assert xs == [xs[0]] + xs[1..];
      if keep(xs[0]) then [xs[0]] + Filter(xs[1..], keep)
      else Filter(xs[1..], keep)
  }

  /** Filtering commutes with concatenation: an element kept from an
      earlier part of the list stays before one kept from a later part. */
  lemma {:induction false} FilterAppend<T(!new)>(a: seq<T>, b: seq<T>, keep: T -> bool)
    ensures Filter(a + b, keep) == Filter(a, keep) + Filter(b, keep)
  {
    if a == [] {
      assert a + b == b;
    } else {
      assert (a + b)[0] == a[0];
      assert (a + b)[1..] == a[1..] + b;
      FilterAppend(a[1..], b, keep);
    }
  }

  /** A filter every element passes returns the list unchanged. */
  lemma {:induction false} FilterAll<T(!new)>(xs: seq<T>, keep: T -> bool)
    requires forall i :: 0 <= i < |xs| ==> keep(xs[i])
    ensures Filter(xs, keep) == xs
  {
    if xs != [] {
      FilterAll(xs[1..], keep);
    }
  }

  /** Filtering by `keep` and then by `also` keeps what passes both. */
  lemma {:induction false} FilterFilter<T(!new)>(xs: seq<T>, keep: T -> bool, also: T -> bool, both: T -> bool)
    requires forall x :: both(x) == (keep(x) && also(x))
    ensures Filter(Filter(xs, keep), also) == Filter(xs, both)
  {
    if xs != [] {
      FilterFilter(xs[1..], keep, also, both);
    }
  }

  /** `xs.findIndex(p)`, with `None` for JavaScript's -1: the position of
      the first element that satisfies `p`. */
  function FindFirst<T>(xs: seq<T>, p: T -> bool): (r: Option<nat>)
    ensures r.Some? ==> r.value < |xs| && p(xs[r.value])
    ensures r.Some? ==> forall j :: 0 <= j < r.value ==> !p(xs[j])
    ensures r.None? <==> forall j :: 0 <= j < |xs| ==> !p(xs[j])
  {
    if xs == [] then None
    else if p(xs[0]) then Some(0)
    else
      match FindFirst(xs[1..], p)
      case None => None
      case Some(i) => Some(i + 1)
  }

  /** `xs.find(p)`: the first element satisfying `p`, or `undefined`. */
  function Find<T>(xs: seq<T>, p: T -> bool): (r: Option<T>)
    ensures r.Some? <==> exists i :: 0 <= i < |xs| && p(xs[i])
    ensures r.Some? ==> r.value in xs && p(r.value)
  {
    match FindFirst(xs, p)
    case None => None
    case Some(i) => Some(xs[i])
  }

  /** `xs.slice(0, k)`: the first `k` elements, or all of them. */
  function Take<T>(xs: seq<T>, k: nat): (r: seq<T>)
    ensures |r| == if |xs| < k then |xs| else k
    ensures r <= xs
    ensures forall x :: x in r ==> x in xs
  {
    if |xs| <= k then xs else xs[..k]
  }

  /** `xs.map(f)` for a callback that may throw: every result in order,
      or the failure of the first element whose callback throws. */
  function MapAll<T, U>(xs: seq<T>, f: T -> Result<U>): (r: Result<seq<U>>)
    ensures r.Success? <==> forall i :: 0 <= i < |xs| ==> f(xs[i]).Success?
    ensures r.Success? ==> |r.value| == |xs| && forall i :: 0 <= i < |xs| ==> r.value[i] == f(xs[i]).value
    ensures r.Failure? ==>
      exists i :: 0 <= i < |xs| && f(xs[i]) == Failure(r.error) &&
                  forall j :: 0 <= j < i ==> f(xs[j]).Success?
  {
    if xs == [] then Success([])
    else match f(xs[0])
      case Failure(e) => Failure(e)
      case Success(y) =>
        match MapAll(xs[1..], f)
        case Failure(e) =>
          ghost var i :| 0 <= i < |xs[1..]| && f(xs[1..][i]) == Failure(e) &&
            forall j :: 0 <= j < i ==> f(xs[1..][j]).Success?;
          assert f(xs[i + 1]) == Failure(e);
          Failure(e)
        case Success(ys) =>
          assert forall i :: 1 <= i < |xs| ==> xs[i] == xs[1..][i - 1];
          Success([y] + ys)
  }
}
