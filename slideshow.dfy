/** The hero slideshow of the home page (src/pages/Home.jsx) and of its
    older, unrouted version (src/pages/Home_old.jsx): a cursor
    `currentSlide` into the non-empty list of featured properties. */
module Slideshow {

  /** The slide after `i`, wrapping from the last to the first:
      `(prev + 1) % properties.length`. */
  function NextIndex(i: nat, n: nat): (r: nat)
    requires i < n
    ensures r < n
    ensures r == if i == n - 1 then 0 else i + 1
  {
    (i + 1) % n
  }

  /** The slide before `i`, wrapping from the first to the last:
      `(prev - 1 + properties.length) % properties.length`. */
  function PrevIndex(i: nat, n: nat): (r: nat)
    requires i < n
    ensures r < n
    ensures r == if i == 0 then n - 1 else i - 1
  {
    (i - 1 + n) % n
  }

  /** Going forward and then back, or back and then forward, returns to
      the slide one started from. */
  lemma NextPrevInverse(i: nat, n: nat)
    requires i < n
    ensures PrevIndex(NextIndex(i, n), n) == i
    ensures NextIndex(PrevIndex(i, n), n) == i
  {
  }

  /** The slide reached from `i` after `k` steps forward. */
  function Advance(i: nat, k: nat, n: nat): (r: nat)
    requires i < n
    ensures r < n
  {
    if k == 0 then i else NextIndex(Advance(i, k - 1, n), n)
  }

  lemma MulSub(a: int, b: int, n: int)
    ensures (a - b) * n == a * n - b * n
  {
  }

  lemma MulAtLeast(d: int, n: int)
    requires d >= 1 && n > 0
    ensures d * n >= n
  {
  }

  /** Euclidean division has one remainder: `q * n + r` with `0 <= r < n`
      leaves `r`. */
  lemma ModUnique(a: int, n: int, q: int, r: int)
    requires n > 0 && 0 <= r < n && a == q * n + r
    ensures a % n == r
  {
    var q2, r2 := a / n, a % n;
    assert a == q2 * n + r2;
    MulSub(q, q2, n);
    MulSub(q2, q, n);
    if q > q2 {
      MulAtLeast(q - q2, n);
    } else if q2 > q {
      MulAtLeast(q2 - q, n);
    }
  }

  /** Stepping once from `x mod n` is the same as `(x + 1) mod n`. */
  lemma ModSucc(x: nat, n: nat)
    requires n > 0
    ensures NextIndex(x % n, n) == (x + 1) % n
  {
    var q, r := x / n, x % n;
    assert x == q * n + r;
    if r + 1 < n {
      ModUnique(x + 1, n, q, r + 1);
    } else {
      assert x + 1 == (q + 1) * n + 0;
      ModUnique(x + 1, n, q + 1, 0);
    }
  }

  /** `k` steps forward from slide `i` land on `(i + k) mod n`; in
      particular `k` auto-advance ticks from the first slide land on
      `k mod n`. */
  lemma {:induction false} AdvanceIsModular(i: nat, k: nat, n: nat)
    requires i < n
    ensures Advance(i, k, n) == (i + k) % n
  {
    if k > 0 {
      AdvanceIsModular(i, k - 1, n);
      ModSucc(i + k - 1, n);
    } else {
      ModUnique(i, n, 0, i);
    }
  }

  /** The `active` flag of each rendered slide: `index === currentSlide`. */
  function ActiveFlags(current: nat, n: nat): (flags: seq<bool>)
    ensures |flags| == n
    ensures forall i :: 0 <= i < n ==> (flags[i] <==> i == current)
  {
    seq(n, i => i == current)
  }

  function CountTrue(flags: seq<bool>): nat {
    if flags == [] then 0
    else (if flags[0] then 1 else 0) + CountTrue(flags[1..])
  }

  lemma {:induction false} CountTrueNone(flags: seq<bool>)
    requires forall i :: 0 <= i < |flags| ==> !flags[i]
    ensures CountTrue(flags) == 0
  {
    if flags != [] {
      CountTrueNone(flags[1..]);
    }
  }

  lemma {:induction false} CountTrueSingle(flags: seq<bool>, k: nat)
    requires k < |flags|
    requires forall i :: 0 <= i < |flags| ==> (flags[i] <==> i == k)
    ensures CountTrue(flags) == 1
  {
    if k == 0 {
      CountTrueNone(flags[1..]);
    } else {
      CountTrueSingle(flags[1..], k - 1);
    }
  }

  /** Exactly one slide is shown as active while the cursor is in range. */
  lemma ExactlyOneActive(current: nat, n: nat)
    requires current < n
    ensures CountTrue(ActiveFlags(current, n)) == 1
  {
    CountTrueSingle(ActiveFlags(current, n), current);
  }

  /** The slideshow state of one home page. `count` is
      `properties.length`, fixed while the page is mounted. */
  class HeroSlideshow {
    const count: nat
    /** The auto-advance period in milliseconds. */
    const intervalMs: nat
    var currentSlide: nat

    ghost predicate Valid()
      reads this
    {
      currentSlide < count
    }

    /** The cursor of src/pages/Home.jsx: first slide, a tick every 5 s. */
    constructor Home(count: nat)
      requires count > 0
      ensures Valid()
      ensures this.count == count && intervalMs == 5000 && currentSlide == 0
    {
      this.count := count;
      intervalMs := 5000;
      currentSlide := 0;
    }

    /** The cursor of src/pages/Home_old.jsx: first slide, a tick every 6 s. */
    constructor HomeOld(count: nat)
      requires count > 0
      ensures Valid()
      ensures this.count == count && intervalMs == 6000 && currentSlide == 0
    {
      this.count := count;
      intervalMs := 6000;
      currentSlide := 0;
    }

    /** The right arrow. */
    method NextSlide()
      requires Valid()
      modifies this
      ensures Valid()
      ensures currentSlide == NextIndex(old(currentSlide), count)
    {
      currentSlide := (currentSlide + 1) % count;
    }

    /** The left arrow. */
    method PrevSlide()
      requires Valid()
      modifies this
      ensures Valid()
      ensures currentSlide == PrevIndex(old(currentSlide), count)
    {
      currentSlide := (currentSlide - 1 + count) % count;
    }

    /** The interval callback: the same update as the right arrow. */
    method Tick()
      requires Valid()
      modifies this
      ensures Valid()
      ensures currentSlide == NextIndex(old(currentSlide), count)
    {
      currentSlide := (currentSlide + 1) % count;
    }

    /** An indicator dot or a thumbnail: `setCurrentSlide(index)`, where
        `index` comes from mapping over the same list of properties. */
    method Select(index: nat)
      requires Valid() && index < count
      modifies this
      ensures Valid()
      ensures currentSlide == index
      ensures IsActive(index)
    {
      currentSlide := index;
    }

    /** Whether slide `index` is rendered as the active one. */
    predicate IsActive(index: nat)
      reads this
    {
      index == currentSlide
    }
  }

  /** The page's active flags are ActiveFlags of its cursor, so exactly one
      slide, the cursor's, is rendered as active. */
  lemma OneSlideActive(s: HeroSlideshow)
    requires s.Valid()
    ensures forall i :: 0 <= i < s.count ==> (s.IsActive(i) <==> ActiveFlags(s.currentSlide, s.count)[i])
    ensures CountTrue(ActiveFlags(s.currentSlide, s.count)) == 1
    ensures s.IsActive(s.currentSlide)
    ensures forall i, j :: 0 <= i < s.count && 0 <= j < s.count && s.IsActive(i) && s.IsActive(j) ==> i == j
  {
    ExactlyOneActive(s.currentSlide, s.count);
  }
}
