/** Sequences of instants, and how many fall in an interval. */
module Times {
  /** How many of these times lie in [lo, hi). */
  function Count(h: seq<int>, lo: int, hi: int): nat {
    if h == [] then 0
    else Count(h[..|h| - 1], lo, hi) + (if lo <= h[|h| - 1] < hi then 1 else 0)
  }

  ghost predicate Sorted(times: seq<int>) {
    forall i, j :: 0 <= i < j < |times| ==> times[i] <= times[j]
  }

  lemma {:induction false} CountSplit(h: seq<int>, lo: int, mid: int, hi: int)
    requires lo <= mid <= hi
    ensures Count(h, lo, hi) == Count(h, lo, mid) + Count(h, mid, hi)
  {
    if h != [] { CountSplit(h[..|h| - 1], lo, mid, hi); }
  }

  lemma {:induction false} CountWider(h: seq<int>, lo: int, hi: int, lo': int, hi': int)
    requires lo' <= lo && hi <= hi'
    ensures Count(h, lo, hi) <= Count(h, lo', hi')
  {
    if h != [] { CountWider(h[..|h| - 1], lo, hi, lo', hi'); }
  }

  lemma SortedAppend(h: seq<int>, x: int)
    requires Sorted(h) && forall t :: t in h ==> t <= x
    ensures Sorted(h + [x])
  {
    forall i | 0 <= i < |h| ensures h[i] <= x { assert h[i] in h; }
  }

  lemma {:induction false} NoneAbove(h: seq<int>, lo: int, hi: int)
    requires forall i :: 0 <= i < |h| ==> h[i] < lo
    ensures Count(h, lo, hi) == 0
  {
    if h != [] { NoneAbove(h[..|h| - 1], lo, hi); }
  }

  lemma {:induction false} CountAppend(a: seq<int>, b: seq<int>, lo: int, hi: int)
    ensures Count(a + b, lo, hi) == Count(a, lo, hi) + Count(b, lo, hi)
  {
    if b == [] {
      assert a + b == a;
    } else {
      assert (a + b)[..|a + b| - 1] == a + b[..|b| - 1];
      CountAppend(a, b[..|b| - 1], lo, hi);
    }
  }

  function Repeat(t: int, n: nat): seq<int> {
    if n == 0 then [] else Repeat(t, n - 1) + [t]
  }

  lemma {:induction false} CountRepeat(t: int, n: nat, lo: int, hi: int)
    ensures Count(Repeat(t, n), lo, hi) == if lo <= t < hi then n else 0
    ensures |Repeat(t, n)| == n && forall x :: x in Repeat(t, n) ==> x == t
  {
    if n > 0 {
      CountRepeat(t, n - 1, lo, hi);
    }
  }
}
