/** The rolling average of recent job durations behind every waiting-time estimate. */
module Eta {
  import opened Wrappers
  import opened Seqs

  const DEFAULT_WINDOW: nat := 20

  /** The window New settles on. */
  function Window(requested: int): (w: nat)
    ensures w >= 1
  {
    if requested < 1 then DEFAULT_WINDOW else requested
  }

  /** One Record call on the samples. */
  function Recorded(samples: seq<int>, window: nat, d: int): seq<int> {
    if d <= 0 then samples else Last(samples + [d], window)
  }

  /** The samples after a whole history of Record calls on a new tracker. */
  function Replay(history: seq<int>, window: nat): seq<int> {
    if history == [] then []
    else Recorded(Replay(history[..|history| - 1], window), window, history[|history| - 1])
  }

  function Positives(history: seq<int>): seq<int> {
    if history == [] then []
    else
      Positives(history[..|history| - 1]) +
      (if history[|history| - 1] > 0 then [history[|history| - 1]] else [])
  }

  function Sum(s: seq<int>): int {
    if s == [] then 0 else Sum(s[..|s| - 1]) + s[|s| - 1]
  }

  /** The mean of the samples, or None while there are none. */
  function Mean(samples: seq<int>): Option<int> {
    if samples == [] then None else Some(Sum(samples) / |samples|)
  }

  /** The samples are always the last `window` positive durations of the whole history. */
  lemma {:induction false} ReplayIsWindow(history: seq<int>, window: nat)
    ensures Replay(history, window) == Last(Positives(history), window)
  {
    if history != [] {
      var before := history[..|history| - 1];
      ReplayIsWindow(before, window);
      LastOfLast(Positives(before), window, history[|history| - 1]);
    }
  }

  /** Only a duration above 0 counts, each once. */
  lemma {:induction false} PositivesConcat(a: seq<int>, b: seq<int>)
    ensures Positives(a + b) == Positives(a) + Positives(b)
  {
    if b == [] {
      assert a + b == a;
    } else {
      var n := |b| - 1;
      assert (a + b)[..|a| + n] == a + b[..n];
      PositivesConcat(a, b[..n]);
    }
  }

  lemma PositivesOne(d: int)
    ensures Positives([d]) == if d > 0 then [d] else []
  {
    assert [d][..0] == [];
  }

  lemma {:induction false} PositivesArePositive(history: seq<int>)
    ensures forall i :: 0 <= i < |Positives(history)| ==> Positives(history)[i] > 0
  {
    if history != [] {
      PositivesArePositive(history[..|history| - 1]);
    }
  }

  /** Sum adds: these two fix it. */
  lemma {:induction false} SumConcat(a: seq<int>, b: seq<int>)
    ensures Sum(a + b) == Sum(a) + Sum(b)
  {
    if b == [] {
      assert a + b == a;
    } else {
      var n := |b| - 1;
      assert (a + b)[..|a| + n] == a + b[..n];
      SumConcat(a, b[..n]);
    }
  }

  lemma SumOne(x: int)
    ensures Sum([]) == 0 && Sum([x]) == x
  {
    assert [x][..0] == [];
  }

  /** The order of the samples does not matter. */
  lemma {:induction false} SumReordered(a: seq<int>, b: seq<int>)
    requires multiset(a) == multiset(b)
    ensures Sum(a) == Sum(b)
  {
    hide Sum;
    SameSize(a, b);
    if a != [] {
      var k := PlaceOf(a[0], b);
      SumWithout(a, 0);
      SumWithout(b, k);
      SameRest(a, b, k);
      SumReordered(a[1..], b[..k] + b[k + 1..]);
      assert a[..0] + a[1..] == a[1..];
    } else {
      assert a == b;
    }
  }

  lemma SameSize(a: seq<int>, b: seq<int>)
    requires multiset(a) == multiset(b)
    ensures |a| == |b|
  {
    assert |multiset(a)| == |a| && |multiset(b)| == |b|;
  }

  lemma SameRest(a: seq<int>, b: seq<int>, k: nat)
    requires multiset(a) == multiset(b) && a != [] && k < |b| && b[k] == a[0]
    ensures multiset(a[1..]) == multiset(b[..k] + b[k + 1..])
  {
    WithoutOne(a, 0);
    WithoutOne(b, k);
    assert a[..0] + a[1..] == a[1..];
  }

  lemma PlaceOf(x: int, b: seq<int>) returns (k: nat)
    requires x in multiset(b)
    ensures k < |b| && b[k] == x
  {
    k :| 0 <= k < |b| && b[k] == x;
  }

  lemma WithoutOne(s: seq<int>, k: nat)
    requires k < |s|
    ensures multiset(s[..k] + s[k + 1..]) == multiset(s) - multiset{s[k]}
  {
    assert s == s[..k] + ([s[k]] + s[k + 1..]);
  }

  lemma SumWithout(s: seq<int>, k: nat)
    requires k < |s|
    ensures Sum(s) == s[k] + Sum(s[..k] + s[k + 1..])
  {
    hide Sum;
    assert s == s[..k] + ([s[k]] + s[k + 1..]);
    SumOne(s[k]);
    SumConcat(s[..k], [s[k]] + s[k + 1..]);
    SumConcat([s[k]], s[k + 1..]);
    SumConcat(s[..k], s[k + 1..]);
  }

  /** avg is total / n, rounded down. */
  predicate IsMean(total: int, n: nat, avg: int) {
    n > 0 && avg * n <= total < avg * n + n
  }

  lemma MeanExactly(samples: seq<int>, avg: int)
    ensures Mean(samples) == Some(avg) <==> IsMean(Sum(samples), |samples|, avg)
  {
    if samples != [] {
      var t, n := Sum(samples), |samples|;
      var q := t / n;
      assert t == q * n + t % n;
      MulMonotone(q + 1, avg, n);
      MulMonotone(avg + 1, q, n);
      assert (q + 1) * n == q * n + n && (avg + 1) * n == avg * n + n;
    }
  }

  lemma {:induction false} SumBounds(s: seq<int>, lo: int, hi: int)
    requires forall i :: 0 <= i < |s| ==> lo <= s[i] <= hi
    ensures |s| * lo <= Sum(s) <= |s| * hi
  {
    if s != [] {
      SumBounds(s[..|s| - 1], lo, hi);
      assert |s| * lo == (|s| - 1) * lo + lo && |s| * hi == (|s| - 1) * hi + hi;
    }
  }

  lemma MulMonotone(a: int, b: int, n: nat)
    ensures a <= b ==> a * n <= b * n
  {
  }

  lemma MeanDivides(sum: int, n: int, lo: int, hi: int)
    requires n > 0 && n * lo <= sum <= n * hi
    ensures lo <= sum / n <= hi
  {
    var q := sum / n;
    assert sum == q * n + sum % n;
    MulMonotone(q, lo - 1, n);
    MulMonotone(hi + 1, q, n);
    assert (lo - 1) * n == n * lo - n && (hi + 1) * n == n * hi + n;
  }

  lemma MeanBounds(s: seq<int>, lo: int, hi: int)
    requires s != []
    requires forall i :: 0 <= i < |s| ==> lo <= s[i] <= hi
    ensures lo <= Sum(s) / |s| <= hi
  {
    SumBounds(s, lo, hi);
    MeanDivides(Sum(s), |s|, lo, hi);
  }

  /** After any history the average is positive and lies between any bounds that hold of the window. */
  lemma MeanWithinWindow(history: seq<int>, window: nat, lo: int, hi: int)
    requires forall d :: d in Last(Positives(history), window) ==> lo <= d <= hi
    ensures Mean(Replay(history, window)) == None <==> Last(Positives(history), window) == []
    ensures match Mean(Replay(history, window)) case Some(avg) => 0 < avg && lo <= avg <= hi case None => true
  {
    ReplayIsWindow(history, window);
    var s := Last(Positives(history), window);
    if s != [] {
      PositivesArePositive(history);
      var least := if lo > 1 then lo else 1;
      forall i | 0 <= i < |s| ensures least <= s[i] <= hi {
        assert s[i] in s;
      }
      MeanBounds(s, least, hi);
    }
  }

  class Tracker {
    const window: nat
    var samples: seq<int>

    ghost predicate Valid()
      reads this
    {
      window >= 1 && |samples| <= window && forall i :: 0 <= i < |samples| ==> samples[i] > 0
    }

    constructor (requested: int)
      ensures Valid() && samples == [] && window == (if requested < 1 then 20 else requested)
    {
      window := Window(requested);
      samples := [];
    }

    method Record(d: int)
      requires Valid()
      modifies this
      ensures Valid() && samples == Recorded(old(samples), window, d)
    {
      if d <= 0 {
        return;
      }
      samples := samples + [d];
      if |samples| > window {
        samples := samples[|samples| - window..];
      }
    }

    method Average() returns (avg: int, ok: bool)
      requires Valid()
      ensures ok <==> samples != []
      ensures if ok then Mean(samples) == Some(avg) else avg == 0
      ensures ok ==> IsMean(Sum(samples), |samples|, avg)
    {
      if |samples| == 0 {
        return 0, false;
      }
      var sum := 0;
      for i := 0 to |samples|
        invariant sum == Sum(samples[..i])
      {
        assert samples[..i + 1][..i] == samples[..i];
        sum := sum + samples[i];
      }
      assert samples[..|samples|] == samples;
      MeanExactly(samples, sum / |samples|);
      return sum / |samples|, true;
    }
  }
}
